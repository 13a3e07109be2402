/** String primitives with Python's semantics: leftmost literal search (what
    `re.search` does for a fixed marker) and `str.strip()`. */
module Text {
  import opened Wrappers

  /** `p` occurs in `s` starting at index `i`. */
  predicate OccursAt(s: string, p: string, i: int) {
    0 <= i && i + |p| <= |s| && s[i..i + |p|] == p
  }

  /** `p` is a substring of `s`. */
  predicate Contains(s: string, p: string) {
    exists i :: 0 <= i <= |s| && OccursAt(s, p, i)
  }

  /** The leftmost occurrence of `p` in `s` at or after index `from`. */
  function Find(s: string, p: string, from: nat): (r: Option<nat>)
    ensures r.Some? ==> from <= r.value && OccursAt(s, p, r.value)
    ensures forall j :: from <= j && (r.None? || j < r.value) ==> !OccursAt(s, p, j)
    decreases |s| - from
  {
    if from + |p| > |s| then None
    else if s[from..from + |p|] == p then Some(from)
    else Find(s, p, from + 1)
  }

  /** An occurrence of `p` at index `i` is found by any search starting at or
      before `i`, and the search stops at or before `i`. */
  lemma FindReaches(s: string, p: string, from: nat, i: int)
    requires from <= i && OccursAt(s, p, i)
    ensures Find(s, p, from).Some? && Find(s, p, from).value <= i
  {
  }

  lemma SliceOfSlice(s: string, a: int, b: int, c: int, d: int)
    requires 0 <= a <= b <= |s| && 0 <= c <= d <= b - a
    ensures s[a..b][c..d] == s[a + c..a + d]
  {
    forall t | 0 <= t < d - c ensures s[a..b][c..d][t] == s[a + c..a + d][t] {
    }
  }

  /** An occurrence inside the slice `s[a..b]` is an occurrence in `s`,
      shifted by `a`, and conversely. */
  lemma OccursInSlice(s: string, a: int, b: int, p: string, j: int)
    requires 0 <= a <= b <= |s| && 0 <= j && j + |p| <= b - a
    ensures OccursAt(s[a..b], p, j) <==> OccursAt(s, p, a + j)
  {
    SliceOfSlice(s, a, b, j, j + |p|);
  }

  /** Occurrences inside a concatenation. */
  lemma OccursInMiddle(a: string, p: string, b: string)
    ensures OccursAt(a + p + b, p, |a|)
  {
    assert (a + p + b)[|a|..|a| + |p|] == p;
  }

  lemma OccursShift(a: string, s: string, b: string, p: string, i: int)
    requires OccursAt(s, p, i)
    ensures OccursAt(a + s + b, p, |a| + i)
  {
    assert (a + s + b)[|a| + i..|a| + i + |p|] == s[i..i + |p|];
  }

  lemma ContainsInMiddle(a: string, s: string, b: string, p: string)
    requires Contains(s, p)
    ensures Contains(a + s + b, p)
  {
    var i :| 0 <= i <= |s| && OccursAt(s, p, i);
    OccursShift(a, s, b, p, i);
  }

  lemma OccursExtend(s: string, t: string, p: string, i: int)
    requires OccursAt(s, p, i)
    ensures OccursAt(s + t, p, i)
  {
    assert (s + t)[i..i + |p|] == s[i..i + |p|];
  }

  lemma OccursAtEnd(s: string, t: string)
    ensures OccursAt(s + t, t, |s|)
  {
    assert (s + t)[|s|..|s| + |t|] == t;
  }

  lemma OccursContains(s: string, p: string, i: int)
    requires OccursAt(s, p, i)
    ensures Contains(s, p)
  {
  }

  /** An occurrence of `p` inside an occurrence of `t` is an occurrence in
      the whole. */
  lemma OccursCompose(s: string, t: string, p: string, i: int, j: int)
    requires OccursAt(s, t, i) && OccursAt(t, p, j)
    ensures OccursAt(s, p, i + j)
  {
    OccursInSlice(s, i, i + |t|, p, j);
  }

  /** An occurrence survives appending two, three or four more parts. */
  lemma OccursExtend2(s: string, t1: string, t2: string, p: string, i: int)
    requires OccursAt(s, p, i)
    ensures OccursAt(s + t1 + t2, p, i)
  {
    OccursExtend(s, t1, p, i);
    OccursExtend(s + t1, t2, p, i);
  }

  lemma OccursExtend4(s: string, t1: string, t2: string, t3: string, t4: string, p: string, i: int)
    requires OccursAt(s, p, i)
    ensures OccursAt(s + t1 + t2 + t3 + t4, p, i)
  {
    OccursExtend2(s, t1, t2, p, i);
    OccursExtend2(s + t1 + t2, t3, t4, p, i);
  }

  /** The layouts the prompt f-strings produce: inputs interleaved with
      constant text. Each part of a concatenation occurs at the sum of the
      lengths before it. */
  lemma Layout3(a: string, x: string, b: string)
    ensures var s := a + x + b;
            OccursAt(s, x, |a|) && OccursAt(s, b, |a| + |x|) && |s| == |a| + |x| + |b|
  {
    OccursAtEnd(a, x);
    OccursExtend(a + x, b, x, |a|);
    OccursAtEnd(a + x, b);
  }

  lemma Layout7(a: string, x: string, b: string, y: string, c: string, z: string, d: string)
    ensures var s := a + x + b + y + c + z + d;
            var ox := |a|;
            var oy := ox + |x| + |b|;
            var oc := oy + |y|;
            var oz := oc + |c|;
            var od := oz + |z|;
            OccursAt(s, x, ox) && OccursAt(s, y, oy) && OccursAt(s, c, oc)
            && OccursAt(s, z, oz) && OccursAt(s, d, od) && |s| == od + |d|
  {
    OccursAtEnd(a, x);
    OccursExtend4(a + x, b, y, c, z, x, |a|);
    OccursExtend(a + x + b + y + c + z, d, x, |a|);
    OccursAtEnd(a + x + b, y);
    OccursExtend2(a + x + b + y, c, z, y, |a + x + b|);
    OccursExtend(a + x + b + y + c + z, d, y, |a + x + b|);
    OccursAtEnd(a + x + b + y, c);
    OccursExtend2(a + x + b + y + c, z, d, c, |a + x + b + y|);
    OccursAtEnd(a + x + b + y + c, z);
    OccursExtend(a + x + b + y + c + z, d, z, |a + x + b + y + c|);
    OccursAtEnd(a + x + b + y + c + z, d);
  }

  lemma Layout11(a: string, x: string, b: string, y: string, c: string, z: string,
                 d: string, u: string, e: string, v: string, f: string)
    ensures var s := a + x + b + y + c + z + d + u + e + v + f;
            var ox := |a|;
            var oy := ox + |x| + |b|;
            var oz := oy + |y| + |c|;
            var ou := oz + |z| + |d|;
            var ov := ou + |u| + |e|;
            var of := ov + |v|;
            OccursAt(s, x, ox) && OccursAt(s, y, oy) && OccursAt(s, z, oz)
            && OccursAt(s, u, ou) && OccursAt(s, e, ou + |u|) && OccursAt(s, v, ov)
            && OccursAt(s, f, of) && |s| == of + |f|
  {
    var s7 := a + x + b + y + c + z + d;
    Layout7(a, x, b, y, c, z, d);
    OccursExtend4(s7, u, e, v, f, x, |a|);
    OccursExtend4(s7, u, e, v, f, y, |a| + |x| + |b|);
    OccursExtend4(s7, u, e, v, f, z, |a| + |x| + |b| + |y| + |c|);
    OccursAtEnd(s7, u);
    OccursExtend2(s7 + u, e, v, u, |s7|);
    OccursExtend(s7 + u + e + v, f, u, |s7|);
    OccursAtEnd(s7 + u, e);
    OccursExtend2(s7 + u + e, v, f, e, |s7 + u|);
    OccursAtEnd(s7 + u + e, v);
    OccursExtend(s7 + u + e + v, f, v, |s7 + u + e|);
    OccursAtEnd(s7 + u + e + v, f);
  }

  /** Python's `str.isspace()` for one character: the Unicode white space
      characters CPython strips. */
  predicate IsSpace(c: char) {
    ('\U{0009}' <= c <= '\U{000D}') || ('\U{001C}' <= c <= '\U{001F}') || c == ' '
    || c == '\U{0085}' || c == '\U{00A0}' || c == '\U{1680}'
    || ('\U{2000}' <= c <= '\U{200A}') || c == '\U{2028}' || c == '\U{2029}'
    || c == '\U{202F}' || c == '\U{205F}' || c == '\U{3000}'
  }

  /** `s.lstrip()`: drops the leading white space and nothing else. */
  function TrimStart(s: string): (r: string)
    ensures |r| <= |s| && r == s[|s| - |r|..]
    ensures forall i :: 0 <= i < |s| - |r| ==> IsSpace(s[i])
    ensures r != [] ==> !IsSpace(r[0])
  {
    if s != [] && IsSpace(s[0]) then TrimStart(s[1..]) else s
  }

  /** `s.rstrip()`: drops the trailing white space and nothing else. */
  function TrimEnd(s: string): (r: string)
    ensures |r| <= |s| && r == s[..|r|]
    ensures forall i :: |r| <= i < |s| ==> IsSpace(s[i])
    ensures r != [] ==> !IsSpace(r[|r| - 1])
  {
    if s != [] && IsSpace(s[|s| - 1]) then TrimEnd(s[..|s| - 1]) else s
  }

  /** `r` is what is left of `s` once the white space before index `a` and
      after index `a + |r|` is removed. */
  predicate TrimmedAt(s: string, r: string, a: int) {
    0 <= a <= |s| - |r| && r == s[a..a + |r|]
    && (forall i :: 0 <= i < a ==> IsSpace(s[i]))
    && (forall i :: a + |r| <= i < |s| ==> IsSpace(s[i]))
  }

  /** `s.strip()`: the result is the contiguous middle of `s` left after
      removing white space from both ends; it neither starts nor ends with
      white space. */
  function Strip(s: string): (r: string)
    ensures exists a :: TrimmedAt(s, r, a)
    ensures r != [] ==> !IsSpace(r[0]) && !IsSpace(r[|r| - 1])
  {
    var t := TrimStart(s);
    var r := TrimEnd(t);
    assert TrimmedAt(s, r, |s| - |t|);
    r
  }
}
