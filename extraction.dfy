/** The response parsers of automind/agents/ThinkAgent.py (and the identical
    `extract_output` of the two single-shot agents). Each is one `re.search`
    over fixed literal markers; the model states the search semantics
    directly: the leftmost start at which the pattern can match, and for a
    lazy `.*?` the shortest capture from that start. */
module Extraction {
  import opened Wrappers
  import opened Text
  import opened Json
  import opened Errors
  import opened Markers

  /** A way for `open (.*?) close` to match `s`: `open` at `i`, the capture
      from `i + |open|` to `k`, and `close` at `k`. */
  ghost predicate Span(s: string, open: string, close: string, i: int, k: int) {
    OccursAt(s, open, i) && i + |open| <= k && OccursAt(s, close, k)
  }

  /** The match `re.search` reports: the leftmost start that can match, and
      from it the shortest (lazy) capture. */
  ghost predicate LeftmostLazy(s: string, open: string, close: string, i: int, k: int) {
    Span(s, open, close, i, k)
    && (forall i', k' :: Span(s, open, close, i', k') ==> i <= i')
    && (forall k' :: Span(s, open, close, i, k') ==> k <= k')
  }

  /** Where `open (.*?) close` matches `s`, as a pair of indices (opener start,
      closer start), or `None` when it does not match. */
  function Delimited(s: string, open: string, close: string): (r: Option<(nat, nat)>)
    ensures r.None? <==> !exists i, k :: Span(s, open, close, i, k)
    ensures r.Some? ==> LeftmostLazy(s, open, close, r.value.0, r.value.1)
  {
    match Find(s, open, 0)
    case None => None
    case Some(i) =>
      match Find(s, close, i + |open|)
      case None => None
      case Some(k) =>
        assert Span(s, open, close, i, k);
        Some((i, k))
  }

  /** `extract_thought`: `Thought: (.*?)(?=Action:)` with `re.DOTALL`, then
      `.strip()`. `None` unless a "Thought: " is followed, somewhere after it,
      by "Action:"; otherwise the stripped text between the first "Thought: "
      and the first "Action:" after it. */
  function ExtractThought(text: string): (r: Option<string>)
    ensures r.None? <==> !exists i, k :: Span(text, ThoughtMarker, ActionMarker, i, k)
    ensures r.Some? ==> exists i, k :: LeftmostLazy(text, ThoughtMarker, ActionMarker, i, k)
                                       && r.value == Strip(text[i + |ThoughtMarker|..k])
  {
    match Delimited(text, ThoughtMarker, ActionMarker)
    case None => None
    case Some((i, k)) => Some(Strip(text[i + |ThoughtMarker|..k]))
  }

  /** `extract_action`: `Action:\n(```json\n.*?\n```)` with `re.DOTALL`; the
      result re-attaches "Action:\n", so it is the whole matched span. */
  function ExtractAction(text: string): (r: Option<string>)
    ensures r.None? <==> !exists i, k :: Span(text, ActionOpener, ActionCloser, i, k)
    ensures r.Some? ==> exists i, k :: LeftmostLazy(text, ActionOpener, ActionCloser, i, k)
                                       && r.value == text[i..k + |ActionCloser|]
  {
    match Delimited(text, ActionOpener, ActionCloser)
    case None => None
    case Some((i, k)) =>
      assert text[i..i + 8] == ActionOpener[..8] == "Action:\n";
      assert text[i..k + |ActionCloser|] == text[i..i + 8] + text[i + 8..k + |ActionCloser|];
      Some("Action:\n" + text[i + 8..k + |ActionCloser|])
  }

  /** `extract_final_answer`: `Final Answer:([\s\S]*)`, everything after the
      first marker, unstripped; `None` exactly when the marker is absent. */
  function ExtractFinalAnswer(text: string): (r: Option<string>)
    ensures r.None? <==> !Contains(text, FinalAnswerMarker)
    ensures r.Some? ==> var i := |text| - |r.value| - |FinalAnswerMarker|;
                        OccursAt(text, FinalAnswerMarker, i)
                        && r.value == text[i + |FinalAnswerMarker|..]
                        && forall j :: 0 <= j < i ==> !OccursAt(text, FinalAnswerMarker, j)
  {
    match Find(text, FinalAnswerMarker, 0)
    case None => None
    case Some(i) => Some(text[i + |FinalAnswerMarker|..])
  }

  /** The text `extract_output` hands to `json.loads`: between the first
      "```json" and the next "```" after it. */
  function JsonBlock(content: string): (r: Option<string>)
    ensures r.None? <==> !exists i, k :: Span(content, JsonOpener, Fence, i, k)
    ensures r.Some? ==> exists i, k :: LeftmostLazy(content, JsonOpener, Fence, i, k)
                                       && r.value == content[i + |JsonOpener|..k]
  {
    match Delimited(content, JsonOpener, Fence)
    case None => None
    case Some((i, k)) => Some(content[i + |JsonOpener|..k])
  }

  /** `extract_output`: `Ok(None)` when there is no fenced json block; a parse
      failure of the block propagates as `MalformedJson` and is not turned
      into `None`. `loads` is `json.loads`, `None` where it raises. A block
      holding the json text `null` gives `Ok(Some(JNull))` where Python
      returns `None`, like no block at all; every caller then fails at
      `['name']` with the same `BadSubscript` either way. */
  function ExtractOutput(content: string, loads: string -> Option<Json>): (r: Result<Option<Json>, Fault>)
    ensures r == Ok(None) <==> JsonBlock(content).None?
    ensures r.Err? <==> JsonBlock(content).Some? && loads(JsonBlock(content).value).None?
    ensures r.Err? ==> r.error == MalformedJson(JsonBlock(content).value)
    ensures r.Ok? && r.value.Some? ==> r.value == loads(JsonBlock(content).value)
  {
    match JsonBlock(content)
    case None => Ok(None)
    case Some(block) =>
      match loads(block)
      case None => Err(MalformedJson(block))
      case Some(j) => Ok(Some(j))
  }

  /** The piece of `s` a leftmost-lazy match covers, from the opener to the
      end of the closer: it starts with `open`, ends with `close`, and no
      `close` starts inside the capture. */
  lemma MatchedPiece(s: string, open: string, close: string, i: int, k: int)
    requires LeftmostLazy(s, open, close, i, k)
    ensures var r := s[i..k + |close|];
            OccursAt(s, r, i)
            && |r| >= |open| + |close|
            && r[..|open|] == open
            && r[|r| - |close|..] == close
            && forall j :: |open| <= j < |r| - |close| ==> !OccursAt(r, close, j)
  {
    var r := s[i..k + |close|];
    SliceOfSlice(s, i, k + |close|, 0, |open|);
    SliceOfSlice(s, i, k + |close|, |r| - |close|, |r|);
    OccursInSlice(s, i, k + |close|, r, 0);
    forall j | |open| <= j < |r| - |close|
      ensures !OccursAt(r, close, j)
    {
      OccursInSlice(s, i, k + |close|, close, j);
      assert !Span(s, open, close, i, i + j);
    }
  }

  /** What `extract_action` returns is a piece of its input that begins with
      "Action:\n```json\n", ends with "\n```", and has no "\n```" starting
      inside the captured body. */
  lemma ExtractActionShape(text: string)
    requires ExtractAction(text).Some?
    ensures var r := ExtractAction(text).value;
            Contains(text, r)
            && |r| >= |ActionOpener| + |ActionCloser|
            && r[..|ActionOpener|] == ActionOpener
            && r[|r| - |ActionCloser|..] == ActionCloser
            && forall j :: |ActionOpener| <= j < |r| - |ActionCloser| ==> !OccursAt(r, ActionCloser, j)
  {
    var i, k :| LeftmostLazy(text, ActionOpener, ActionCloser, i, k)
                && ExtractAction(text).value == text[i..k + |ActionCloser|];
    MatchedPiece(text, ActionOpener, ActionCloser, i, k);
  }

  /** Character facts about the action markers. */
  lemma ActionMarkerFacts()
    ensures |ActionOpener| == 16 && |ActionCloser| == 4 && |JsonOpener| == 7 && |Fence| == 3
    ensures ActionOpener[8..15] == JsonOpener && ActionOpener[15] == '\n'
    ensures forall j :: 0 <= j < 8 ==> ActionOpener[j] != '`'
    ensures ActionCloser[1..] == Fence && JsonOpener[0] == '`'
  {
  }

  /** The action block `extract_action` returns always holds a fenced json
      block for `extract_output`, starting right after "Action:\n```json"
      with the newline that follows the tag. So in the iterative agent
      `extract_output(action)` never yields `None` for a found action. */
  lemma ActionBlockHasJsonBlock(text: string)
    requires ExtractAction(text).Some?
    ensures var r := ExtractAction(text).value;
            JsonBlock(r).Some?
            && (exists q :: 16 <= q <= |r| - |Fence| && JsonBlock(r).value == r[15..q])
            && |JsonBlock(r).value| > 0 && JsonBlock(r).value[0] == '\n'
  {
    ExtractActionShape(text);
    ActionBlockShapeHasJsonBlock(ExtractAction(text).value);
  }

  lemma ActionBlockShapeHasJsonBlock(r: string)
    requires |r| >= 20 && r[..16] == ActionOpener && r[|r| - 4..] == ActionCloser
    ensures JsonBlock(r).Some?
            && (exists q :: 16 <= q <= |r| - |Fence| && JsonBlock(r).value == r[15..q])
            && |JsonBlock(r).value| > 0 && JsonBlock(r).value[0] == '\n'
  {
    ActionMarkerFacts();
    SliceOfSlice(r, 0, 16, 8, 15);
    SliceOfSlice(r, |r| - 4, |r|, 1, 4);
    assert OccursAt(r, JsonOpener, 8);
    assert OccursAt(r, Fence, |r| - 3);
    forall j | 0 <= j < 8 ensures !OccursAt(r, JsonOpener, j) {
      assert r[j] == r[..16][j];
      assert r[j..j + 7][0] == r[j];
    }
    assert r[15] == r[..16][15];
    assert r[15..18][0] == r[15];
    FindReaches(r, Fence, 15, |r| - 3);
    var k := Find(r, Fence, 15).value;
    DelimitedAt(r, JsonOpener, Fence, 8, k);
    assert JsonBlock(r).value == r[15..k];
    assert r[15..k][0] == r[15];
  }

  /** A marker is first found at the end of a prefix in which its first
      character does not occur. */
  lemma FirstAfterFreePrefix(prefix: string, open: string, rest: string)
    requires |open| > 0 && forall c :: c in prefix ==> c != open[0]
    ensures var s := prefix + open + rest;
            OccursAt(s, open, |prefix|) && forall j :: 0 <= j < |prefix| ==> !OccursAt(s, open, j)
  {
    var s := prefix + open + rest;
    OccursInMiddle(prefix, open, rest);
    forall j | 0 <= j < |prefix| ensures !OccursAt(s, open, j) {
      assert s[j] == prefix[j] && prefix[j] in prefix;
      if j + |open| <= |s| {
        assert s[j..j + |open|][0] == s[j];
      }
    }
  }

  /** A search that meets no occurrence before `i` stops at `i`. */
  lemma FindIs(s: string, p: string, from: nat, i: int)
    requires from <= i && OccursAt(s, p, i)
    requires forall j :: from <= j < i ==> !OccursAt(s, p, j)
    ensures Find(s, p, from) == Some(i)
  {
    FindReaches(s, p, from, i);
  }

  /** A span with no opener before it and no closer inside its capture is
      the match `Delimited` reports. */
  lemma DelimitedAt(s: string, open: string, close: string, i: int, k: int)
    requires Span(s, open, close, i, k)
    requires forall j :: 0 <= j < i ==> !OccursAt(s, open, j)
    requires forall j :: i + |open| <= j < k ==> !OccursAt(s, close, j)
    ensures Delimited(s, open, close) == Some((i, k))
  {
    FindIs(s, open, 0, i);
    FindIs(s, close, i + |open|, k);
  }

  /** No closer starts inside `body` in `prefix + body + close + suffix`
      when none starts inside `body` in `body + close`. */
  lemma NoCloseInBody(pre: string, body: string, close: string, suffix: string)
    requires forall t :: 0 <= t < |body| ==> !OccursAt(body + close, close, t)
    ensures var s := pre + body + close + suffix;
            forall j :: |pre| <= j < |pre| + |body| ==> !OccursAt(s, close, j)
  {
    var s := pre + body + close + suffix;
    var o := |pre|;
    assert s[o..o + |body| + |close|] == body + close;
    forall j | o <= j < o + |body| ensures !OccursAt(s, close, j) {
      OccursInSlice(s, o, o + |body| + |close|, close, j - o);
    }
  }

  /** The leftmost lazy match in `prefix + open + body + close + suffix`,
      when nothing in `prefix` starts an opener and `body` does not close
      early, captures exactly `body`. */
  lemma DelimitedExactly(prefix: string, open: string, body: string, close: string, suffix: string)
    requires forall j :: 0 <= j < |prefix| ==> !OccursAt(prefix + open + body + close + suffix, open, j)
    requires forall t :: 0 <= t < |body| ==> !OccursAt(body + close, close, t)
    ensures Delimited(prefix + open + body + close + suffix, open, close)
            == Some((|prefix|, |prefix| + |open| + |body|))
  {
    var s := prefix + open + body + close + suffix;
    OccursInMiddle(prefix, open, body + close + suffix);
    assert s == prefix + open + (body + close + suffix);
    OccursInMiddle(prefix + open + body, close, suffix);
    NoCloseInBody(prefix + open, body, close, suffix);
    DelimitedAt(s, open, close, |prefix|, |prefix| + |open| + |body|);
  }

  /** The wire format the prompts teach round-trips through `extract_output`:
      a json text put in a "```json" fence after backtick-free text is exactly
      what is handed to `json.loads` again, provided it does not itself close
      the fence. */
  lemma JsonBlockRoundTrip(prefix: string, body: string, suffix: string)
    requires forall c :: c in prefix ==> c != '`'
    requires forall t :: 0 <= t < |body| ==> !OccursAt(body + Fence, Fence, t)
    ensures JsonBlock(prefix + JsonOpener + body + Fence + suffix) == Some(body)
  {
    assert JsonOpener[0] == '`';
    FencedBodyIsDelimited(prefix, JsonOpener, body, Fence, suffix);
    MiddleSlice(prefix + JsonOpener, body, Fence + suffix);
    assert prefix + JsonOpener + body + Fence + suffix == (prefix + JsonOpener) + body + (Fence + suffix);
  }

  lemma MiddleSlice(a: string, m: string, b: string)
    ensures (a + m + b)[|a|..|a| + |m|] == m
  {
  }

  /** `DelimitedExactly` for a prefix free of the opener's first character. */
  lemma FencedBodyIsDelimited(prefix: string, open: string, body: string, close: string, suffix: string)
    requires |open| > 0 && forall c :: c in prefix ==> c != open[0]
    requires forall t :: 0 <= t < |body| ==> !OccursAt(body + close, close, t)
    ensures Delimited(prefix + open + body + close + suffix, open, close)
            == Some((|prefix|, |prefix| + |open| + |body|))
  {
    var s := prefix + open + body + close + suffix;
    var rest := body + close + suffix;
    FirstAfterFreePrefix(prefix, open, rest);
    assert s == prefix + open + rest;
    DelimitedExactly(prefix, open, body, close, suffix);
  }

  /** Hence a value serialised by a `dumps` that `loads` inverts is parsed
      back to itself: the round trip of the intent format. */
  lemma ExtractOutputRoundTrip(prefix: string, j: Json, suffix: string,
                               loads: string -> Option<Json>, dumps: Json -> string)
    requires loads(dumps(j)) == Some(j)
    requires forall c :: c in prefix ==> c != '`'
    requires forall t :: 0 <= t < |dumps(j)| ==> !OccursAt(dumps(j) + Fence, Fence, t)
    ensures ExtractOutput(prefix + JsonOpener + dumps(j) + Fence + suffix, loads) == Ok(Some(j))
  {
    JsonBlockRoundTrip(prefix, dumps(j), suffix);
  }

  /** The final answer is returned verbatim, leading space included, when
      nothing before the marker could start one. */
  lemma FinalAnswerVerbatim(prefix: string, answer: string)
    requires forall c :: c in prefix ==> c != 'F'
    ensures ExtractFinalAnswer(prefix + FinalAnswerMarker + answer) == Some(answer)
  {
    assert FinalAnswerMarker[0] == 'F';
    var s := prefix + FinalAnswerMarker + answer;
    FirstAfterFreePrefix(prefix, FinalAnswerMarker, answer);
    assert Contains(s, FinalAnswerMarker);
    assert s[|prefix| + |FinalAnswerMarker|..] == answer;
  }

  /** A final answer never survives a second extraction unchanged: applying
      `extract_final_answer` to its own output is not the identity. */
  lemma FinalAnswerNotIdempotent(text: string)
    ensures ExtractFinalAnswer(text) != Some(text)
  {
  }
}
