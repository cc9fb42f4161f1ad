/** Rewriting tool-call ids for Anthropic: which come out valid, which collide, and that results keep their calls. */
module ToolIds {
  import opened Messages
  import opened Wrappers
  import Compression
  import Laws = TruncationLaws

  predicate Allowed(c: char) {
    'a' <= c <= 'z' || 'A' <= c <= 'Z' || '0' <= c <= '9' || c == '_' || c == '-'
  }

  /** What Anthropic accepts: one or more allowed characters and nothing else. */
  predicate Valid(id: string) {
    id != "" && forall i :: 0 <= i < |id| ==> Allowed(id[i])
  }

  /** A valid id with one newline after it: the pattern's `$` also matches there. */
  predicate NewlineTail(id: string) {
    |id| >= 2 && id[|id| - 1] == '\n' && Valid(id[..|id| - 1])
  }

  predicate Passes(id: string) {
    Valid(id) || NewlineTail(id)
  }

  function Masked(id: string): string {
    seq(|id|, i requires 0 <= i < |id| => if Allowed(id[i]) then id[i] else '_')
  }

  function Sanitized(id: string): string {
    if id == "" || Passes(id) then id else Masked(id)
  }

  function WithCleanIds(m: Message): Message {
    match m
    case AI(content, calls) =>
      AI(content, seq(|calls|, i requires 0 <= i < |calls| => calls[i].(id := Sanitized(calls[i].id))))
    case Tool(content, callId) => Tool(content, Sanitized(callId))
    case _ => m
  }

  function CleanAll(ms: seq<Message>): seq<Message> {
    seq(|ms|, i requires 0 <= i < |ms| => WithCleanIds(ms[i]))
  }

  /** A message object; a caller's list and what is sent may share it. */
  class MessageRef {
    var value: Message

    constructor (value: Message)
      ensures this.value == value
    {
      this.value := value;
    }
  }

  function Values(refs: seq<MessageRef>): seq<Message>
    reads refs
  {
    seq(|refs|, i requires 0 <= i < |refs| reads refs => refs[i].value)
  }

  method CleanIds(m: Message) returns (r: Message)
    ensures r == WithCleanIds(m)
  {
    hide Passes, Masked;
    r := m;
    if m.AI? {
      var calls := [];
      for k := 0 to |m.calls|
        invariant |calls| == k
        invariant forall j :: 0 <= j < k ==> calls[j] == m.calls[j].(id := Sanitized(m.calls[j].id))
      {
        var tc := m.calls[k];
        if tc.id != "" && !Passes(tc.id) { tc := tc.(id := Masked(tc.id)); }
        calls := calls + [tc];
      }
      r := m.(calls := calls);
    } else if m.Tool? {
      if m.callId != "" && !Passes(m.callId) { r := m.(callId := Masked(m.callId)); }
    }
  }

  lemma CleanTwice(m: Message)
    ensures WithCleanIds(WithCleanIds(m)) == WithCleanIds(m)
  {
    hide Sanitized;
    if m.Tool? {
      SanitizeIsIdempotent(m.callId);
    } else if m.AI? {
      forall k | 0 <= k < |m.calls| ensures Sanitized(Sanitized(m.calls[k].id)) == Sanitized(m.calls[k].id) {
        SanitizeIsIdempotent(m.calls[k].id);
      }
    }
  }

  /** In place: each object is rewritten where it is, however often it is listed. */
  method SanitizeToolIds(refs: seq<MessageRef>)
    modifies refs
    ensures forall r :: r in refs ==> r.value == WithCleanIds(old(r.value))
  {
    hide WithCleanIds;
    for i := 0 to |refs|
      invariant forall r :: r in refs && r in refs[..i] ==> r.value == WithCleanIds(old(r.value))
      invariant forall r :: r in refs && r !in refs[..i] ==> r.value == old(r.value)
    {
      CleanTwice(old(refs[i].value));
      var clean := CleanIds(refs[i].value);
      refs[i].value := clean;
      assert refs[..i + 1] == refs[..i] + [refs[i]];
    }
    assert refs[..|refs|] == refs;
  }

  // -------------------------------------------------------------- single ids

  lemma MaskedIsValid(id: string)
    ensures id != "" ==> Valid(Masked(id))
    ensures Valid(id) ==> Masked(id) == id
  {
  }

  /** A rewritten id is valid unless it was empty or had passed the check with its newline. */
  lemma SanitizedIsValidIff(id: string)
    ensures Valid(Sanitized(id)) <==> id != "" && !NewlineTail(id)
  {
    MaskedIsValid(id);
    if NewlineTail(id) {
      assert !Allowed(id[|id| - 1]);
    }
  }

  /** Letters, digits, underscores and hyphens stay where they are and any other character becomes an underscore,
      unless the id slips through with its newline. */
  lemma SanitizedAt(id: string, i: nat)
    requires i < |id| && !NewlineTail(id)
    ensures |Sanitized(id)| == |id|
    ensures var c := id[i];
            Sanitized(id)[i] == if 'a' <= c <= 'z' || 'A' <= c <= 'Z' || '0' <= c <= '9' || c in {'_', '-'} then c
                                else '_'
  {
    hide NewlineTail;
  }

  /** A trailing newline slips through. */
  lemma NewlineSlipsThrough()
    ensures Sanitized("a\n") == "a\n" && !Valid("a\n")
  {
    assert "a\n"[..1] == "a" && "a"[0] == 'a';
    assert !Allowed("a\n"[1]);
  }

  lemma SanitizeIsIdempotent(id: string)
    ensures Sanitized(Sanitized(id)) == Sanitized(id)
  {
    MaskedIsValid(id);
  }

  /** Two different ids become one exactly when they differ only in characters that are masked and neither slipped
      through with a newline. */
  lemma IdsCollideIff(x: string, y: string)
    requires x != y
    ensures Sanitized(x) == Sanitized(y) <==> Masked(x) == Masked(y) && !NewlineTail(x) && !NewlineTail(y)
  {
    SanitizedIsValidIff(x);
    SanitizedIsValidIff(y);
    MaskedIsValid(x);
    MaskedIsValid(y);
    hide Valid, NewlineTail, Masked;
    assert Masked(x) == Masked(y) && (x == "" || y == "") ==> |x| == |y| by { MaskedLength(x); MaskedLength(y); }
  }

  lemma MaskedLength(id: string)
    ensures |Masked(id)| == |id|
  {
  }

  /** Ids that differ in a punctuation mark do collide. */
  lemma PunctuationCollides()
    ensures Sanitized("call.1") == Sanitized("call:1") == "call_1"
  {
    assert !Allowed("call.1"[4]) && !Allowed("call:1"[4]);
    assert "call.1"[5] == '1' && "call:1"[5] == '1';
    assert !NewlineTail("call.1") && !NewlineTail("call:1");
    assert Masked("call.1") == "call_1" && Masked("call:1") == "call_1";
  }

  // ------------------------------------------------------------------ pairing

  lemma CallsSurvive(m: Message, id: string)
    requires Laws.Calls(m, id)
    ensures Laws.Calls(WithCleanIds(m), Sanitized(id))
  {
    hide Sanitized;
    var k :| 0 <= k < |m.calls| && m.calls[k].id == id;
    assert WithCleanIds(m).calls[k].id == Sanitized(id);
  }

  lemma CallerSurvives(ms: seq<Message>, j: nat, i: nat)
    requires i < j < |ms| && ms[j].Tool? && Laws.CalledBy(ms, j, i)
    ensures CleanAll(ms)[j].Tool? && Laws.CalledBy(CleanAll(ms), j, i)
  {
    hide Sanitized, Laws.Calls;
    CallsSurvive(ms[i], ms[j].callId);
  }

  /** Both sides of a call are rewritten alike, so every tool result keeps its caller. */
  lemma CleanKeepsPairing(ms: seq<Message>)
    requires Laws.Paired(ms)
    ensures Laws.Paired(CleanAll(ms))
  {
    var out := CleanAll(ms);
    hide Sanitized, Laws.CalledBy;
    forall j: nat | j < |out| && out[j].Tool? ensures exists i: nat :: i < j && Laws.CalledBy(out, j, i) {
      assert ms[j].Tool?;
      var i: nat :| i < j && Laws.CalledBy(ms, j, i);
      CallerSurvives(ms, j, i);
    }
  }

  /** No call of message i and the id of tool message j are different and collide. */
  ghost predicate NoClash(ms: seq<Message>, j: nat, i: nat)
    requires i < j < |ms| && ms[j].Tool? && ms[i].AI?
  {
    forall k :: 0 <= k < |ms[i].calls| && Sanitized(ms[i].calls[k].id) == Sanitized(ms[j].callId)
                ==> ms[i].calls[k].id == ms[j].callId
  }

  /** Without such a clash no result gains a caller it did not have. */
  lemma NoNewCaller(ms: seq<Message>, j: nat, i: nat)
    requires i < j < |ms| && ms[j].Tool? && ms[i].AI? && NoClash(ms, j, i)
    ensures CleanAll(ms)[j].Tool? && (Laws.CalledBy(CleanAll(ms), j, i) <==> Laws.CalledBy(ms, j, i))
  {
    var out := CleanAll(ms);
    hide Sanitized;
    if Laws.CalledBy(ms, j, i) {
      CallerSurvives(ms, j, i);
    }
    if Laws.CalledBy(out, j, i) {
      var k :| 0 <= k < |out[i].calls| && out[i].calls[k].id == out[j].callId;
      assert out[i].calls[k].id == Sanitized(ms[i].calls[k].id);
      assert ms[i].calls[k].id == ms[j].callId;
      forall l | i < l < j ensures !ms[l].Human? { assert !out[l].Human?; }
    }
  }

  /** What the Anthropic leg sends, compressed and then rewritten, still pairs every result with its call. */
  lemma AnthropicPayloadPaired(ms: seq<Message>, config: Compression.Config, iteration: int, target: Option<int>)
    requires Compression.WellPaired(ms)
    ensures Laws.Paired(CleanAll(Compression.Compressed(ms, config, iteration, target)))
  {
    var sent := Compression.Compressed(ms, config, iteration, target);
    Compression.CompressKeepsPairing(ms, config, iteration, target);
    assert Laws.Paired(sent);
    hide *;
    CleanKeepsPairing(sent);
  }
}
