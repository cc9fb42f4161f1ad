/**
 The Anthropic leg on message objects.  What is sent shares the caller's own
 messages except for the copies compression makes, so rewriting ids in place
 reaches back into the caller's list; this module says when that list keeps
 every tool result paired with its call.
 */
module SharedMessages {
  import opened Compression
  import opened Compressor
  import opened Messages
  import opened ToolIds
  import opened Wrappers

  predicate OverCap(m: Message, cap: nat) {
    m.Tool? && m.content.Text? && |m.content.text| > cap
  }

  /** The first position from which the history is kept again; dropped are those from the prefix up to here. */
  function KeptFrom(ms: seq<Message>, n: int): (c: nat)
    ensures Leading(ms, Boundary(ms)) <= c <= Boundary(ms)
  {
    var b := Boundary(ms);
    Leading(ms, b) + CutAt(ms[Leading(ms, b)..b], n)
  }

  function Stage1(ms: seq<Message>, config: Config, iteration: int): seq<Message> {
    if iteration > 1 then Condensed(ms, config.condense) else ms
  }

  predicate Kept(ms: seq<Message>, n: int, i: nat) {
    Boundary(ms) == 0 || i < Leading(ms, Boundary(ms)) || KeptFrom(ms, n) <= i
  }

  predicate Replaced(ms: seq<Message>, iteration: int, i: nat) {
    iteration > 1 && i == 0 && ms != [] && ms[0].System?
  }

  /** The message at this position is sent as the very object the caller holds. */
  predicate Reused(ms: seq<Message>, config: Config, iteration: int, i: nat)
    requires i < |ms|
  {
    && !Replaced(ms, iteration, i)
    && Kept(Stage1(ms, config, iteration), config.maxHistory, i)
    && !OverCap(ms[i], config.maxToolChars)
  }

  /** The caller's list once the ids of what was sent have been rewritten. */
  function CallerAfter(ms: seq<Message>, config: Config, iteration: int): seq<Message> {
    seq(|ms|, i requires 0 <= i < |ms| => if Reused(ms, config, iteration, i) then WithCleanIds(ms[i]) else ms[i])
  }

  // --------------------------------------------------------------- pairing

  lemma Stage1SameKinds(ms: seq<Message>, config: Config, iteration: int)
    ensures SameKinds(ms, Stage1(ms, config, iteration)) && Boundary(Stage1(ms, config, iteration)) == Boundary(ms)
  {
    SameKindsSameBoundary(ms, Stage1(ms, config, iteration));
  }

  /** From the boundary on everything is the caller's own, apart from results over the cap. */
  lemma RequestIsReused(ms: seq<Message>, config: Config, iteration: int, i: nat)
    requires Boundary(ms) <= i < |ms| && !ms[i].System?
    ensures Reused(ms, config, iteration, i) <==> !OverCap(ms[i], config.maxToolChars)
  {
    hide Boundary, Leading, CutAt, Stage1;
    Stage1SameKinds(ms, config, iteration);
  }

  /** Nothing before the boundary made a call that a later result answers. */
  lemma CallerIsInRequest(ms: seq<Message>, j: nat, i: nat)
    requires i < j < |ms| && ms[j].Tool? && Boundary(ms) <= j && forall k :: i < k < j ==> !ms[k].Human?
    ensures Boundary(ms) <= i
  {
    BoundaryIsHuman(ms);
  }

  lemma BoundaryIsHuman(ms: seq<Message>)
    ensures Boundary(ms) > 0 ==> Boundary(ms) < |ms| && ms[Boundary(ms)].Human?
  {
    LastHumanFacts(ms, |ms|);
    var last := LastHuman(ms, |ms|);
    if last > 0 {
      LastHumanFacts(ms, last);
    }
  }

  ghost predicate Torn(ms: seq<Message>, config: Config, j: nat)
    requires j < |ms|
  {
    OverCap(ms[j], config.maxToolChars) && Sanitized(ms[j].callId) != ms[j].callId
  }

  lemma CleanedCallsOnlyCleaned(m: Message, id: string)
    requires Laws.Calls(WithCleanIds(m), id)
    ensures Sanitized(id) == id
  {
    hide Sanitized;
    var out := WithCleanIds(m);
    var k :| 0 <= k < |out.calls| && out.calls[k].id == id;
    SanitizeIsIdempotent(m.calls[k].id);
  }

  lemma TornLosesCaller(ms: seq<Message>, config: Config, iteration: int, j: nat)
    requires Laws.NoToolBeforeBoundary(ms) && j < |ms| && Torn(ms, config, j)
    ensures !Laws.Paired(CallerAfter(ms, config, iteration))
  {
    var out := CallerAfter(ms, config, iteration);
    hide Sanitized, Boundary, WithCleanIds, Laws.Calls, Reused;
    RequestIsReused(ms, config, iteration, j);
    assert out[j] == ms[j];
    forall i: nat | i < j ensures !Laws.CalledBy(out, j, i) {
      if Laws.CalledBy(out, j, i) {
        SameKindAfter(ms, config, iteration);
        CallerIsInRequest(ms, j, i);
        assert out[i].AI? by { CallsMeansAI(out[i], ms[j].callId); }
        RequestIsReused(ms, config, iteration, i);
        CleanedCallsOnlyCleaned(ms[i], ms[j].callId);
      }
    }
  }

  lemma CallsMeansAI(m: Message, id: string)
    requires Laws.Calls(m, id)
    ensures m.AI?
  {
  }

  lemma SameKindAfter(ms: seq<Message>, config: Config, iteration: int)
    ensures forall k :: 0 <= k < |ms| ==> SameKind(ms[k], CallerAfter(ms, config, iteration)[k])
  {
    hide Sanitized, Reused;
  }

  lemma WholeKeepsCaller(ms: seq<Message>, config: Config, iteration: int, j: nat, i: nat)
    requires i < j < |ms| && ms[j].Tool? && Boundary(ms) <= j && !Torn(ms, config, j) && Laws.CalledBy(ms, j, i)
    ensures var out := CallerAfter(ms, config, iteration);
            out[j].Tool? && Laws.CalledBy(out, j, i)
  {
    var out := CallerAfter(ms, config, iteration);
    SameKindAfter(ms, config, iteration);
    hide Sanitized, Boundary, Reused;
    CallerIsInRequest(ms, j, i);
    RequestIsReused(ms, config, iteration, j);
    RequestIsReused(ms, config, iteration, i);
    CallsSurvive(ms[i], ms[j].callId);
  }

  /** The call k of message i ends with the id that tool message j ends with: the call's own rewritten id, or its id as
      it was if the message was not sent as it is; and likewise for j. */
  predicate EndsAlike(ms: seq<Message>, config: Config, iteration: int, j: nat, i: nat, k: nat)
    requires i < j < |ms| && ms[j].Tool? && ms[i].AI? && k < |ms[i].calls|
  {
    if Reused(ms, config, iteration, j) then
      Sanitized(ms[j].callId)
      == if Reused(ms, config, iteration, i) then Sanitized(ms[i].calls[k].id) else ms[i].calls[k].id
    else !Reused(ms, config, iteration, i) && ms[i].calls[k].id == ms[j].callId
  }

  /** Some AI message of the same request has such a call. */
  ghost predicate StillAnswered(ms: seq<Message>, config: Config, iteration: int, j: nat)
    requires j < |ms| && ms[j].Tool?
  {
    exists i: nat, k: nat :: i < j && ms[i].AI? && k < |ms[i].calls|
      && (forall l :: i < l < j ==> !ms[l].Human?) && EndsAlike(ms, config, iteration, j, i, k)
  }

  lemma AnsweredKeepsCaller(ms: seq<Message>, config: Config, iteration: int, j: nat)
    requires j < |ms| && ms[j].Tool? && StillAnswered(ms, config, iteration, j)
    ensures var out := CallerAfter(ms, config, iteration);
            out[j].Tool? && exists i: nat :: i < j && Laws.CalledBy(out, j, i)
  {
    var out := CallerAfter(ms, config, iteration);
    SameKindAfter(ms, config, iteration);
    hide Sanitized, Reused;
    var i: nat, k: nat :| i < j && ms[i].AI? && k < |ms[i].calls|
      && (forall l :: i < l < j ==> !ms[l].Human?) && EndsAlike(ms, config, iteration, j, i, k);
    assert out[i].calls[k].id == out[j].callId;
    assert Laws.CalledBy(out, j, i);
  }

  lemma CallerMeansAnswered(ms: seq<Message>, config: Config, iteration: int, j: nat, i: nat)
    requires i < j < |ms| && ms[j].Tool? && Sanitized(ms[j].callId) != ms[j].callId
    requires CallerAfter(ms, config, iteration)[j].Tool? && Laws.CalledBy(CallerAfter(ms, config, iteration), j, i)
    ensures StillAnswered(ms, config, iteration, j)
  {
    var out := CallerAfter(ms, config, iteration);
    SameKindAfter(ms, config, iteration);
    hide Sanitized, Reused;
    var k: nat :| k < |out[i].calls| && out[i].calls[k].id == out[j].callId;
    SanitizeIsIdempotent(ms[i].calls[k].id);
    assert EndsAlike(ms, config, iteration, j, i, k);
    forall l | i < l < j ensures !ms[l].Human? {
      assert !out[l].Human?;
    }
  }

  /** An id that is not rewritten stays with its call, whatever was sent. */
  lemma CleanIdKeepsCaller(ms: seq<Message>, config: Config, iteration: int, j: nat, i: nat)
    requires i < j < |ms| && ms[j].Tool? && Sanitized(ms[j].callId) == ms[j].callId && Laws.CalledBy(ms, j, i)
    ensures var out := CallerAfter(ms, config, iteration);
            out[j].Tool? && Laws.CalledBy(out, j, i)
  {
    var out := CallerAfter(ms, config, iteration);
    SameKindAfter(ms, config, iteration);
    hide Sanitized, Reused;
    CallsSurvive(ms[i], ms[j].callId);
  }

  /**
   For any paired list, the caller's own copy of it is still paired after the
   call if and only if each tool result whose id is rewritten still finds a call
   that ends with the id the result ends with.
   */
  lemma CallerKeepsPairingIff(ms: seq<Message>, config: Config, iteration: int)
    requires Laws.Paired(ms)
    ensures Laws.Paired(CallerAfter(ms, config, iteration)) <==>
              forall j: nat :: j < |ms| && ms[j].Tool? && Sanitized(ms[j].callId) != ms[j].callId
                               ==> StillAnswered(ms, config, iteration, j)
  {
    var out := CallerAfter(ms, config, iteration);
    AfterLength(ms, config, iteration);
    SameKindAfter(ms, config, iteration);
    hide CallerAfter, StillAnswered, Laws.CalledBy, Sanitized;
    if Laws.Paired(out) {
      forall j: nat | j < |ms| && ms[j].Tool? && Sanitized(ms[j].callId) != ms[j].callId
        ensures StillAnswered(ms, config, iteration, j)
      {
        assert out[j].Tool?;
        var i: nat :| i < j && Laws.CalledBy(out, j, i);
        CallerMeansAnswered(ms, config, iteration, j, i);
      }
    } else {
      if forall j: nat :: j < |ms| && ms[j].Tool? && Sanitized(ms[j].callId) != ms[j].callId
                          ==> StillAnswered(ms, config, iteration, j) {
        forall j: nat | j < |out| && out[j].Tool? ensures exists i: nat :: i < j && Laws.CalledBy(out, j, i) {
          assert ms[j].Tool?;
          if Sanitized(ms[j].callId) != ms[j].callId {
            AnsweredKeepsCaller(ms, config, iteration, j);
          } else {
            var i: nat :| i < j && Laws.CalledBy(ms, j, i);
            CleanIdKeepsCaller(ms, config, iteration, j, i);
          }
        }
      }
    }
  }

  /**
   When no tool message precedes the request, the caller's own list keeps every
   result paired with its call if and only if no tool result that was cut to the
   cap, and so sent as a copy, has an id that is rewritten.
   */
  lemma RequestKeepsPairingIff(ms: seq<Message>, config: Config, iteration: int)
    requires WellPaired(ms)
    ensures Laws.Paired(CallerAfter(ms, config, iteration)) <==> forall j :: 0 <= j < |ms| ==> !Torn(ms, config, j)
  {
    var out := CallerAfter(ms, config, iteration);
    hide Boundary, CallerAfter, Torn, Laws.CalledBy;
    if j :| 0 <= j < |ms| && Torn(ms, config, j) {
      TornLosesCaller(ms, config, iteration, j);
    } else {
      SameKindAfter(ms, config, iteration);
      AfterLength(ms, config, iteration);
      forall j: nat | j < |out| && out[j].Tool? ensures exists i: nat :: i < j && Laws.CalledBy(out, j, i) {
        assert ms[j].Tool?;
        var i: nat :| i < j && Laws.CalledBy(ms, j, i);
        WholeKeepsCaller(ms, config, iteration, j, i);
      }
    }
  }

  /** A result of four characters under a cap of three, whose id holds a full stop, loses its call. */
  lemma LongResultLosesCaller(condense: Content -> string, iteration: int)
    ensures var ms := [Human(Text("ask")), AI(Text(""), [ToolCall("call.1", 0)]), Tool(Text("data"), "call.1")];
            WellPaired(ms) && !Laws.Paired(CallerAfter(ms, Config(3, 3, condense), iteration))
  {
    var ms := [Human(Text("ask")), AI(Text(""), [ToolCall("call.1", 0)]), Tool(Text("data"), "call.1")];
    var config := Config(3, 3, condense);
    LongResultIsTorn(ms[2], condense);
    LongResultIsPaired(ms);
    hide WellPaired, CallerAfter, OverCap, Sanitized;
    assert Torn(ms, config, 2);
    TornLosesCaller(ms, config, iteration, 2);
  }

  lemma LongResultIsTorn(m: Message, condense: Content -> string)
    requires m == Tool(Text("data"), "call.1")
    ensures OverCap(m, Config(3, 3, condense).maxToolChars) && Sanitized(m.callId) != m.callId
  {
    hide Sanitized;
    PunctuationCollides();
    assert "call.1"[4] != "call_1"[4];
  }

  lemma LongResultIsPaired(ms: seq<Message>)
    requires |ms| == 3 && ms[0].Human? && ms[1].AI? && ms[2].Tool?
    requires |ms[1].calls| == 1 && ms[1].calls[0].id == ms[2].callId
    ensures WellPaired(ms)
  {
    LastHumanIs(ms, 3, 0);
    hide LastHuman;
    assert Laws.CalledBy(ms, 2, 1);
  }

  lemma AfterLength(ms: seq<Message>, config: Config, iteration: int)
    ensures |CallerAfter(ms, config, iteration)| == |ms|
  {
  }

  // --------------------------------------------------------------- objects

  /** The copies of stage 1: a condensed system prompt is a new object. */
  method Condense(refs: seq<MessageRef>, config: Config, iteration: int) returns (out: seq<MessageRef>)
    ensures Values(out) == Stage1(Values(refs), config, iteration)
    ensures |out| == |refs|
    ensures forall i :: 0 <= i < |refs| ==>
              if Replaced(Values(refs), iteration, i) then fresh(out[i]) else out[i] == refs[i]
  {
    out := refs;
    if iteration > 1 && refs != [] && refs[0].value.System? {
      var condensed := new MessageRef(System(Text(config.condense(refs[0].value.content))));
      out := [condensed] + refs[1..];
      assert Values(out) == [condensed.value] + Values(refs)[1..];
    }
  }

  /** Cutting out positions p to c keeps exactly the others. */
  lemma CutKeeps(refs: seq<MessageRef>, p: nat, c: nat, i: nat)
    requires p <= c <= |refs| && i < |refs| && (i < p || c <= i)
    ensures refs[i] in refs[..p] + refs[c..]
  {
    var out := refs[..p] + refs[c..];
    assert out[if i < p then i else i - c + p] == refs[i];
  }

  lemma CutComesFrom(refs: seq<MessageRef>, p: nat, c: nat, r: MessageRef) returns (i: nat)
    requires p <= c <= |refs| && r in refs[..p] + refs[c..]
    ensures i < |refs| && refs[i] == r && (i < p || c <= i)
  {
    var out := refs[..p] + refs[c..];
    var k :| 0 <= k < |out| && out[k] == r;
    i := if k < p then k else k + (c - p);
  }

  /** The same objects without the dropped turns. */
  method DropTurns(refs: seq<MessageRef>, n: int) returns (out: seq<MessageRef>)
    ensures Values(out) == Truncated(Values(refs), n)
    ensures forall i :: 0 <= i < |refs| && Kept(Values(refs), n, i) ==> refs[i] in out
    ensures forall r :: r in out ==> exists i :: 0 <= i < |refs| && refs[i] == r && Kept(Values(refs), n, i)
  {
    var ms := Values(refs);
    hide Boundary, Leading, CutAt, KeptFrom;
    if Boundary(ms) == 0 {
      out := refs;
      hide Values;
      return;
    }
    var p, c := Leading(ms, Boundary(ms)), KeptFrom(ms, n);
    out := refs[..p] + refs[c..];
    TruncatedIsCut(ms, n);
    ValuesCut(refs, p, c);
    hide Truncated, Values;
    forall i | 0 <= i < |refs| && Kept(ms, n, i) ensures refs[i] in out {
      CutKeeps(refs, p, c, i);
    }
    forall r | r in out ensures exists i :: 0 <= i < |refs| && refs[i] == r && Kept(ms, n, i) {
      var i := CutComesFrom(refs, p, c, r);
      assert Kept(ms, n, i);
    }
  }

  lemma ValuesCut(refs: seq<MessageRef>, p: nat, c: nat)
    requires p <= c <= |refs|
    ensures |Values(refs)| == |refs| && Values(refs[..p] + refs[c..]) == Values(refs)[..p] + Values(refs)[c..]
  {
  }

  lemma TruncatedIsCut(ms: seq<Message>, n: int)
    requires Boundary(ms) > 0
    ensures Truncated(ms, n) == ms[..Leading(ms, Boundary(ms))] + ms[KeptFrom(ms, n)..]
  {
    hide Truncated, Boundary, Leading, CutAt;
    var p, c := Laws.TruncatedIsWithout(ms, n);
  }

  /** The copies of stage 3: a result over the cap is a new object. */
  method CopyOverCap(refs: seq<MessageRef>, cap: nat) returns (out: seq<MessageRef>)
    ensures Values(out) == CapAll(Values(refs), cap)
    ensures |out| == |refs|
    ensures forall i :: 0 <= i < |refs| ==> if OverCap(refs[i].value, cap) then fresh(out[i]) else out[i] == refs[i]
  {
    hide Marker;
    out := [];
    for i := 0 to |refs|
      invariant |out| == i
      invariant forall k :: 0 <= k < i ==> if OverCap(refs[k].value, cap) then fresh(out[k]) else out[k] == refs[k]
      invariant forall k :: 0 <= k < i ==> out[k].value == Capped(refs[k].value, cap)
    {
      var r := refs[i];
      if OverCap(r.value, cap) {
        r := new MessageRef(Capped(r.value, cap));
      }
      out := out + [r];
    }
  }

  ghost predicate Distinct(refs: seq<MessageRef>) {
    forall i, j :: 0 <= i < j < |refs| ==> refs[i] != refs[j]
  }

  /** The objects of what is sent: the caller's own at the reused positions, and copies. */
  method Assemble(refs: seq<MessageRef>, config: Config, iteration: int) returns (sent: seq<MessageRef>)
    ensures Values(sent) == Compressed(Values(refs), config, iteration, None)
    ensures forall i :: 0 <= i < |refs| && Reused(Values(refs), config, iteration, i) ==> refs[i] in sent
    ensures forall r :: r in sent ==> fresh(r) || IsReused(refs, config, iteration, r)
  {
    hide Kept, Truncated, CapAll, Stage1, Estimate;
    var s1 := Condense(refs, config, iteration);
    var s2 := DropTurns(s1, config.maxHistory);
    sent := CopyOverCap(s2, config.maxToolChars);
    StagesAre(Values(refs), config, iteration);
    forall i | 0 <= i < |refs| && Reused(Values(refs), config, iteration, i) ensures refs[i] in sent {
      var k :| 0 <= k < |s2| && s2[k] == s1[i];
      assert sent[k] == s2[k];
    }
    forall r | r in sent ensures fresh(r) || IsReused(refs, config, iteration, r) {
      var k :| 0 <= k < |sent| && sent[k] == r;
      assert s2[k] in s2;
      var i :| 0 <= i < |s1| && s1[i] == s2[k] && Kept(Values(s1), config.maxHistory, i);
      assert !fresh(r) ==> refs[i] == r && Reused(Values(refs), config, iteration, i);
    }
  }

  ghost predicate IsReused(refs: seq<MessageRef>, config: Config, iteration: int, r: MessageRef)
    reads refs
  {
    exists i :: 0 <= i < |refs| && refs[i] == r && Reused(Values(refs), config, iteration, i)
  }

  lemma StagesAre(ms: seq<Message>, config: Config, iteration: int)
    ensures BaseStages(ms, config, iteration)
         == CapAll(Truncated(Stage1(ms, config, iteration), config.maxHistory), config.maxToolChars)
  {
  }

  /** What reaches Anthropic, and what the caller is left with. */
  method SendToAnthropic(refs: seq<MessageRef>, config: Config, iteration: int) returns (sent: seq<MessageRef>)
    modifies refs
    ensures Values(sent) == CleanAll(Compressed(old(Values(refs)), config, iteration, None))
    ensures forall r :: r in refs ==> r.value == if r in sent then WithCleanIds(old(r.value)) else old(r.value)
    ensures Distinct(refs) ==> Values(refs) == CallerAfter(old(Values(refs)), config, iteration)
  {
    hide Compressed, WithCleanIds, Reused;
    ghost var ms := Values(refs);
    sent := Assemble(refs, config, iteration);
    ghost var payload := Values(sent);
    forall k | 0 <= k < |sent| ensures fresh(sent[k]) || sent[k] in refs {
      assert sent[k] in sent;
    }
    SanitizeToolIds(sent);
    assert Values(sent) == CleanAll(payload);
    if Distinct(refs) {
      forall i | 0 <= i < |refs|
        ensures refs[i].value == if Reused(ms, config, iteration, i) then WithCleanIds(ms[i]) else ms[i]
      {
        if refs[i] in sent {
          var k :| 0 <= k < |refs| && refs[k] == refs[i] && Reused(ms, config, iteration, k);
          assert k == i;
        }
      }
    }
  }
}
