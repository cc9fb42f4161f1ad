/** Laws of history truncation: when repeated passes compose, and when tool results keep their caller. */
module TruncationLaws {
  import opened Compressor
  import opened Messages

  /** Truncation removes one block between the system prefix and the boundary, cut at a turn start. */
  lemma TruncatedIsWithout(ms: seq<Message>, n: int) returns (p: nat, c: nat)
    requires Boundary(ms) > 0
    ensures p == Leading(ms, Boundary(ms)) && p <= c <= Boundary(ms) && SystemPrefix(ms, p)
    ensures c == p + CutAt(ms[p..Boundary(ms)], n)
    ensures Truncated(ms, n) == Without(ms, p, c)
    ensures Boundary(Truncated(ms, n)) == Boundary(ms) - (c - p)
  {
    hide CutAt, KeepLast, Flatten, Turns, Leading;
    var b := Boundary(ms);
    p := Leading(ms, b);
    LeadingFacts(ms, b);
    var h := ms[p..b];
    c := p + CutAt(h, n);
    KeptIsSuffix(h, n);
    assert h[CutAt(h, n)..] + ms[b..] == ms[c..];
    BoundaryStable(ms, p, c);
  }

  /** Truncating to n turns keeps the system prefix, the last n turns of the history or all of them if there are fewer,
      and the request. */
  lemma TruncatedKeepsLastTurns(ms: seq<Message>, n: int)
    requires Boundary(ms) > 0
    ensures var cut, p, b := Truncated(ms, n), Leading(ms, Boundary(ms)), Boundary(ms);
            var turns, b' := Turns(ms[p..b]), Boundary(cut);
            var m := if n <= 0 then 0 else if n <= |turns| then n else |turns|;
            && p <= b' <= |cut| && cut[..p] == ms[..p] && cut[b'..] == ms[b..]
            && Turns(cut[p..b']) == turns[|turns| - m..]
  {
    hide Turns, CutAt, Truncated, Boundary, Leading, Flatten;
    var b := Boundary(ms);
    var p, c := TruncatedIsWithout(ms, n);
    KeptIsSuffix(ms[p..b], n);
    hide Without;
    WithoutPieces(ms, p, c, b);
  }

  lemma WithoutPieces(ms: seq<Message>, p: nat, c: nat, b: nat)
    requires p <= c <= b <= |ms|
    ensures var cut := Without(ms, p, c);
            && |cut| == |ms| - (c - p) && cut[..p] == ms[..p] && cut[b - (c - p)..] == ms[b..]
            && cut[p..b - (c - p)] == ms[p..b][c - p..]
  {
  }

  // ----------------------------------------------------------- composition

  function Min(a: int, b: int): int { if a <= b then a else b }

  /** A system message that is not leading but begins a turn of the history. */
  predicate SystemStartsTurn(ms: seq<Message>) {
    exists i :: Leading(ms, Boundary(ms)) < i < Boundary(ms) && ms[i].System? && ms[i - 1].AI?
  }

  lemma KeepLastTwice(ts: seq<seq<Message>>, a: int, b: int)
    ensures KeepLast(KeepLast(ts, a), b) == KeepLast(ts, Min(a, b))
  {
  }

  lemma CutStart(h: seq<Message>, n: int)
    ensures 0 < CutAt(h, n) < |h| ==> h[CutAt(h, n) - 1].AI?
  {
    hide Turns, Start;
    if 0 < n < |Turns(h)| {
      TurnsFromStart(h, |Turns(h)| - n);
    }
  }

  /** Without such a message the prefix found in the truncated list is the original one. */
  lemma PrefixStable(ms: seq<Message>, a: int)
    requires Boundary(ms) > 0 && !SystemStartsTurn(ms)
    ensures Leading(Truncated(ms, a), Boundary(Truncated(ms, a))) == Leading(ms, Boundary(ms))
  {
    hide CutAt, Boundary, Truncated, Leading;
    var b := Boundary(ms);
    var p, c := TruncatedIsWithout(ms, a);
    var cut := Truncated(ms, a);
    LeadingFacts(ms, b);
    CutStart(ms[p..b], a);
    assert cut[..p] == ms[..p];
    if c < b {
      assert cut[p] == ms[c];
      if c > p { assert ms[p..b][c - p - 1] == ms[c - 1]; }
    }
    LeadingIs(cut, Boundary(cut), p);
  }

  /** Truncating to a turns and then to b turns is truncating once to min(a, b). */
  lemma TruncateComposes(ms: seq<Message>, a: int, b: int)
    requires !SystemStartsTurn(ms)
    ensures Truncated(Truncated(ms, a), b) == Truncated(ms, Min(a, b))
  {
    if Boundary(ms) > 0 {
      ComposeAtBoundary(ms, a, b);
    }
  }

  lemma ComposeAtBoundary(ms: seq<Message>, a: int, b: int)
    requires Boundary(ms) > 0 && !SystemStartsTurn(ms)
    ensures Truncated(Truncated(ms, a), b) == Truncated(ms, Min(a, b))
  {
    hide Boundary, Leading, CutAt, KeepLast, Flatten, Turns;
    var e := Boundary(ms);
    var p, c := TruncatedIsWithout(ms, a);
    var cut := Truncated(ms, a);
    var e' := Boundary(cut);
    PrefixStable(ms, a);
    var h := ms[p..e];
    KeptIsSuffix(h, a);
    KeepLastTwice(Turns(h), a, b);
    assert cut[..p] == ms[..p] && cut[e'..] == ms[e..];
    assert cut[p..e'] == ms[c..e] == h[CutAt(h, a)..];
    if e' == 0 {
      assert h[CutAt(h, a)..] == [];
      NothingKept(Turns(h), a, b);
    }
  }

  /** If the first pass kept no message at all, the smaller number of turns keeps none either. */
  lemma NothingKept(ts: seq<seq<Message>>, a: int, b: int)
    requires Flatten(KeepLast(ts, a)) == []
    ensures Flatten(KeepLast(ts, Min(a, b))) == []
  {
    if 0 < Min(a, b) {
      var s, t := KeepLast(ts, a), KeepLast(ts, Min(a, b));
      KeepLastTwice(ts, a, b);
      FlattenSuffix(s, |s| - |t|);
      assert t == s[|s| - |t|..];
    }
  }

  lemma {:induction false} FlattenSuffix(ts: seq<seq<Message>>, k: nat)
    requires Flatten(ts) == [] && k <= |ts|
    ensures Flatten(ts[k..]) == []
  {
    if k > 0 {
      FlattenSuffix(ts[1..], k - 1);
      assert ts[1..][k - 1..] == ts[k..];
    }
  }

  /** Every position right after an AI message of the history is where some number of turns cuts. */
  lemma TurnsToCutAt(ms: seq<Message>, i: nat) returns (n: int)
    requires Leading(ms, Boundary(ms)) < i < Boundary(ms) && ms[i - 1].AI?
    ensures n > 0
    ensures CutAt(ms[Leading(ms, Boundary(ms))..Boundary(ms)], n) == i - Leading(ms, Boundary(ms))
  {
    var q, e := Leading(ms, Boundary(ms)), Boundary(ms);
    hide Boundary, Leading;
    var h := ms[q..e];
    assert h[i - q - 1] == ms[i - 1];
    var k := AfterAIStartsTurn(h, i - q);
    n := |Turns(h)| - k;
  }

  /** Cutting at a system message that begins a turn: a second pass takes it for prefix and keeps it. */
  lemma SecondPassKeepsMore(ms: seq<Message>, a: int, i: nat)
    requires Boundary(ms) > 0
    requires Leading(ms, Boundary(ms)) < i < Boundary(ms) && ms[i].System?
    requires CutAt(ms[Leading(ms, Boundary(ms))..Boundary(ms)], a) == i - Leading(ms, Boundary(ms))
    ensures |Truncated(Truncated(ms, a), 0)| > |Truncated(ms, 0)|
  {
    var e := Boundary(ms);
    hide Boundary, Leading, Truncated, Without, Turns, Start;
    var p, c := TruncatedIsWithout(ms, a);
    var cut := Truncated(ms, a);
    WithoutParts(ms, p, c);
    var p1, c1 := TruncatedIsWithout(ms, 0);
    WithoutParts(ms, p1, c1);
    LeadingGrows(cut, Boundary(cut), p);
    var p2, c2 := TruncatedIsWithout(cut, 0);
    WithoutParts(cut, p2, c2);
  }

  lemma WithoutParts(ms: seq<Message>, p: nat, c: nat)
    requires p <= c <= |ms|
    ensures |Without(ms, p, c)| == |ms| - (c - p)
    ensures SystemPrefix(ms, p) ==> SystemPrefix(Without(ms, p, c), p)
    ensures c < |ms| ==> Without(ms, p, c)[p] == ms[c]
  {
  }

  /** Where such a message exists, two passes keep it and one pass does not. */
  lemma TruncateDoesNotCompose(ms: seq<Message>) returns (a: int)
    requires SystemStartsTurn(ms)
    ensures Truncated(Truncated(ms, a), 0) != Truncated(ms, Min(a, 0))
  {
    var i :| Leading(ms, Boundary(ms)) < i < Boundary(ms) && ms[i].System? && ms[i - 1].AI?;
    hide Boundary, Leading, Truncated, CutAt;
    a := TurnsToCutAt(ms, i);
    SecondPassKeepsMore(ms, a, i);
  }

  lemma LeadingGrows(ms: seq<Message>, b: nat, p: nat)
    requires p < b <= |ms| && SystemPrefix(ms, p) && ms[p].System?
    ensures Leading(ms, b) > p
  {
    LeadingFacts(ms, b);
  }

  /** Passes compose for every pair of turn counts if and only if no system message begins a turn of the history. */
  lemma TruncateComposesIff(ms: seq<Message>)
    ensures (forall a, b :: Truncated(Truncated(ms, a), b) == Truncated(ms, Min(a, b))) <==> !SystemStartsTurn(ms)
  {
    hide Truncated, SystemStartsTurn, Min;
    if SystemStartsTurn(ms) {
      var a := TruncateDoesNotCompose(ms);
    } else {
      forall a, b ensures Truncated(Truncated(ms, a), b) == Truncated(ms, Min(a, b)) {
        TruncateComposes(ms, a, b);
      }
    }
  }

  // --------------------------------------------------------------- pairing

  /** An AI message that made the call with this id. */
  predicate Calls(m: Message, id: string) {
    m.AI? && exists k :: 0 <= k < |m.calls| && m.calls[k].id == id
  }

  /** Message i made the call that tool message j answers, within one human request. */
  ghost predicate CalledBy(ms: seq<Message>, j: nat, i: nat)
    requires i < j < |ms| && ms[j].Tool?
  {
    && Calls(ms[i], ms[j].callId)
    && forall k :: i < k < j ==> !ms[k].Human?
  }

  ghost predicate Paired(ms: seq<Message>) {
    forall j: nat :: j < |ms| && ms[j].Tool? ==> exists i: nat :: i < j && CalledBy(ms, j, i)
  }

  ghost predicate NoToolBeforeBoundary(ms: seq<Message>) {
    forall j :: 0 <= j < Boundary(ms) ==> !ms[j].Tool?
  }

  lemma PairedWithout(ms: seq<Message>, p: nat, c: nat)
    requires Paired(ms) && NoToolBeforeBoundary(ms) && Boundary(ms) > 0
    requires p <= c <= Boundary(ms) && SystemPrefix(ms, p)
    ensures Paired(Without(ms, p, c))
  {
    BoundaryFacts(ms);
    hide Boundary;
    var cut, d, b := Without(ms, p, c), c - p, Boundary(ms);
    forall j: nat | j < |cut| && cut[j].Tool? ensures exists i: nat :: i < j && CalledBy(cut, j, i) {
      assert cut[j] == ms[j + d];
      var i: nat :| i < j + d && CalledBy(ms, j + d, i);
      assert i > b;
      assert cut[i - d] == ms[i];
      forall k | i - d < k < j ensures !cut[k].Human? { assert cut[k] == ms[k + d]; }
      assert CalledBy(cut, j, i - d);
    }
  }

  /** The last turn start at or before j, given an AI message somewhere before it. */
  lemma {:induction false} LastTurnStart(ms: seq<Message>, i: nat, j: nat) returns (s: nat)
    requires i < j < |ms| && ms[i].AI?
    ensures i < s <= j && ms[s - 1].AI?
    ensures forall k :: s <= k < j ==> !ms[k].AI?
    decreases j
  {
    if ms[j - 1].AI? {
      s := j;
    } else {
      s := LastTurnStart(ms, i, j - 1);
    }
  }

  /** A cut after the last AI message before a tool message leaves it without a caller. */
  lemma CutOrphansTool(ms: seq<Message>, p: nat, c: nat, j: nat)
    requires p <= c <= j < |ms| && SystemPrefix(ms, p) && ms[j].Tool?
    requires forall k :: c <= k < j ==> !ms[k].AI?
    ensures !Paired(Without(ms, p, c))
  {
    var cut, d := Without(ms, p, c), c - p;
    var t := j - d;
    assert cut[t] == ms[j];
    forall x: nat | x < t ensures !CalledBy(cut, t, x) {
      assert cut[x] == if x < p then ms[x] else ms[x + d];
    }
  }

  /** A tool message before the boundary is orphaned by some number of turns. */
  lemma ToolLosesCaller(ms: seq<Message>, j: nat) returns (n: int)
    requires Paired(ms) && j < Boundary(ms) && ms[j].Tool?
    ensures !Paired(Truncated(ms, n))
  {
    var b := Boundary(ms);
    var q := Leading(ms, b);
    LeadingFacts(ms, b);
    var i: nat :| i < j && CalledBy(ms, j, i);
    assert ms[i].AI?;
    hide Boundary, Leading, Paired, Truncated;
    assert q <= i;
    var s := LastTurnStart(ms, i, j);
    n := TurnsToCutAt(ms, s);
    var p, c := TruncatedIsWithout(ms, n);
    CutOrphansTool(ms, p, c, j);
  }

  /** Truncation keeps every tool message with its caller, whatever the turn count, if and only if no tool
      message precedes the boundary. */
  lemma TruncateKeepsPairingIff(ms: seq<Message>)
    requires Paired(ms)
    ensures (forall n :: Paired(Truncated(ms, n))) <==> NoToolBeforeBoundary(ms)
  {
    if NoToolBeforeBoundary(ms) {
      hide Paired;
      forall n ensures Paired(Truncated(ms, n)) {
        if Boundary(ms) > 0 {
          var p, c := TruncatedIsWithout(ms, n);
          PairedWithout(ms, p, c);
        }
      }
    } else {
      var j :| 0 <= j < Boundary(ms) && ms[j].Tool?;
      hide Paired, Truncated;
      var n := ToolLosesCaller(ms, j);
    }
  }
}
