/**
 The message compressor: locate the current request, drop whole turns of older
 history, and cap tool results, in up to three passes.
 */
module Compressor {
  import opened Messages

  // ------------------------------------------------------- request boundary

  /** The last human message before position n, or -1. */
  function LastHuman(ms: seq<Message>, n: nat): (k: int)
    requires n <= |ms|
    ensures -1 <= k < n
  {
    if n == 0 then -1 else if ms[n - 1].Human? then n - 1 else LastHuman(ms, n - 1)
  }

  predicate ToolAfter(ms: seq<Message>, i: int) {
    exists j :: 0 <= j < |ms| && i < j && ms[j].Tool?
  }

  function Boundary(ms: seq<Message>): (b: nat)
    ensures b <= |ms|
  {
    var last := LastHuman(ms, |ms|);
    if last <= 0 then 0
    else if ToolAfter(ms, last) then last
    else
      var prev := LastHuman(ms, last);
      if prev >= 0 && ToolAfter(ms, prev) then prev else last
  }

  lemma {:induction false} LastHumanIs(ms: seq<Message>, n: nat, k: int)
    requires n <= |ms| && -1 <= k < n
    requires k >= 0 ==> ms[k].Human?
    requires forall i :: 0 <= i < n && k < i ==> !ms[i].Human?
    ensures LastHuman(ms, n) == k
  {
    if n > 0 && k < n - 1 {
      LastHumanIs(ms, n - 1, k);
    }
  }

  lemma {:induction false} LastHumanFacts(ms: seq<Message>, n: nat)
    requires n <= |ms|
    ensures LastHuman(ms, n) >= 0 ==> ms[LastHuman(ms, n)].Human?
    ensures forall i :: 0 <= i < n && LastHuman(ms, n) < i ==> !ms[i].Human?
  {
    if n > 0 && !ms[n - 1].Human? {
      LastHumanFacts(ms, n - 1);
    }
  }

  lemma BoundaryFacts(ms: seq<Message>)
    ensures ms != [] ==> Boundary(ms) < |ms|
    ensures Boundary(ms) > 0 ==> ms[Boundary(ms)].Human?
  {
    var last := LastHuman(ms, |ms|);
    LastHumanFacts(ms, |ms|);
    if last > 0 {
      LastHumanFacts(ms, last);
    }
  }

  /** The last human message before position n stands at k. */
  ghost predicate LastHumanAt(ms: seq<Message>, n: nat, k: nat)
    requires n <= |ms|
  {
    k < n && ms[k].Human? && forall i :: k < i < n ==> !ms[i].Human?
  }

  ghost predicate HasToolAfter(ms: seq<Message>, k: nat) {
    exists t :: k < t < |ms| && ms[t].Tool?
  }

  /**
   Where the current request begins.  Without a human message after the first
   position, at 0.  Otherwise at the last human message, unless no tool message
   follows it and one follows the human message before it: then at that one.
   */
  lemma BoundaryIs(ms: seq<Message>)
    ensures (forall l: nat :: 0 < l < |ms| ==> !ms[l].Human?) ==> Boundary(ms) == 0
    ensures forall l: nat :: 0 < l && LastHumanAt(ms, |ms|, l) ==>
              && (HasToolAfter(ms, l) ==> Boundary(ms) == l)
              && (!HasToolAfter(ms, l) && (forall k: nat :: LastHumanAt(ms, l, k) ==> !HasToolAfter(ms, k))
                  ==> Boundary(ms) == l)
              && (forall k: nat :: !HasToolAfter(ms, l) && LastHumanAt(ms, l, k) && HasToolAfter(ms, k)
                                   ==> Boundary(ms) == k)
  {
    LastHumanFacts(ms, |ms|);
    hide LastHuman;
    forall l: nat | 0 < l && LastHumanAt(ms, |ms|, l)
      ensures HasToolAfter(ms, l) ==> Boundary(ms) == l
      ensures !HasToolAfter(ms, l) && (forall k: nat :: LastHumanAt(ms, l, k) ==> !HasToolAfter(ms, k))
              ==> Boundary(ms) == l
      ensures forall k: nat ::
                !HasToolAfter(ms, l) && LastHumanAt(ms, l, k) && HasToolAfter(ms, k) ==> Boundary(ms) == k
    {
      LastHumanIs(ms, |ms|, l);
      LastHumanFacts(ms, l);
      var prev := LastHuman(ms, l);
      if prev >= 0 {
        assert LastHumanAt(ms, l, prev);
      }
    }
  }

  /** A tool message of some human request, followed by exactly one more human message and no tool message after that,
      is still in the current request. */
  lemma ToolIsInRequest(ms: seq<Message>, q: nat, t: nat, h: nat)
    requires q < t < h < |ms| && ms[q].Human? && ms[t].Tool? && LastHumanAt(ms, |ms|, h) && !HasToolAfter(ms, h)
    requires forall i :: t < i < h ==> !ms[i].Human?
    ensures Boundary(ms) <= t
  {
    BoundaryIs(ms);
    LastHumanFacts(ms, h);
    hide Boundary, LastHuman;
    var k := LastHuman(ms, h);
    assert q <= k;
    if k >= 0 {
      assert k < t && LastHumanAt(ms, h, k) && HasToolAfter(ms, k);
    }
  }

  /** One pass collects the positions of human and tool messages; the rest looks only at those. */
  method CollectIndices(ms: seq<Message>) returns (humans: seq<nat>, tools: seq<nat>)
    ensures forall k :: 0 <= k < |humans| ==> humans[k] < |ms| && ms[humans[k]].Human?
    ensures forall k, l :: 0 <= k < l < |humans| ==> humans[k] < humans[l]
    ensures forall j :: 0 <= j < |ms| && ms[j].Human? ==> j in humans
    ensures forall k :: 0 <= k < |tools| ==> tools[k] < |ms| && ms[tools[k]].Tool?
    ensures forall j :: 0 <= j < |ms| && ms[j].Tool? ==> j in tools
  {
    humans, tools := [], [];
    for i := 0 to |ms|
      invariant forall k :: 0 <= k < |humans| ==> humans[k] < i && ms[humans[k]].Human?
      invariant forall k, l :: 0 <= k < l < |humans| ==> humans[k] < humans[l]
      invariant forall j :: 0 <= j < i && ms[j].Human? ==> j in humans
      invariant forall k :: 0 <= k < |tools| ==> tools[k] < i && ms[tools[k]].Tool?
      invariant forall j :: 0 <= j < i && ms[j].Tool? ==> j in tools
    {
      if ms[i].Human? {
        humans := humans + [i];
      } else if ms[i].Tool? {
        tools := tools + [i];
      }
    }
  }

  method FindLoopBoundary(ms: seq<Message>) returns (b: nat)
    ensures b == Boundary(ms)
  {
    var humans, tools := CollectIndices(ms);
    hide LastHuman;
    if humans == [] {
      LastHumanIs(ms, |ms|, -1);
      return 0;
    }
    var n := |humans|;
    var last := humans[n - 1];
    LastHumanIs(ms, |ms|, last);
    if last <= 0 { return 0; }
    var toolAfter := exists t :: t in tools && t > last;
    assert toolAfter == ToolAfter(ms, last);
    if toolAfter { return last; }
    if n >= 2 {
      var prev := humans[n - 2];
      LastHumanIs(ms, last, prev);
      var hasTool := exists t :: t in tools && t > prev;
      assert hasTool == ToolAfter(ms, prev);
      if hasTool { return prev; }
    } else {
      LastHumanIs(ms, last, -1);
    }
    return last;
  }

  /** The list without the block [p, c). */
  function Without(ms: seq<Message>, p: nat, c: nat): seq<Message>
    requires p <= c <= |ms|
  {
    ms[..p] + ms[c..]
  }

  ghost predicate SystemPrefix(ms: seq<Message>, p: nat)
    requires p <= |ms|
  {
    forall i :: 0 <= i < p ==> ms[i].System?
  }

  lemma WithoutLength(ms: seq<Message>, p: nat, c: nat)
    requires p <= c <= |ms|
    ensures |Without(ms, p, c)| == |ms| - (c - p)
  {
  }

  lemma WithoutLastHuman(ms: seq<Message>, p: nat, c: nat, n: nat)
    requires p <= c <= n <= |ms| && SystemPrefix(ms, p)
    ensures |Without(ms, p, c)| == |ms| - (c - p)
    ensures LastHuman(Without(ms, p, c), n - (c - p))
         == if LastHuman(ms, n) >= c then LastHuman(ms, n) - (c - p) else -1
  {
    var cut, d := Without(ms, p, c), c - p;
    var k := LastHuman(ms, n);
    LastHumanFacts(ms, n);
    hide LastHuman;
    WithoutAt(ms, p, c);
    hide Without;
    LastHumanIs(cut, n - d, if k >= c then k - d else -1);
  }

  lemma WithoutAt(ms: seq<Message>, p: nat, c: nat)
    requires p <= c <= |ms|
    ensures |Without(ms, p, c)| == |ms| - (c - p)
    ensures forall i :: 0 <= i < |ms| - (c - p) ==> Without(ms, p, c)[i] == if i < p then ms[i] else ms[i + (c - p)]
  {
  }

  lemma WithoutToolAfter(ms: seq<Message>, p: nat, c: nat, i: int)
    requires p <= c <= i < |ms|
    ensures ToolAfter(Without(ms, p, c), i - (c - p)) <==> ToolAfter(ms, i)
  {
    var cut, d := Without(ms, p, c), c - p;
    if ToolAfter(ms, i) {
      var j :| 0 <= j < |ms| && i < j && ms[j].Tool?;
      assert cut[j - d].Tool?;
    }
    if ToolAfter(cut, i - d) {
      var j :| 0 <= j < |cut| && i - d < j && cut[j].Tool?;
      assert ms[j + d].Tool?;
    }
  }

  /** Dropping history between the system prefix and the boundary leaves the boundary on the same message. */
  lemma BoundaryStable(ms: seq<Message>, p: nat, c: nat)
    requires 0 < Boundary(ms) && p <= c <= Boundary(ms) && SystemPrefix(ms, p)
    ensures Boundary(ms) < |ms|
    ensures Boundary(Without(ms, p, c)) == Boundary(ms) - (c - p)
  {
    BoundaryFacts(ms);
    hide LastHuman, ToolAfter, Without;
    var last := LastHuman(ms, |ms|);
    LastHumanFacts(ms, |ms|);
    LastHumanFacts(ms, last);
    WithoutLength(ms, p, c);
    WithoutLastHuman(ms, p, c, |ms|);
    WithoutLastHuman(ms, p, c, last);
    WithoutToolAfter(ms, p, c, last);
    var prev := LastHuman(ms, last);
    if prev >= c {
      WithoutToolAfter(ms, p, c, prev);
    }
  }

  // ----------------------------------------------------------------- turns

  /** History grouped into turns, each closed by an AI message; the last may be open. */
  function Turns(h: seq<Message>): seq<seq<Message>> {
    if h == [] then []
    else
      var rest := Turns(h[1..]);
      if h[0].AI? || rest == [] then [[h[0]]] + rest
      else [[h[0]] + rest[0]] + rest[1..]
  }

  function Flatten(ts: seq<seq<Message>>): seq<Message> {
    if ts == [] then [] else ts[0] + Flatten(ts[1..])
  }

  function KeepLast(ts: seq<seq<Message>>, n: int): seq<seq<Message>> {
    if n <= 0 then [] else if n >= |ts| then ts else ts[|ts| - n..]
  }

  ghost predicate NoAI(h: seq<Message>) {
    forall i :: 0 <= i < |h| ==> !h[i].AI?
  }

  /** A message that closes no turn joins the turn after it. */
  lemma TurnsJoin(h: seq<Message>)
    requires |h| > 1 && !h[0].AI? && Turns(h[1..]) != []
    ensures Turns(h) == [[h[0]] + Turns(h[1..])[0]] + Turns(h[1..])[1..]
  {
  }

  lemma OneTurn(m: Message, t: seq<Message>)
    requires m.AI? || t == []
    ensures Turns([m] + t) == [[m]] + Turns(t)
  {
    assert ([m] + t)[1..] == t;
  }

  /** The first turn is the shortest prefix ending in an AI message, or everything. */
  lemma {:induction false} FirstTurn(h: seq<Message>)
    requires h != []
    ensures Turns(h) != []
    ensures var f := |Turns(h)[0]|;
            && 0 < f <= |h| && Turns(h)[0] == h[..f] && Turns(h)[1..] == Turns(h[f..])
            && NoAI(h[..f - 1]) && (f < |h| ==> h[f - 1].AI?)
  {
    hide Turns;
    var t := h[1..];
    assert h == [h[0]] + t;
    if h[0].AI? || t == [] {
      OneTurn(h[0], t);
    } else {
      FirstTurn(t);
      TurnsJoin(h);
      var g := |Turns(t)[0]|;
      assert Turns(h)[0] == [h[0]] + t[..g] == h[..g + 1];
      assert t[g..] == h[g + 1..];
      assert h[..g] == [h[0]] + t[..g - 1];
    }
  }

  lemma {:induction false} FlattenTurns(h: seq<Message>)
    ensures Flatten(Turns(h)) == h
    decreases |h|
  {
    if h == [] {
      NoTurns();
    } else {
      FirstTurn(h);
      hide Turns, NoAI;
      var f := |Turns(h)[0]|;
      FlattenTurns(h[f..]);
      assert h == h[..f] + h[f..];
    }
  }

  /** The position in h where turn k begins. */
  function Start(h: seq<Message>, k: nat): (i: nat)
    requires k < |Turns(h)|
    ensures i < |h|
    decreases k
  {
    assert h != [];
    FirstTurn(h);
    var f := |Turns(h)[0]|;
    if k == 0 then 0 else f + Start(h[f..], k - 1)
  }

  lemma FirstStart(h: seq<Message>)
    requires Turns(h) != []
    ensures Start(h, 0) == 0
  {
  }

  lemma NextStart(h: seq<Message>, k: nat)
    requires 0 < k < |Turns(h)|
    ensures var f := |Turns(h)[0]|;
            h != [] && 0 < f <= |h| && k - 1 < |Turns(h[f..])| && Start(h, k) == f + Start(h[f..], k - 1)
  {
    assert h != [];
    FirstTurn(h);
    hide Turns, NoAI;
    assert |Turns(h)[1..]| == |Turns(h)| - 1;
  }

  lemma TailOfTail<T>(s: seq<T>, f: nat, i: nat)
    requires f + i <= |s|
    ensures s[f..][i..] == s[f + i..]
    ensures i > 0 ==> s[f..][i - 1] == s[f + i - 1]
  {
  }

  /** Cutting at a turn start regroups into exactly the remaining turns. */
  lemma {:induction false} TurnsFromStart(h: seq<Message>, k: nat)
    requires k < |Turns(h)|
    ensures Turns(h[Start(h, k)..]) == Turns(h)[k..]
    ensures k > 0 ==> Start(h, k) > 0 && h[Start(h, k) - 1].AI?
    decreases k
  {
    hide Turns, NoAI, Start;
    if k == 0 {
      FirstStart(h);
      assert h[0..] == h && Turns(h)[0..] == Turns(h);
    } else {
      NextStart(h, k);
      FirstTurn(h);
      var f := |Turns(h)[0]|;
      var t := h[f..];
      TurnsFromStart(t, k - 1);
      if k == 1 { FirstStart(t); }
      TailOfTail(h, f, Start(t, k - 1));
      TailOfTail(Turns(h), 1, k - 1);
    }
  }

  lemma BeforeFirstAI(h: seq<Message>, f: nat, i: nat)
    requires 0 < f <= |h| && NoAI(h[..f - 1]) && i < |h| && h[i].AI?
    ensures f - 1 <= i
  {
  }

  /** Conversely, every message right after an AI message begins a turn. */
  lemma {:induction false} AfterAIStartsTurn(h: seq<Message>, i: nat) returns (k: nat)
    requires 0 < i < |h| && h[i - 1].AI?
    ensures 0 < k < |Turns(h)| && Start(h, k) == i
    decreases |h|
  {
    FirstTurn(h);
    var f := |Turns(h)[0]|;
    hide Turns, Start;
    assert f <= i by { BeforeFirstAI(h, f, i - 1); }
    hide NoAI;
    if i == f {
      FirstTurn(h[f..]);
      FirstStart(h[f..]);
      k := 1;
    } else {
      assert h[f..][i - f - 1] == h[i - 1];
      var k' := AfterAIStartsTurn(h[f..], i - f);
      k := k' + 1;
    }
    assert |Turns(h)| == 1 + |Turns(h[f..])|;
    NextStart(h, k);
  }

  /** Where the kept history begins. */
  function CutAt(h: seq<Message>, n: int): (c: nat)
    ensures c <= |h|
  {
    if n <= 0 then |h|
    else if n >= |Turns(h)| then 0
    else Start(h, |Turns(h)| - n)
  }

  lemma NoTurns()
    ensures Turns([]) == [] && Flatten([]) == []
  {
  }

  lemma KeptIsSuffix(h: seq<Message>, n: int)
    ensures Flatten(KeepLast(Turns(h), n)) == h[CutAt(h, n)..]
    ensures Turns(h[CutAt(h, n)..]) == KeepLast(Turns(h), n)
  {
    hide Turns, Flatten, Start;
    NoTurns();
    if n <= 0 {
      assert h[|h|..] == [];
    } else if n >= |Turns(h)| {
      FlattenTurns(h);
      assert h[0..] == h;
    } else {
      var k := |Turns(h)| - n;
      TurnsFromStart(h, k);
      FlattenTurns(h[Start(h, k)..]);
    }
  }

  // ------------------------------------------------------------ truncation

  /** How many system messages lead the list, looking no further than position b. */
  function Leading(ms: seq<Message>, b: nat): (p: nat)
    requires b <= |ms|
    ensures p <= b
  {
    if b == 0 || !ms[0].System? then 0 else 1 + Leading(ms[1..], b - 1)
  }

  lemma {:induction false} LeadingFacts(ms: seq<Message>, b: nat)
    requires b <= |ms|
    ensures SystemPrefix(ms, Leading(ms, b))
    ensures Leading(ms, b) < b ==> !ms[Leading(ms, b)].System?
  {
    if b > 0 && ms[0].System? {
      LeadingFacts(ms[1..], b - 1);
      var q := Leading(ms[1..], b - 1);
      forall i | 0 <= i < q + 1 ensures ms[i].System? {
        if i > 0 { assert ms[i] == ms[1..][i - 1]; }
      }
    }
  }

  lemma {:induction false} LeadingIs(ms: seq<Message>, b: nat, p: nat)
    requires p <= b <= |ms| && SystemPrefix(ms, p)
    requires p < b ==> !ms[p].System?
    ensures Leading(ms, b) == p
  {
    if p > 0 {
      LeadingIs(ms[1..], b - 1, p - 1);
    }
  }

  function Truncated(ms: seq<Message>, n: int): seq<Message> {
    var b := Boundary(ms);
    if b == 0 then ms
    else
      var p := Leading(ms, b);
      ms[..p] + Flatten(KeepLast(Turns(ms[p..b]), n)) + ms[b..]
  }

  method CollectPrefix(ms: seq<Message>, boundary: nat) returns (prefix: seq<Message>)
    requires boundary <= |ms|
    ensures prefix == ms[..Leading(ms, boundary)]
  {
    var idx := 0;
    prefix := [];
    assert ms[0..] == ms;
    while idx < boundary && ms[idx].System?
      invariant 0 <= idx <= boundary && prefix == ms[..idx]
      invariant Leading(ms, boundary) == idx + Leading(ms[idx..], boundary - idx)
    {
      assert ms[idx..][1..] == ms[idx + 1..];
      prefix := prefix + [ms[idx]];
      idx := idx + 1;
    }
  }

  lemma MoveOne(current: seq<Message>, history: seq<Message>, i: nat)
    requires i < |history|
    ensures current + history[i..] == (current + [history[i]]) + history[i + 1..]
  {
  }

  lemma Regroup(turns: seq<seq<Message>>, current: seq<Message>, rest: seq<seq<Message>>)
    ensures turns + ([current] + rest) == (turns + [current]) + rest
  {
  }

  lemma EmptyHasNoAI()
    ensures NoAI([])
  {
  }

  lemma OneMoreNoAI(current: seq<Message>, m: Message)
    requires NoAI(current)
    ensures !m.AI? ==> NoAI(current + [m])
  {
  }

  method GroupTurns(history: seq<Message>) returns (turns: seq<seq<Message>>)
    ensures turns == Turns(history)
  {
    turns := [];
    var current: seq<Message> := [];
    hide Turns, NoAI;
    NoTurns();
    assert [] + history[0..] == history;
    assert NoAI(current) by { EmptyHasNoAI(); }
    for i := 0 to |history|
      invariant NoAI(current)
      invariant turns + Turns(current + history[i..]) == Turns(history)
    {
      MoveOne(current, history, i);
      OneMoreNoAI(current, history[i]);
      current := current + [history[i]];
      if history[i].AI? {
        ClosedTurn(current, history[i + 1..]);
        Regroup(turns, current, Turns(history[i + 1..]));
        turns := turns + [current];
        current := [];
        EmptyHasNoAI();
        assert [] + history[i + 1..] == history[i + 1..];
      }
    }
    assert current + history[|history|..] == current;
    if current != [] {
      OpenTurn(current);
      turns := turns + [current];
    }
  }

  method JoinTurns(turns: seq<seq<Message>>) returns (joined: seq<Message>)
    ensures joined == Flatten(turns)
  {
    joined := [];
    for i := 0 to |turns|
      invariant joined + Flatten(turns[i..]) == Flatten(turns)
    {
      assert turns[i..][1..] == turns[i + 1..];
      joined := joined + turns[i];
    }
  }

  method TruncateHistory(ms: seq<Message>, maxTurns: int) returns (result: seq<Message>)
    ensures result == Truncated(ms, maxTurns)
  {
    var boundary := FindLoopBoundary(ms);
    if boundary <= 0 { return ms; }
    var prefix := CollectPrefix(ms, boundary);
    var history := ms[|prefix|..boundary];
    var turns := GroupTurns(history);
    var keptHistory := JoinTurns(KeepLast(turns, maxTurns));
    result := prefix + keptHistory + ms[boundary..];
  }

  lemma {:induction false} ClosedTurn(turn: seq<Message>, rest: seq<Message>)
    requires turn != [] && NoAI(turn[..|turn| - 1]) && turn[|turn| - 1].AI?
    ensures Turns(turn + rest) == [turn] + Turns(rest)
  {
    if |turn| == 1 {
      assert (turn + rest)[1..] == rest;
      assert [turn[0]] == turn;
    } else {
      var tail := turn[1..];
      assert (turn + rest)[1..] == tail + rest;
      assert turn[0] == turn[..|turn| - 1][0];
      forall i | 0 <= i < |tail| - 1 ensures !tail[i].AI? {
        assert tail[i] == turn[..|turn| - 1][i + 1];
      }
      ClosedTurn(tail, rest);
      assert [turn[0]] + tail == turn;
    }
  }

  lemma {:induction false} OpenTurn(turn: seq<Message>)
    requires turn != [] && NoAI(turn)
    ensures Turns(turn) == [turn]
  {
    if |turn| == 1 {
      assert [turn[0]] == turn;
    } else {
      OpenTurn(turn[1..]);
      assert [turn[0]] + turn[1..] == turn;
    }
  }
}
