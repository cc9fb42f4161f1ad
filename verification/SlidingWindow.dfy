/**
 One sliding-window ledger: a log of (timestamp, amount) entries beside a
 running total.  The fast form pops expired entries off the front and adjusts
 the total; the slow form re-sums the whole append history.  This module proves
 when the two agree.
 */
module SlidingWindow {

  datatype Entry = Entry(at: real, amount: int)

  datatype Window = Window(log: seq<Entry>, total: int)

  const EMPTY := Window([], 0)

  function Sum(log: seq<Entry>): int {
    if log == [] then 0 else log[0].amount + Sum(log[1..])
  }

  /** The slow reference: every entry no older than the cutoff, in order. */
  function Live(log: seq<Entry>, cutoff: real): seq<Entry> {
    if log == [] then []
    else (if log[0].at >= cutoff then [log[0]] else []) + Live(log[1..], cutoff)
  }

  /** The fast form: pop from the front while the head is expired. */
  function Pruned(log: seq<Entry>, cutoff: real): seq<Entry> {
    if log != [] && log[0].at < cutoff then Pruned(log[1..], cutoff) else log
  }

  function Settle(w: Window, cutoff: real): Window {
    var rest := Pruned(w.log, cutoff);
    Window(rest, w.total - (Sum(w.log) - Sum(rest)))
  }

  function Post(w: Window, at: real, amount: int): Window {
    Window(w.log + [Entry(at, amount)], w.total + amount)
  }

  ghost predicate Ordered(log: seq<Entry>) {
    forall i, j :: 0 <= i < j < |log| ==> log[i].at <= log[j].at
  }

  /** An entry that has expired but sits behind one that has not. */
  ghost predicate Blocked(log: seq<Entry>, cutoff: real) {
    exists i, j :: 0 <= i < j < |log| && log[i].at >= cutoff && log[j].at < cutoff
  }

  /**
   The pruning loop.  The caller stores the popped log and the new total back,
   so both are results here.
   */
  method WindowTotal(log: seq<Entry>, windowSeconds: real, now: real, runningTotal: int)
    returns (rest: seq<Entry>, total: int, expired: int)
    ensures Window(rest, total) == Settle(Window(log, runningTotal), now - windowSeconds)
    ensures expired == Sum(log) - Sum(rest)
  {
    var cutoff := now - windowSeconds;
    expired := 0;
    rest := log;
    while rest != [] && rest[0].at < cutoff
      invariant Pruned(rest, cutoff) == Pruned(log, cutoff)
      invariant expired == Sum(log) - Sum(rest)
      decreases |rest|
    {
      var count := rest[0].amount;
      rest := rest[1..];
      expired := expired + count;
    }
    total := runningTotal - expired;
  }

  // ---------------------------------------------------------------- sums

  lemma {:induction false} SumConcat(a: seq<Entry>, b: seq<Entry>)
    ensures Sum(a + b) == Sum(a) + Sum(b)
  {
    if a == [] {
      assert a + b == b;
    } else {
      assert (a + b)[1..] == a[1..] + b;
      SumConcat(a[1..], b);
    }
  }

  lemma {:induction false} LiveConcat(a: seq<Entry>, b: seq<Entry>, cutoff: real)
    ensures Live(a + b, cutoff) == Live(a, cutoff) + Live(b, cutoff)
  {
    if a == [] {
      assert a + b == b;
    } else {
      assert (a + b)[1..] == a[1..] + b;
      LiveConcat(a[1..], b, cutoff);
      var head := if a[0].at >= cutoff then [a[0]] else [];
      assert Live(a + b, cutoff) == head + Live((a + b)[1..], cutoff);
      hide Live;
      assert head + (Live(a[1..], cutoff) + Live(b, cutoff)) == (head + Live(a[1..], cutoff)) + Live(b, cutoff);
    }
  }

  lemma {:induction false} LivePost(log: seq<Entry>, e: Entry, cutoff: real)
    ensures Sum(Live(log + [e], cutoff)) == Sum(Live(log, cutoff)) + (if e.at >= cutoff then e.amount else 0)
  {
    LiveConcat(log, [e], cutoff);
    assert Live([e], cutoff) == if e.at >= cutoff then [e] else [];
    SumConcat(Live(log, cutoff), Live([e], cutoff));
  }

  lemma {:induction false} AllLive(log: seq<Entry>, cutoff: real)
    requires forall i :: 0 <= i < |log| ==> log[i].at >= cutoff
    ensures Live(log, cutoff) == log
  {
    if log != [] {
      AllLive(log[1..], cutoff);
    }
  }

  lemma {:induction false} NoneLive(log: seq<Entry>, cutoff: real)
    requires forall i :: 0 <= i < |log| ==> log[i].at < cutoff
    ensures Live(log, cutoff) == []
  {
    if log != [] {
      NoneLive(log[1..], cutoff);
    }
  }

  lemma {:induction false} LiveBounds(log: seq<Entry>, cutoff: real)
    ensures |Live(log, cutoff)| <= |log|
    ensures forall i :: 0 <= i < |Live(log, cutoff)| ==> Live(log, cutoff)[i].at >= cutoff
  {
    if log != [] {
      LiveBounds(log[1..], cutoff);
    }
  }

  /** What pruning leaves is a suffix; everything dropped had expired. */
  lemma {:induction false} PrunedIsSuffix(log: seq<Entry>, cutoff: real)
    ensures |Pruned(log, cutoff)| <= |log|
    ensures Pruned(log, cutoff) == log[|log| - |Pruned(log, cutoff)|..]
    ensures forall i :: 0 <= i < |log| - |Pruned(log, cutoff)| ==> log[i].at < cutoff
    ensures Pruned(log, cutoff) != [] ==> Pruned(log, cutoff)[0].at >= cutoff
  {
    if log != [] && log[0].at < cutoff {
      PrunedIsSuffix(log[1..], cutoff);
      var rest := Pruned(log, cutoff);
      assert log[|log| - |rest|..] == log[1..][|log[1..]| - |rest|..];
      forall i | 0 <= i < |log| - |rest| ensures log[i].at < cutoff {
        if i > 0 { assert log[i] == log[1..][i - 1]; }
      }
    }
  }

  // ------------------------------------------------- fast against slow form

  /**
   Popping only from the front finds exactly the live entries if and only if
   no expired entry is stuck behind a live one.
   */
  lemma {:induction false} PrunedIsLiveIff(log: seq<Entry>, cutoff: real)
    ensures Pruned(log, cutoff) == Live(log, cutoff) <==> !Blocked(log, cutoff)
  {
    hide Live, Pruned, Blocked;
    var rest := Pruned(log, cutoff);
    LiveAfterPrune(log, cutoff);
    if Blocked(log, cutoff) {
      var k := StuckInRest(log, cutoff);
      LiveBounds(rest, cutoff);
    } else {
      NoneStuck(log, cutoff);
      AllLive(rest, cutoff);
    }
  }

  /** What pruning drops was not live. */
  lemma LiveAfterPrune(log: seq<Entry>, cutoff: real)
    ensures Live(log, cutoff) == Live(Pruned(log, cutoff), cutoff)
  {
    hide Live, Pruned;
    var rest := Pruned(log, cutoff);
    PrunedIsSuffix(log, cutoff);
    var gone := log[..|log| - |rest|];
    assert log == gone + rest;
    LiveConcat(gone, rest, cutoff);
    NoneLive(gone, cutoff);
    assert [] + Live(rest, cutoff) == Live(rest, cutoff);
  }

  lemma StuckInRest(log: seq<Entry>, cutoff: real) returns (k: nat)
    requires Blocked(log, cutoff)
    ensures k < |Pruned(log, cutoff)| && Pruned(log, cutoff)[k].at < cutoff
  {
    hide Pruned;
    PrunedIsSuffix(log, cutoff);
    var rest, dropped := Pruned(log, cutoff), |log| - |Pruned(log, cutoff)|;
    var i, j :| 0 <= i < j < |log| && log[i].at >= cutoff && log[j].at < cutoff;
    assert dropped <= i;
    k := j - dropped;
    assert log[dropped..][k] == log[j];
  }

  lemma NoneStuck(log: seq<Entry>, cutoff: real)
    requires !Blocked(log, cutoff)
    ensures forall k :: 0 <= k < |Pruned(log, cutoff)| ==> Pruned(log, cutoff)[k].at >= cutoff
  {
    hide Pruned;
    PrunedIsSuffix(log, cutoff);
    var rest, dropped := Pruned(log, cutoff), |log| - |Pruned(log, cutoff)|;
    forall k | 0 <= k < |rest| ensures rest[k].at >= cutoff {
      assert rest[k] == log[dropped + k] && rest[0] == log[dropped];
    }
  }

  /**
   The window stands for the append history up to a cutoff: its log is the tail
   of the history, what is missing had expired, and the running total is the
   sum of the log.  No timestamp order is assumed.
   */
  ghost predicate Refines(w: Window, history: seq<Entry>, cutoff: real) {
    && w.total == Sum(w.log)
    && |w.log| <= |history|
    && w.log == history[|history| - |w.log|..]
    && forall i :: 0 <= i < |history| - |w.log| ==> history[i].at < cutoff
  }

  lemma RefinesPost(w: Window, history: seq<Entry>, cutoff: real, at: real, amount: int)
    requires Refines(w, history, cutoff)
    ensures Refines(Post(w, at, amount), history + [Entry(at, amount)], cutoff)
  {
    SumConcat(w.log, [Entry(at, amount)]);
  }

  lemma RefinesLater(w: Window, history: seq<Entry>, cutoff: real, later: real)
    requires Refines(w, history, cutoff) && cutoff <= later
    ensures Refines(w, history, later)
  {
  }

  lemma RefinesSettle(w: Window, history: seq<Entry>, cutoff: real, later: real)
    requires Refines(w, history, cutoff)
    requires cutoff <= later
    ensures Refines(Settle(w, later), history, later)
  {
    PrunedIsSuffix(w.log, later);
    var rest := Pruned(w.log, later);
    var skipped := |history| - |w.log|;
    assert rest == history[|history| - |rest|..];
    forall i | 0 <= i < |history| - |rest| ensures history[i].at < later {
      if i >= skipped { assert history[i] == w.log[i - skipped]; }
    }
  }

  /** Pruning at a cutoff that has already been passed, as by a reader who read the clock before someone else. */
  lemma RefinesSettleEarlier(w: Window, history: seq<Entry>, cutoff: real, earlier: real)
    requires Refines(w, history, cutoff)
    requires earlier <= cutoff
    ensures Refines(Settle(w, earlier), history, cutoff)
  {
    PrunedIsSuffix(w.log, earlier);
    var rest := Pruned(w.log, earlier);
    var skipped := |history| - |w.log|;
    assert rest == history[|history| - |rest|..];
    forall i | 0 <= i < |history| - |rest| ensures history[i].at < cutoff {
      if i >= skipped { assert history[i] == w.log[i - skipped]; }
    }
  }

  lemma TailIsLive(history: seq<Entry>, dropped: nat, cutoff: real)
    requires dropped <= |history|
    requires Ordered(history)
    requires forall i :: 0 <= i < dropped ==> history[i].at < cutoff
    requires dropped < |history| ==> history[dropped].at >= cutoff
    ensures Live(history, cutoff) == history[dropped..]
  {
    hide Live;
    var gone, tail := history[..dropped], history[dropped..];
    assert history == gone + tail;
    forall k | 0 <= k < |tail| ensures tail[k].at >= cutoff {
      assert tail[k] == history[dropped + k];
    }
    LiveConcat(gone, tail, cutoff);
    NoneLive(gone, cutoff);
    AllLive(tail, cutoff);
  }

  /** With ordered timestamps the O(1) total is the sum over the whole history. */
  lemma SettledTotalIsWindowSum(w: Window, history: seq<Entry>, cutoff: real, later: real)
    requires Refines(w, history, cutoff)
    requires cutoff <= later
    requires Ordered(history)
    ensures Settle(w, later).log == Live(history, later)
    ensures Settle(w, later).total == Sum(Live(history, later))
  {
    hide Live, Pruned, Sum, Ordered;
    RefinesSettle(w, history, cutoff, later);
    PrunedIsSuffix(w.log, later);
    TailIsLive(history, |history| - |Settle(w, later).log|, later);
  }

  // ------------------------------------------------ timestamps out of order

  function Expired(log: seq<Entry>, cutoff: real): seq<Entry> {
    if log == [] then []
    else (if log[0].at < cutoff then [log[0]] else []) + Expired(log[1..], cutoff)
  }

  /** What is given back by entries that have expired but sit behind a live one, where pruning leaves them. */
  function Stuck(log: seq<Entry>, cutoff: real): int {
    0 - Sum(Expired(Pruned(log, cutoff), cutoff))
  }

  lemma {:induction false} SumSplits(log: seq<Entry>, cutoff: real)
    ensures Sum(log) == Sum(Live(log, cutoff)) + Sum(Expired(log, cutoff))
  {
    if log != [] {
      SumSplits(log[1..], cutoff);
      var live, expired := Live(log[1..], cutoff), Expired(log[1..], cutoff);
      hide Live, Expired;
      SumFirst(log[0], live);
      SumFirst(log[0], expired);
      assert [] + live == live && [] + expired == expired;
      Unfolded(log, cutoff);
    }
  }

  lemma SumFirst(e: Entry, rest: seq<Entry>)
    ensures Sum([e] + rest) == e.amount + Sum(rest)
  {
    assert ([e] + rest)[1..] == rest;
  }

  lemma Unfolded(log: seq<Entry>, cutoff: real)
    requires log != []
    ensures Live(log, cutoff) == (if log[0].at >= cutoff then [log[0]] else []) + Live(log[1..], cutoff)
    ensures Expired(log, cutoff) == (if log[0].at < cutoff then [log[0]] else []) + Expired(log[1..], cutoff)
  {
  }

  lemma GoneIsNotLive(history: seq<Entry>, dropped: nat, cutoff: real)
    requires dropped <= |history| && forall i :: 0 <= i < dropped ==> history[i].at < cutoff
    ensures Live(history, cutoff) == Live(history[dropped..], cutoff)
  {
    hide Live;
    var gone, tail := history[..dropped], history[dropped..];
    assert history == gone + tail;
    LiveConcat(gone, tail, cutoff);
    NoneLive(gone, cutoff);
    assert [] + Live(tail, cutoff) == Live(tail, cutoff);
  }

  /** In whatever order entries arrived, the total is the sum over the whole history inside the window less what is
      stuck. */
  lemma SettledTotalIsLiveLessStuck(w: Window, history: seq<Entry>, cutoff: real, later: real)
    requires Refines(w, history, cutoff) && cutoff <= later
    ensures Settle(w, later).total == Sum(Live(history, later)) - Stuck(w.log, later)
  {
    hide Live, Pruned, Sum, Expired;
    RefinesSettle(w, history, cutoff, later);
    var rest := Pruned(w.log, later);
    GoneIsNotLive(history, |history| - |rest|, later);
    SumSplits(rest, later);
  }

  lemma {:induction false} NoneExpired(log: seq<Entry>, cutoff: real)
    requires forall i :: 0 <= i < |log| ==> log[i].at >= cutoff
    ensures Expired(log, cutoff) == []
  {
    if log != [] {
      NoneExpired(log[1..], cutoff);
    }
  }

  /** In a log whose timestamps are in order nothing is stuck. */
  lemma NothingStuck(log: seq<Entry>, cutoff: real)
    requires Ordered(log)
    ensures Stuck(log, cutoff) == 0
  {
    hide Pruned, Expired;
    NoneStuck(log, cutoff);
    NoneExpired(Pruned(log, cutoff), cutoff);
    assert Sum([]) == 0;
  }

  /** No charge is dated before an entry that precedes it; a release may be. */
  ghost predicate ChargesInOrder(log: seq<Entry>) {
    forall i, j :: 0 <= i < j < |log| && log[j].amount > 0 ==> log[i].at <= log[j].at
  }

  lemma {:induction false} OnlyReleasesExpired(log: seq<Entry>, cutoff: real)
    requires forall i :: 0 <= i < |log| && log[i].at < cutoff ==> log[i].amount <= 0
    ensures Sum(Expired(log, cutoff)) <= 0
  {
    if log != [] {
      OnlyReleasesExpired(log[1..], cutoff);
      SumFirst(log[0], Expired(log[1..], cutoff));
      assert [] + Expired(log[1..], cutoff) == Expired(log[1..], cutoff);
    }
  }

  /** Only releases can be stuck. */
  lemma StuckIsGivenBack(log: seq<Entry>, cutoff: real)
    requires ChargesInOrder(log)
    ensures Stuck(log, cutoff) >= 0
  {
    hide Pruned, Expired, Sum;
    PrunedIsSuffix(log, cutoff);
    var rest, dropped := Pruned(log, cutoff), |log| - |Pruned(log, cutoff)|;
    forall i | 0 <= i < |rest| && rest[i].at < cutoff ensures rest[i].amount <= 0 {
      assert rest[i] == log[dropped + i] && rest[0] == log[dropped];
    }
    OnlyReleasesExpired(rest, cutoff);
  }

  /** What the entries of a log give back. */
  function GivenBack(log: seq<Entry>): nat {
    if log == [] then 0 else (if log[0].amount < 0 then 0 - log[0].amount else 0) + GivenBack(log[1..])
  }

  lemma {:induction false} GivenBackBounds(log: seq<Entry>)
    ensures 0 - Sum(log) <= GivenBack(log)
  {
    if log != [] {
      GivenBackBounds(log[1..]);
    }
  }

  /** The releases among what is stuck. */
  function StuckReleases(log: seq<Entry>, cutoff: real): nat {
    GivenBack(Expired(Pruned(log, cutoff), cutoff))
  }

  /** Whatever is stuck beside releases only makes the total larger. */
  lemma StuckAtMostReleases(log: seq<Entry>, cutoff: real)
    ensures Stuck(log, cutoff) <= StuckReleases(log, cutoff)
  {
    GivenBackBounds(Expired(Pruned(log, cutoff), cutoff));
  }

  /** After a quiet window nothing is left, in whatever order entries arrived. */
  lemma QuietWindowIsZero(w: Window, history: seq<Entry>, cutoff: real, later: real)
    requires Refines(w, history, cutoff)
    requires cutoff <= later
    requires forall i :: 0 <= i < |history| ==> history[i].at < later
    ensures Settle(w, later) == EMPTY
  {
    PrunedIsSuffix(w.log, later);
  }

  // ------------------------------------------------------------ whole runs

  datatype Step = Append(at: real, amount: int) | Prune(now: real)

  function StepTime(s: Step): real {
    match s
    case Append(at, _) => at
    case Prune(now) => now
  }

  function Run(width: real, steps: seq<Step>): Window {
    if steps == [] then EMPTY
    else
      var w := Run(width, steps[..|steps| - 1]);
      match steps[|steps| - 1]
      case Append(at, amount) => Post(w, at, amount)
      case Prune(now) => Settle(w, now - width)
  }

  function History(steps: seq<Step>): seq<Entry> {
    if steps == [] then []
    else
      var h := History(steps[..|steps| - 1]);
      match steps[|steps| - 1]
      case Append(at, amount) => h + [Entry(at, amount)]
      case Prune(_) => h
  }

  ghost predicate ClockOrdered(steps: seq<Step>) {
    forall i, j :: 0 <= i < j < |steps| ==> StepTime(steps[i]) <= StepTime(steps[j])
  }

  ghost predicate NoneAfter(log: seq<Entry>, now: real) {
    forall i :: 0 <= i < |log| ==> log[i].at <= now
  }

  lemma OrderedPost(log: seq<Entry>, e: Entry)
    requires Ordered(log) && NoneAfter(log, e.at)
    ensures Ordered(log + [e]) && NoneAfter(log + [e], e.at)
  {
    var after := log + [e];
    forall i, j | 0 <= i < j < |after| ensures after[i].at <= after[j].at {
      assert after[i] == log[i];
    }
  }

  /** What every run keeps, wherever its prunes fell. */
  ghost predicate RunInv(w: Window, history: seq<Entry>, width: real, now: real) {
    Refines(w, history, now - width) && Ordered(history) && NoneAfter(history, now)
  }

  lemma RunInvLater(w: Window, history: seq<Entry>, width: real, now: real, later: real)
    requires RunInv(w, history, width, now) && now <= later
    ensures RunInv(w, history, width, later)
  {
  }

  lemma RunInvStep(w: Window, history: seq<Entry>, width: real, at: real, amount: int)
    requires RunInv(w, history, width, at)
    ensures RunInv(Post(w, at, amount), history + [Entry(at, amount)], width, at)
    ensures RunInv(Settle(w, at - width), history, width, at)
  {
    hide Refines, Ordered, NoneAfter, Settle, Post;
    RefinesPost(w, history, at - width, at, amount);
    RefinesSettle(w, history, at - width, at - width);
    OrderedPost(history, Entry(at, amount));
  }

  lemma {:induction false} RunRefinesHistory(width: real, steps: seq<Step>, now: real)
    requires ClockOrdered(steps)
    requires forall i :: 0 <= i < |steps| ==> StepTime(steps[i]) <= now
    ensures RunInv(Run(width, steps), History(steps), width, now)
  {
    if steps != [] {
      hide RunInv, Post, Settle;
      var before, last := steps[..|steps| - 1], steps[|steps| - 1];
      var at := StepTime(last);
      RunRefinesHistory(width, before, at);
      RunInvStep(Run(width, before), History(before), width, at, if last.Append? then last.amount else 0);
      RunInvLater(Run(width, steps), History(steps), width, at, now);
    }
  }

  /**
   Fast refines slow: after any clock-ordered run, a query returns the sum of
   every entry ever appended that is no older than the window.
   */
  lemma FastWindowRefinesSlow(width: real, steps: seq<Step>, now: real)
    requires ClockOrdered(steps)
    requires forall i :: 0 <= i < |steps| ==> StepTime(steps[i]) <= now
    ensures Run(width, steps).total == Sum(Run(width, steps).log)
    ensures Settle(Run(width, steps), now - width).total == Sum(Live(History(steps), now - width))
    ensures (forall i :: 0 <= i < |steps| && steps[i].Append? ==> steps[i].at < now - width)
            ==> Settle(Run(width, steps), now - width) == EMPTY
  {
    hide Live, Settle, Run, History, Ordered;
    RunRefinesHistory(width, steps, now);
    SettledTotalIsWindowSum(Run(width, steps), History(steps), now - width, now - width);
    if forall i :: 0 <= i < |steps| && steps[i].Append? ==> steps[i].at < now - width {
      HistoryComesFromAppends(steps, now - width);
      QuietWindowIsZero(Run(width, steps), History(steps), now - width, now - width);
    }
  }

  lemma {:induction false} HistoryComesFromAppends(steps: seq<Step>, bound: real)
    requires forall i :: 0 <= i < |steps| && steps[i].Append? ==> steps[i].at < bound
    ensures forall i :: 0 <= i < |History(steps)| ==> History(steps)[i].at < bound
  {
    if steps != [] {
      HistoryComesFromAppends(steps[..|steps| - 1], bound);
    }
  }
}
