/**
 The observability buffer: events are appended under a lock, a timer takes at
 most a batch and puts it back on failure, and shutdown takes everything.
 */
module FlushBuffer {

  datatype Event = Event(usageId: string, model: string)

  const FLUSH_BATCH: nat := 50

  function FirstBatch(pending: seq<Event>): seq<Event> {
    if |pending| <= FLUSH_BATCH then pending else pending[..FLUSH_BATCH]
  }

  // ------------------------------------------------------------ collector

  class Repository {
    var rows: seq<Event>

    /** All or nothing. */
    method AppendUsage(batch: seq<Event>, succeeds: bool) returns (ok: bool)
      modifies this
      ensures ok == succeeds && rows == if ok then old(rows) + batch else old(rows)
    {
      if succeeds { rows := rows + batch; }
      return succeeds;
    }
  }

  class ObservabilityCollector {
    var pendingEvents: seq<Event>
    const repo: Repository

    constructor (repo: Repository)
      ensures pendingEvents == [] && this.repo == repo
    {
      this.repo, pendingEvents := repo, [];
    }

    method EnqueueEvent(e: Event)
      modifies this
      ensures pendingEvents == old(pendingEvents) + [e]
    {
      pendingEvents := pendingEvents + [e];
    }

    /** A timer flush with nothing in between: what is stored followed by what is pending never changes. */
    method FlushEvents(succeeds: bool)
      modifies this, repo
      ensures repo.rows + pendingEvents == old(repo.rows + pendingEvents)
      ensures repo.rows == old(repo.rows)
                           + if !succeeds then []
                             else old(pendingEvents)[..if |old(pendingEvents)| < 50 then |old(pendingEvents)| else 50]
    {
      var batch := FirstBatch(pendingEvents);
      pendingEvents := pendingEvents[|batch|..];
      if batch != [] {
        var ok := repo.AppendUsage(batch, succeeds);
        if !ok {
          pendingEvents := batch + pendingEvents;
        }
      }
    }

    /** The shutdown flush: everything is written, or a failed write loses it. */
    method FlushSync(succeeds: bool)
      modifies this, repo
      ensures pendingEvents == []
      ensures repo.rows == old(repo.rows) + if succeeds then old(pendingEvents) else []
    {
      var batch := pendingEvents;
      pendingEvents := [];
      if batch != [] {
        var _ := repo.AppendUsage(batch, succeeds);
      }
    }
  }

  // ---------------------------------------------------------- interleavings

  /** The lock-protected steps: inFlight is the timer's batch, closing the batches of shutdown flushes. */
  datatype State = State(
    enqueued: seq<Event>, pending: seq<Event>, inFlight: seq<Event>, closing: seq<seq<Event>>,
    persisted: seq<Event>, lost: seq<Event>)

  datatype Step =
    | Enqueue(e: Event)
    | Take
    | Written
    | Requeue
    | SyncTake
    | SyncWritten(which: nat)
    | SyncFailed(which: nat)

  const EMPTY := State([], [], [], [], [], [])

  /** There is one timer, so it takes a batch only when it holds none. */
  predicate Enabled(s: State, step: Step) {
    match step
    case Take => s.inFlight == []
    case SyncWritten(i) => i < |s.closing|
    case SyncFailed(i) => i < |s.closing|
    case _ => true
  }

  function Next(s: State, step: Step): State
    requires Enabled(s, step)
  {
    match step
    case Enqueue(e) => s.(enqueued := s.enqueued + [e], pending := s.pending + [e])
    case Take =>
      var batch := FirstBatch(s.pending);
      s.(inFlight := batch, pending := s.pending[|batch|..])
    case Written => s.(persisted := s.persisted + s.inFlight, inFlight := [])
    case Requeue => s.(pending := s.inFlight + s.pending, inFlight := [])
    case SyncTake => s.(closing := s.closing + [s.pending], pending := [])
    case SyncWritten(i) =>
      s.(persisted := s.persisted + s.closing[i], closing := s.closing[..i] + s.closing[i + 1..])
    case SyncFailed(i) =>
      s.(lost := s.lost + s.closing[i], closing := s.closing[..i] + s.closing[i + 1..])
  }

  ghost predicate IsRun(steps: seq<Step>, states: seq<State>) {
    && |states| == |steps| + 1 && states[0] == EMPTY
    && forall i :: 0 <= i < |steps| ==> Enabled(states[i], steps[i]) && states[i + 1] == Next(states[i], steps[i])
  }

  predicate TimerOnly(step: Step) {
    step.Enqueue? || step.Take? || step.Written? || step.Requeue?
  }

  /** Timer flushes lose nothing and keep the order: stored, in flight and pending spell the enqueue order. */
  lemma {:induction false} TimerKeepsOrder(steps: seq<Step>, states: seq<State>, k: nat)
    requires IsRun(steps, states) && k <= |steps|
    requires forall i :: 0 <= i < |steps| ==> TimerOnly(steps[i])
    ensures states[k].persisted + states[k].inFlight + states[k].pending == states[k].enqueued
  {
    if k > 0 {
      TimerKeepsOrder(steps, states, k - 1);
      var s, step := states[k - 1], steps[k - 1];
      assert TimerOnly(step);
      TimerStep(s, step);
    }
  }

  lemma TimerStep(s: State, step: Step)
    requires Enabled(s, step) && TimerOnly(step)
    requires s.persisted + s.inFlight + s.pending == s.enqueued
    ensures var t := Next(s, step); t.persisted + t.inFlight + t.pending == t.enqueued
  {
    match step
    case Enqueue(e) =>
      assert s.persisted + s.inFlight + (s.pending + [e]) == (s.persisted + s.inFlight + s.pending) + [e];
    case Take =>
      var batch := FirstBatch(s.pending);
      assert batch + s.pending[|batch|..] == s.pending;
      assert s.persisted + batch + s.pending[|batch|..] == s.persisted + [] + (batch + s.pending[|batch|..]);
    case Written =>
      assert (s.persisted + s.inFlight) + [] + s.pending == s.persisted + s.inFlight + s.pending;
    case Requeue =>
      assert s.persisted + [] + (s.inFlight + s.pending) == s.persisted + s.inFlight + s.pending;
  }

  // ------------------------------------------------ with shutdown flushes

  ghost function All(batches: seq<seq<Event>>): multiset<Event> {
    if batches == [] then multiset{} else multiset(batches[0]) + All(batches[1..])
  }

  lemma {:induction false} AllAppend(batches: seq<seq<Event>>, b: seq<Event>)
    ensures All(batches + [b]) == All(batches) + multiset(b)
  {
    if batches == [] {
      assert [b][1..] == [];
    } else {
      assert (batches + [b])[1..] == batches[1..] + [b];
      AllAppend(batches[1..], b);
    }
  }

  lemma {:induction false} AllRemove(batches: seq<seq<Event>>, i: nat)
    requires i < |batches|
    ensures All(batches) == multiset(batches[i]) + All(batches[..i] + batches[i + 1..])
  {
    if i == 0 {
      assert batches[..0] + batches[1..] == batches[1..];
    } else {
      AllRemove(batches[1..], i - 1);
      var rest := batches[..i] + batches[i + 1..];
      assert rest[1..] == batches[1..][..i - 1] + batches[1..][i..];
    }
  }

  /** Everything ever enqueued is in exactly one place. */
  ghost predicate Conserved(s: State) {
    multiset(s.persisted) + multiset(s.inFlight) + All(s.closing) + multiset(s.pending) + multiset(s.lost)
    == multiset(s.enqueued)
  }

  lemma TimerConserves(s: State, step: Step)
    requires Enabled(s, step) && Conserved(s) && TimerOnly(step)
    ensures Conserved(Next(s, step))
  {
    hide All;
    var batch := FirstBatch(s.pending);
    assert s.pending == batch + s.pending[|batch|..];
  }

  lemma StepConserves(s: State, step: Step)
    requires Enabled(s, step) && Conserved(s)
    ensures Conserved(Next(s, step))
  {
    hide All;
    match step
    case SyncTake => AllAppend(s.closing, s.pending);
    case SyncWritten(i) => AllRemove(s.closing, i);
    case SyncFailed(i) => AllRemove(s.closing, i);
    case _ => TimerConserves(s, step);
  }

  /** With shutdown flushes racing the timer every event is still in exactly one place, and events are lost
      only by a shutdown write that fails. */
  lemma {:induction false} NothingLostUnlessFinalWriteFails(steps: seq<Step>, states: seq<State>, k: nat)
    requires IsRun(steps, states) && k <= |steps|
    ensures Conserved(states[k])
    ensures (forall i :: 0 <= i < k ==> !steps[i].SyncFailed?) ==> states[k].lost == []
  {
    if k > 0 {
      NothingLostUnlessFinalWriteFails(steps, states, k - 1);
      hide Conserved;
      StepConserves(states[k - 1], steps[k - 1]);
    }
  }

  // -------------------------------------------------- after the last shutdown flush

  lemma {:induction false} TimerHoldsOneBatch(steps: seq<Step>, states: seq<State>, k: nat)
    requires IsRun(steps, states) && k <= |steps|
    ensures |states[k].inFlight| <= FLUSH_BATCH
  {
    if k > 0 {
      TimerHoldsOneBatch(steps, states, k - 1);
    }
  }

  /** A shutdown flush after which no event arrives and no other shutdown flush starts. */
  ghost predicate LastFlush(steps: seq<Step>, t: nat) {
    && t < |steps| && steps[t].SyncTake?
    && forall j :: t < j < |steps| ==> !steps[j].SyncTake? && !steps[j].Enqueue?
  }

  /** Between the flush and step k the timer wrote the batch it was holding. */
  ghost predicate WroteBatch(steps: seq<Step>, states: seq<State>, t: nat, k: nat)
    requires |states| == |steps| + 1 && k <= |steps|
  {
    exists j :: t < j < k && steps[j].Written? && states[j].inFlight != []
  }

  /** The timer's batch is in flight, or pending again, until it is written. */
  lemma {:induction false} BatchUntilWritten(steps: seq<Step>, states: seq<State>, t: nat, k: nat)
    requires IsRun(steps, states) && LastFlush(steps, t) && t < k <= |steps|
    ensures var held, s := states[t].inFlight, states[k];
            if WroteBatch(steps, states, t, k) then s.inFlight == [] == s.pending
            else (s.inFlight == held && s.pending == []) || (s.inFlight == [] && s.pending == held)
  {
    if k > t + 1 {
      BatchUntilWritten(steps, states, t, k - 1);
      TimerHoldsOneBatch(steps, states, t);
      var held, r, s, step := states[t].inFlight, states[k - 1], states[k], steps[k - 1];
      assert s == Next(r, step);
      if j :| t < j < k - 1 && steps[j].Written? && states[j].inFlight != [] {
        assert WroteBatch(steps, states, t, k - 1) && WroteBatch(steps, states, t, k);
      } else if step.Written? && r.inFlight != [] {
        assert WroteBatch(steps, states, t, k);
      } else {
        assert held + [] == held;
      }
    } else {
      assert states[t + 1] == Next(states[t], steps[t]);
    }
  }

  /** Nothing was lost so far: every shutdown write that failed had nothing to write. */
  ghost predicate NoLoss(steps: seq<Step>, states: seq<State>, k: nat)
    requires IsRun(steps, states) && k <= |steps|
  {
    forall i :: 0 <= i < k && steps[i].SyncFailed? ==> LostNothing(states[i], steps[i])
  }

  ghost predicate LostNothing(s: State, step: Step) {
    step.SyncFailed? && step.which < |s.closing| ==> s.closing[step.which] == []
  }

  lemma {:induction false} LostIff(steps: seq<Step>, states: seq<State>, k: nat)
    requires IsRun(steps, states) && k <= |steps|
    ensures states[k].lost == [] <==> NoLoss(steps, states, k)
  {
    if k > 0 {
      LostIff(steps, states, k - 1);
      assert states[k] == Next(states[k - 1], steps[k - 1]);
    }
  }

  lemma AllStored(s: State)
    requires Conserved(s) && s.closing == []
    ensures multiset(s.persisted) == multiset(s.enqueued) <==> s.inFlight == [] && s.pending == [] && s.lost == []
  {
    var rest := s.inFlight + s.pending + s.lost;
    assert multiset(s.persisted) + multiset(rest) == multiset(s.enqueued);
    assert multiset(rest) == multiset{} <==> |rest| == 0;
  }

  /**
   When the shutdown writes are done, every event ever enqueued is stored if and
   only if no shutdown write with something in it failed, and the timer either
   held nothing when the last shutdown flush took the rest or wrote that batch
   afterwards.  Otherwise the batch is put back and dies with the process.
   */
  lemma EverythingStoredIff(steps: seq<Step>, states: seq<State>, t: nat)
    requires IsRun(steps, states) && LastFlush(steps, t) && states[|steps|].closing == []
    ensures var s, n := states[|steps|], |steps|;
            && (s.pending == [] == s.inFlight <==> states[t].inFlight == [] || WroteBatch(steps, states, t, n))
            && (multiset(s.persisted) == multiset(s.enqueued) <==>
                NoLoss(steps, states, n) && (states[t].inFlight == [] || WroteBatch(steps, states, t, n)))
  {
    var n := |steps|;
    NothingLostUnlessFinalWriteFails(steps, states, n);
    BatchUntilWritten(steps, states, t, n);
    LostIff(steps, states, n);
    hide IsRun, Conserved, NoLoss, WroteBatch;
    AllStored(states[n]);
  }

  /** An event whose write is still under way when the shutdown flush takes the rest, and then fails, is left behind. */
  lemma BatchLeftBehind(e: Event) returns (steps: seq<Step>, states: seq<State>)
    ensures IsRun(steps, states) && LastFlush(steps, 2)
    ensures var s := states[|steps|];
            s.closing == [] && s.enqueued == [e] && s.persisted == [] && s.lost == [] && s.pending == [e]
  {
    var s1 := Next(EMPTY, Enqueue(e));
    var s2 := Next(s1, Take);
    var s3 := Next(s2, SyncTake);
    var s4 := Next(s3, SyncWritten(0));
    var s5 := Next(s4, Requeue);
    assert [e][|FirstBatch([e])|..] == [];
    steps, states := [Enqueue(e), Take, SyncTake, SyncWritten(0), Requeue], [EMPTY, s1, s2, s3, s4, s5];
  }
}
