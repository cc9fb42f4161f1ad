/**
 Any number of invokes at once over one budget and one set of pools,
 interleaved at every step, with budget queries in between; a release reads the
 clock in one step and takes the lock in a later one, and a pin may change under
 an invoke at any time.  In every reachable state each invoke holds at most one
 reservation, the running totals are what the invokes hold less the releases
 whose reservation has left, and every grant keeps the bound.
 */
module CascadeThreads {
  import opened Budget
  import opened Cascade
  import opened CascadeSteps
  import opened Messages
  import opened SlidingWindow
  import opened Wrappers
  import SpendBound

  /** One invoke: where it is, the pin it sees, and what it has done. */
  datatype Thread = Thread(
    world: World,
    call: Call,
    point: Point,
    pinned: Option<string>,
    t: nat,
    ops: seq<Op>,
    tried: seq<Attempt>)

  /** The clock is its last reading by anybody. */
  datatype State = State(budget: map<string, Ledgers>, counters: seq<nat>, threads: seq<Thread>, clock: real)

  /** Repin is an invoke on the same FallbackLLM, or a pin reset, setting the pin that invoke i sees. */
  datatype Act =
    | Move(i: nat)
    | Repin(i: nat, pin: Option<string>)
    | Query(m: string, now: real)
    | DailyQuery(m: string, now: real)

  predicate Sized(config: Config, st: State) {
    config.limits.Keys <= st.budget.Keys && |st.counters| == |config.pools|
  }

  function ProgressOf(st: State, th: Thread): Progress {
    Progress(Snapshot(st.budget, st.counters, th.pinned), th.t, th.ops, th.tried)
  }

  function CallOf(config: Config, th: Thread): BudgetCall {
    CallAt(config, th.call, th.point)
  }

  function TimeOf(config: Config, st: State, act: Act): real {
    match act
    case Move(i) =>
      if i >= |st.threads| || !ReadsClock(config, st.threads[i].point) then st.clock
      else st.threads[i].world.clock(st.threads[i].t)
    case Repin(_, _) => st.clock
    case _ => SpendBound.Later(st.clock, act.now)
  }

  /** A reservation, and the first half of a release. */
  predicate ReadsClock(config: Config, p: Point) {
    p.Try? && p.m in config.limits && (p.phase.Ask? || p.phase.AskAgain? || p.phase.GiveBack?)
  }

  /** The clock never goes back; a query may have read it before others did. */
  predicate Enabled(config: Config, st: State, act: Act) {
    && Sized(config, st) && st.clock <= TimeOf(config, st, act)
    && (if act.Move? || act.Repin? then act.i < |st.threads| else act.m in st.budget)
  }

  function Moved(config: Config, st: State, i: nat): State
    requires Sized(config, st) && i < |st.threads|
  {
    var th := st.threads[i];
    var (q, b) := CascadeSteps.Step(config, th.world, th.call, th.point, ProgressOf(st, th));
    State(b.s.budget, b.s.counters,
           st.threads[i := th.(point := q, pinned := b.s.pinned, t := b.t, ops := b.ops, tried := b.tried)],
           TimeOf(config, st, Move(i)))
  }

  function Next(config: Config, st: State, act: Act): State
    requires Enabled(config, st, act)
  {
    match act
    case Move(i) => Moved(config, st, i)
    case Repin(i, pin) => st.(threads := st.threads[i := st.threads[i].(pinned := pin)])
    case Query(m, now) =>
      st.(budget := st.budget[m := SettleAll(st.budget[m], now)], clock := SpendBound.Later(st.clock, now))
    case DailyQuery(m, now) =>
      st.(budget := st.budget[m := SettleDays(st.budget[m], now)], clock := SpendBound.Later(st.clock, now))
  }

  /** Nobody has done anything and no limited model has any usage; pins and pool counters may be anything. */
  ghost predicate Opening(config: Config, st: State) {
    && Sized(config, st)
    && (forall i :: 0 <= i < |st.threads| ==> st.threads[i].point == Local && st.threads[i].ops == [])
    && forall m :: m in config.limits ==> st.budget[m] == NO_USAGE
  }

  ghost predicate IsRun(config: Config, acts: seq<Act>, states: seq<State>) {
    && |states| == |acts| + 1 && Opening(config, states[0])
    && forall k :: 0 <= k < |acts| ==>
         Enabled(config, states[k], acts[k]) && states[k + 1] == Next(config, states[k], acts[k])
  }

  // ------------------------------------------------------ one invoke's trace

  /** Every charge was given back by the very next entry, and not before it was made. */
  ghost predicate Closed(ops: seq<Op>) {
    ops == [] ||
    var n := |ops|;
    && n >= 2 && ops[n - 1].Gave? && ops[n - 2].Took?
    && ops[n - 1].model == ops[n - 2].model && ops[n - 1].tokens == ops[n - 2].tokens
    && ops[n - 2].at <= ops[n - 1].at
    && Closed(ops[..n - 2])
  }

  /** Closed but for one charge, the last entry. */
  ghost predicate OneOpen(ops: seq<Op>, m: string, est: nat) {
    ops != [] && Closed(ops[..|ops| - 1]) &&
    var op := ops[|ops| - 1]; op.Took? && op.model == m && op.tokens == est
  }

  /** What an invoke holds at a point: the reservation it is using, or the one its answer has used. */
  function Stake(config: Config, p: Point): Option<(string, nat)> {
    match p
    case Try(m, Send(payload), _) => if m in config.limits then Some((m, Estimate(payload))) else None
    case Try(m, GiveBack(payload, _), _) => if m in config.limits then Some((m, Estimate(payload))) else None
    case Try(m, Stamped(payload, _, _), _) => if m in config.limits then Some((m, Estimate(payload))) else None
    case Over(Groq(m, payload)) => if m in config.limits then Some((m, Estimate(payload))) else None
    case _ => None
  }

  function Staked(config: Config, p: Point, m: string, u: Unit): int {
    match Stake(config, p)
    case None => 0
    case Some((x, est)) => if x != m then 0 else if u.Tokens? then est else 1
  }

  ghost predicate Steady(config: Config, p: Point, ops: seq<Op>) {
    var stake := Stake(config, p);
    if stake.None? then Closed(ops)
    else
      && OneOpen(ops, stake.value.0, stake.value.1)
      && (Stamp(config, p).Some? ==> ops[|ops| - 1].at <= Stamp(config, p).value)
  }

  /** The time a release has read but not yet entered. */
  function Stamp(config: Config, p: Point): Option<real> {
    if p.Try? && p.m in config.limits && p.phase.Stamped? then Some(p.phase.at) else None
  }

  /** Nothing done or read lies in the future. */
  ghost predicate PastOnly(config: Config, p: Point, ops: seq<Op>, clock: real) {
    DoneBy(ops, clock) && (Stamp(config, p).Some? ==> Stamp(config, p).value <= clock)
  }

  ghost predicate DoneBy(ops: seq<Op>, clock: real) {
    forall j :: 0 <= j < |ops| ==> ops[j].at <= clock
  }

  lemma TakeOpens(ops: seq<Op>, op: Op)
    requires Closed(ops) && op.Took?
    ensures OneOpen(ops + [op], op.model, op.tokens)
  {
    assert (ops + [op])[..|ops|] == ops;
  }

  lemma GiveCloses(ops: seq<Op>, m: string, est: nat, at: real)
    requires OneOpen(ops, m, est) && ops[|ops| - 1].at <= at
    ensures Closed(ops + [Gave(m, est, at)])
  {
    var all, n := ops + [Gave(m, est, at)], |ops| + 1;
    assert all[..n - 2] == ops[..|ops| - 1];
  }

  lemma TryKeepsSteady(config: Config, world: World, call: Call, m: string, phase: Phase, next: Resume, a: Progress)
    requires Fitting(config, a.s) && Steady(config, Try(m, phase, next), a.ops)
    requires phase.GiveBack? && m in config.limits ==> DoneBy(a.ops, world.clock(a.t))
    ensures var (q, b) := TryStep(config, world, call, m, phase, next, a);
            Steady(config, q, b.ops)
  {
    hide TryStep, Steady, DoneBy;
    match phase
    case Ask => AskKeepsSteady(config, world, call, m, phase, next, a);
    case AskAgain => AskKeepsSteady(config, world, call, m, phase, next, a);
    case Send(_) => SendKeepsSteady(config, world, call, m, phase, next, a);
    case _ => ReleaseKeepsSteady(config, world, call, m, phase, next, a);
  }

  lemma AskKeepsSteady(config: Config, world: World, call: Call, m: string, phase: Phase, next: Resume, a: Progress)
    requires Fitting(config, a.s) && Steady(config, Try(m, phase, next), a.ops) && (phase.Ask? || phase.AskAgain?)
    ensures var (q, b) := TryStep(config, world, call, m, phase, next, a);
            Steady(config, q, b.ops)
  {
    hide Closed, OneOpen, Base, Smaller, Estimate, Reserved;
    var payload := if phase.Ask? then Base(config, call) else Smaller(config, call, m);
    TakeOpens(a.ops, Took(m, Estimate(payload), world.clock(a.t)));
  }

  lemma SendKeepsSteady(config: Config, world: World, call: Call, m: string, phase: Phase, next: Resume, a: Progress)
    requires Fitting(config, a.s) && Steady(config, Try(m, phase, next), a.ops) && phase.Send?
    ensures var (q, b) := TryStep(config, world, call, m, phase, next, a);
            Steady(config, q, b.ops)
  {
    hide Closed, OneOpen, Estimate;
  }

  lemma ReleaseKeepsSteady(config: Config, world: World, call: Call, m: string, phase: Phase, next: Resume, a: Progress)
    requires Fitting(config, a.s) && Steady(config, Try(m, phase, next), a.ops)
    requires phase.GiveBack? || phase.Stamped?
    requires phase.GiveBack? && m in config.limits ==> DoneBy(a.ops, world.clock(a.t))
    ensures var (q, b) := TryStep(config, world, call, m, phase, next, a);
            Steady(config, q, b.ops)
  {
    hide Closed, Estimate, Released;
    if phase.Stamped? && m in config.limits {
      GiveCloses(a.ops, m, Estimate(phase.payload), phase.at);
    }
  }

  lemma StepKeepsSteady(config: Config, world: World, call: Call, p: Point, a: Progress)
    requires Fitting(config, a.s) && Steady(config, p, a.ops)
    requires ReadsClock(config, p) ==> DoneBy(a.ops, world.clock(a.t))
    ensures var (q, b) := CascadeSteps.Step(config, world, call, p, a);
            Steady(config, q, b.ops)
  {
    hide Closed, OneOpen, DoneBy, TryStep, CallAt, Base, Estimate;
    if p.Try? {
      TryKeepsSteady(config, world, call, p.m, p.phase, p.next, a);
    }
  }

  /** A stamp is read from the clock. */
  lemma StepReadsStamp(config: Config, world: World, call: Call, p: Point, a: Progress)
    requires Fitting(config, a.s)
    ensures var q := CascadeSteps.Step(config, world, call, p, a).0;
            Stamp(config, q).Some? && !p.Over?
            ==> ReadsClock(config, p) && Stamp(config, q).value == world.clock(a.t)
  {
    hide Base, Smaller, Estimate, ReserveIn, ReleaseIn;
  }

  // ------------------------------------------------- what an invoke holds

  /** What the invoke's entries inside a window add up to. */
  function LiveNet(ops: seq<Op>, m: string, u: Unit, cutoff: real): int {
    Sum(Live(Entries(ops, m, u), cutoff))
  }

  /** The reservation it holds, if that is on m and inside the window. */
  function Held(ops: seq<Op>, m: string, u: Unit, cutoff: real): int {
    if ops == [] then 0
    else
      var op := ops[|ops| - 1];
      if op.Took? && op.model == m && op.at >= cutoff then Amount(op, u) else 0
  }

  /** Its releases on m inside the window whose reservation has already left it. */
  function Orphaned(ops: seq<Op>, m: string, u: Unit, cutoff: real): int {
    if |ops| < 2 then 0
    else
      var took, op := ops[|ops| - 2], ops[|ops| - 1];
      Orphaned(ops[..|ops| - 1], m, u, cutoff)
      + if op.Gave? && op.model == m && took.at < cutoff <= op.at then 0 - Amount(op, u) else 0
  }

  lemma LiveNetAppend(ops: seq<Op>, op: Op, m: string, u: Unit, cutoff: real)
    ensures LiveNet(ops + [op], m, u, cutoff)
         == LiveNet(ops, m, u, cutoff) + if op.model == m && op.at >= cutoff then Amount(op, u) else 0
  {
    EntriesAppend(ops, op, m, u);
    hide Sum, Live, Entries, Amount;
    LivePost(Entries(ops, m, u), Entry(op.at, Amount(op, u)), cutoff);
  }

  lemma OrphanedAppend(ops: seq<Op>, op: Op, m: string, u: Unit, cutoff: real)
    ensures Orphaned(ops + [op], m, u, cutoff)
         == Orphaned(ops, m, u, cutoff)
            + if ops != [] && op.Gave? && op.model == m && ops[|ops| - 1].at < cutoff <= op.at
              then 0 - Amount(op, u) else 0
  {
    assert (ops + [op])[..|ops|] == ops;
    hide Amount;
  }

  /** A charge given back leaves at most an orphaned release. */
  lemma PairHoldsNothing(ops: seq<Op>, took: Op, gave: Op, m: string, u: Unit, cutoff: real)
    requires took.Took? && gave.Gave? && took.model == gave.model && took.tokens == gave.tokens && took.at <= gave.at
    ensures LiveNet(ops + [took] + [gave], m, u, cutoff) + Orphaned(ops + [took] + [gave], m, u, cutoff)
         == LiveNet(ops, m, u, cutoff) + Orphaned(ops, m, u, cutoff)
    ensures Net(ops + [took] + [gave], m, u) == Net(ops, m, u)
  {
    hide LiveNet, Net, Orphaned;
    LiveNetAppend(ops, took, m, u, cutoff);
    LiveNetAppend(ops + [took], gave, m, u, cutoff);
    OrphanedAppend(ops, took, m, u, cutoff);
    OrphanedAppend(ops + [took], gave, m, u, cutoff);
    NetAppend(ops, took, m, u);
    NetAppend(ops + [took], gave, m, u);
  }

  lemma {:induction false} ClosedHoldsNothing(ops: seq<Op>, m: string, u: Unit, cutoff: real)
    requires Closed(ops)
    ensures LiveNet(ops, m, u, cutoff) + Orphaned(ops, m, u, cutoff) == 0 == Net(ops, m, u)
    decreases |ops|
  {
    if ops != [] {
      var n := |ops|;
      var before, took, gave := ops[..n - 2], ops[n - 2], ops[n - 1];
      hide LiveNet, Net, Orphaned;
      ClosedHoldsNothing(before, m, u, cutoff);
      assert ops == before + [took] + [gave];
      PairHoldsNothing(before, took, gave, m, u, cutoff);
    }
  }

  /** Its entries inside any window are what it holds there less what it orphaned there. */
  lemma SteadyHolds(config: Config, p: Point, ops: seq<Op>, m: string, u: Unit, cutoff: real)
    requires Steady(config, p, ops)
    ensures LiveNet(ops, m, u, cutoff) == Held(ops, m, u, cutoff) - Orphaned(ops, m, u, cutoff)
    ensures Net(ops, m, u) == Staked(config, p, m, u)
  {
    hide LiveNet, Net, Estimate;
    if Closed(ops) {
      ClosedHoldsNothing(ops, m, u, cutoff);
    } else {
      var before, op := ops[..|ops| - 1], ops[|ops| - 1];
      assert ops == before + [op];
      ClosedHoldsNothing(before, m, u, cutoff);
      LiveNetAppend(before, op, m, u, cutoff);
      NetAppend(before, op, m, u);
    }
  }

  // ------------------------------------------------------- all the invokes

  function Spread(threads: seq<Thread>, m: string, u: Unit, cutoff: real): int {
    if threads == [] then 0 else LiveNet(threads[0].ops, m, u, cutoff) + Spread(threads[1..], m, u, cutoff)
  }

  function AllHeld(threads: seq<Thread>, m: string, u: Unit, cutoff: real): int {
    if threads == [] then 0 else Held(threads[0].ops, m, u, cutoff) + AllHeld(threads[1..], m, u, cutoff)
  }

  function AllOrphaned(threads: seq<Thread>, m: string, u: Unit, cutoff: real): int {
    if threads == [] then 0 else Orphaned(threads[0].ops, m, u, cutoff) + AllOrphaned(threads[1..], m, u, cutoff)
  }

  ghost predicate AllSteady(config: Config, threads: seq<Thread>, clock: real) {
    forall i :: 0 <= i < |threads| ==>
      Steady(config, threads[i].point, threads[i].ops) && PastOnly(config, threads[i].point, threads[i].ops, clock)
  }

  lemma {:induction false} SpreadUpdate(threads: seq<Thread>, i: nat, th: Thread, m: string, u: Unit, cutoff: real)
    requires i < |threads|
    ensures Spread(threads[i := th], m, u, cutoff)
         == Spread(threads, m, u, cutoff) - LiveNet(threads[i].ops, m, u, cutoff) + LiveNet(th.ops, m, u, cutoff)
  {
    hide LiveNet;
    if i == 0 {
      assert threads[i := th][1..] == threads[1..];
    } else {
      assert threads[i := th][1..] == threads[1..][i - 1 := th];
      SpreadUpdate(threads[1..], i - 1, th, m, u, cutoff);
    }
  }

  lemma {:induction false} SpreadIsHeld(config: Config, threads: seq<Thread>, clock: real, m: string, u: Unit,
                                        cutoff: real)
    requires AllSteady(config, threads, clock)
    ensures Spread(threads, m, u, cutoff) == AllHeld(threads, m, u, cutoff) - AllOrphaned(threads, m, u, cutoff)
  {
    hide LiveNet, Held, Orphaned, Steady, DoneBy;
    if threads != [] {
      SteadyHolds(config, threads[0].point, threads[0].ops, m, u, cutoff);
      SpreadIsHeld(config, threads[1..], clock, m, u, cutoff);
    }
  }

  // ------------------------------------------------------------ invariant

  /** The history of everything appended for m adds up, in every window, to what the invokes appended. */
  ghost predicate Kept(history: seq<Entry>, threads: seq<Thread>, m: string, u: Unit, clock: real) {
    && ChargesInOrder(history) && NoneAfter(history, clock)
    && forall cutoff: real :: Sum(Live(history, cutoff)) == Spread(threads, m, u, cutoff)
  }

  ghost predicate Inv(config: Config, st: State, m: string, tokens: seq<Entry>, requests: seq<Entry>) {
    && Sized(config, st) && m in config.limits
    && SpendBound.Tracks(st.budget[m], tokens, requests, st.clock)
    && Kept(tokens, st.threads, m, Tokens, st.clock) && Kept(requests, st.threads, m, Requests, st.clock)
    && AllSteady(config, st.threads, st.clock)
  }

  /** What a step adds to the trace: nothing, or the one entry its call made. */
  function NewOps(config: Config, st: State, i: nat): (more: seq<Op>)
    requires Sized(config, st) && i < |st.threads|
    ensures |more| <= 1
  {
    var c := CallOf(config, st.threads[i]);
    if c.NoCall? then [] else OpsOf(c, st.budget[c.m], config.limits[c.m], TimeOf(config, st, Move(i)))
  }

  /** A charge is dated now, a release no later. */
  ghost predicate DatedBy(more: seq<Op>, now: real) {
    more != [] ==> more[0].at <= now && (more[0].Took? ==> more[0].at == now)
  }

  lemma NewOpsDated(config: Config, st: State, i: nat)
    requires Enabled(config, st, Move(i)) && AllSteady(config, st.threads, st.clock)
    ensures DatedBy(NewOps(config, st, i), TimeOf(config, st, Move(i)))
  {
    hide Steady, DoneBy, Reserved, Base, Smaller, Estimate;
    var th := st.threads[i];
    assert PastOnly(config, th.point, th.ops, st.clock);
  }

  lemma MovedIs(config: Config, st: State, i: nat)
    requires Sized(config, st) && i < |st.threads|
    ensures var next, c, now := Moved(config, st, i), CallOf(config, st.threads[i]), TimeOf(config, st, Move(i));
            && Sized(config, next) && next.clock == now
            && |next.threads| == |st.threads| && next.threads == st.threads[i := next.threads[i]]
            && next.threads[i].ops == st.threads[i].ops + NewOps(config, st, i)
            && next.budget == (if c.NoCall? then st.budget
                               else st.budget[c.m := LedgersAfter(c, st.budget[c.m], config.limits[c.m], now)])
  {
    var th := st.threads[i];
    var c := CallOf(config, th);
    assert c.Reserving? ==> ReadsClock(config, th.point) by { hide Base, Smaller, Estimate; }
    hide CascadeSteps.Step, CallAt, Reserved, Released;
    StepCalls(config, th.world, th.call, th.point, ProgressOf(st, th));
  }

  lemma OneEntry(op: Op, m: string, u: Unit)
    ensures Entries([op], m, u) == if op.model != m then [] else [Entry(op.at, Amount(op, u))]
  {
    assert [] + [op] == [op];
    EntriesAppend([], op, m, u);
  }

  lemma HistoryGrows(history: seq<Entry>, ops: seq<Op>, more: seq<Op>, m: string, u: Unit, cutoff: real)
    requires |more| <= 1
    ensures LiveNet(ops + more, m, u, cutoff) - LiveNet(ops, m, u, cutoff)
         == Sum(Live(history + Entries(more, m, u), cutoff)) - Sum(Live(history, cutoff))
  {
    hide LiveNet, Amount, Live, Sum;
    assert history + [] == history;
    if more == [] {
      assert ops + more == ops;
    } else {
      assert more == [more[0]];
      hide Entries;
      OneEntry(more[0], m, u);
      LiveNetAppend(ops, more[0], m, u, cutoff);
      LivePost(history, Entry(more[0].at, Amount(more[0], u)), cutoff);
    }
  }

  lemma OrderGrows(history: seq<Entry>, more: seq<Op>, m: string, u: Unit, clock: real, now: real)
    requires ChargesInOrder(history) && NoneAfter(history, clock) && clock <= now
    requires |more| <= 1 && DatedBy(more, now)
    ensures ChargesInOrder(history + Entries(more, m, u)) && NoneAfter(history + Entries(more, m, u), now)
  {
    if more != [] && more[0].model == m {
      assert more == [more[0]];
      OneEntry(more[0], m, u);
      assert more[0].Gave? ==> Amount(more[0], u) <= 0;
      hide Entries, Amount;
    } else {
      assert more != [] ==> more[..0] == [];
      assert history + Entries(more, m, u) == history;
    }
  }

  lemma MoveKeepsHistory(history: seq<Entry>, threads: seq<Thread>, i: nat, th: Thread, more: seq<Op>, m: string,
                         u: Unit, clock: real, now: real)
    requires Kept(history, threads, m, u, clock) && clock <= now && i < |threads|
    requires th.ops == threads[i].ops + more && |more| <= 1 && DatedBy(more, now)
    ensures Kept(history + Entries(more, m, u), threads[i := th], m, u, now)
  {
    hide ChargesInOrder, NoneAfter, Live, Sum, Spread, Entries, LiveNet, DatedBy;
    OrderGrows(history, more, m, u, clock, now);
    forall cutoff: real
      ensures Sum(Live(history + Entries(more, m, u), cutoff)) == Spread(threads[i := th], m, u, cutoff)
    {
      HistoryGrows(history, threads[i].ops, more, m, u, cutoff);
      SpreadUpdate(threads, i, th, m, u, cutoff);
    }
  }

  lemma PostKeepsTracks(l: Ledgers, tokens: seq<Entry>, requests: seq<Entry>, clock: real, op: Op)
    requires SpendBound.Tracks(l, tokens, requests, clock)
    ensures SpendBound.Tracks(PostAll(l, op.at, Amount(op, Tokens), Amount(op, Requests)),
                              tokens + Entries([op], op.model, Tokens),
                              requests + Entries([op], op.model, Requests), clock)
  {
    hide SpendBound.Tracks, PostAll, Entries, Amount;
    OneEntry(op, op.model, Tokens);
    OneEntry(op, op.model, Requests);
    SpendBound.TracksPost(l, tokens, requests, clock, op.at, Amount(op, Tokens), Amount(op, Requests));
  }

  lemma CallKeepsTracks(l: Ledgers, tokens: seq<Entry>, requests: seq<Entry>, clock: real, c: BudgetCall, lim: Limits,
                        now: real)
    requires SpendBound.Tracks(l, tokens, requests, clock) && clock <= now && !c.NoCall?
    ensures var more := OpsOf(c, l, lim, now);
            SpendBound.Tracks(LedgersAfter(c, l, lim, now), tokens + Entries(more, c.m, Tokens),
                              requests + Entries(more, c.m, Requests), now)
  {
    hide SpendBound.Tracks, SettleAll, PostAll, Fits;
    if c.Releasing? {
      hide Entries;
      SpendBound.TracksLater(l, tokens, requests, clock, now);
      PostKeepsTracks(l, tokens, requests, now, Gave(c.m, c.est, c.at));
    } else {
      SpendBound.TracksSettle(l, tokens, requests, clock, now);
      PostKeepsTracks(SettleAll(l, now), tokens, requests, now, Took(c.m, c.est, now));
      assert tokens + [] == tokens && requests + [] == requests;
    }
  }

  lemma MoveKeepsTracks(config: Config, st: State, i: nat, m: string, tokens: seq<Entry>, requests: seq<Entry>)
    requires Enabled(config, st, Move(i)) && m in config.limits
    requires SpendBound.Tracks(st.budget[m], tokens, requests, st.clock)
    ensures var more, next := NewOps(config, st, i), Moved(config, st, i);
            && Sized(config, next)
            && SpendBound.Tracks(next.budget[m], tokens + Entries(more, m, Tokens),
                                 requests + Entries(more, m, Requests), TimeOf(config, st, Move(i)))
  {
    MovedIs(config, st, i);
    hide SpendBound.Tracks, LedgersAfter, OpsOf, Entries, Moved;
    var c, more, now := CallOf(config, st.threads[i]), NewOps(config, st, i), TimeOf(config, st, Move(i));
    if !c.NoCall? && c.m == m {
      CallKeepsTracks(st.budget[m], tokens, requests, st.clock, c, config.limits[m], now);
    } else {
      NoEntries(config, st, i, m);
      assert tokens + [] == tokens && requests + [] == requests;
      SpendBound.TracksLater(st.budget[m], tokens, requests, st.clock, now);
    }
  }

  lemma NoEntries(config: Config, st: State, i: nat, m: string)
    requires Sized(config, st) && i < |st.threads|
    requires CallOf(config, st.threads[i]).NoCall? || CallOf(config, st.threads[i]).m != m
    ensures forall u :: Entries(NewOps(config, st, i), m, u) == []
  {
    var more := NewOps(config, st, i);
    forall u ensures Entries(more, m, u) == [] {
      if more != [] {
        assert more == [more[0]];
        OneEntry(more[0], m, u);
      }
    }
  }

  lemma StillPast(config: Config, p: Point, ops: seq<Op>, clock: real, now: real)
    requires PastOnly(config, p, ops, clock) && clock <= now
    ensures PastOnly(config, p, ops, now)
  {
  }

  lemma MoveKeepsSteady(config: Config, st: State, i: nat)
    requires Enabled(config, st, Move(i)) && AllSteady(config, st.threads, st.clock)
    ensures AllSteady(config, Moved(config, st, i).threads, TimeOf(config, st, Move(i)))
  {
    MovedIs(config, st, i);
    NewOpsDated(config, st, i);
    var th, now, next := st.threads[i], TimeOf(config, st, Move(i)), Moved(config, st, i);
    MovedThread(config, st, i);
    hide Steady, Stamp, CascadeSteps.Step, CallAt, NewOps, DoneBy;
    StepKeepsSteady(config, th.world, th.call, th.point, ProgressOf(st, th));
    forall j | 0 <= j < |next.threads| ensures Steady(config, next.threads[j].point, next.threads[j].ops)
      && PastOnly(config, next.threads[j].point, next.threads[j].ops, now) {
      if j != i {
        StillPast(config, st.threads[j].point, st.threads[j].ops, st.clock, now);
      }
    }
  }

  /** The invoke that moved has done and read nothing in the future. */
  lemma MovedThread(config: Config, st: State, i: nat)
    requires Enabled(config, st, Move(i)) && AllSteady(config, st.threads, st.clock)
    ensures var th, next := st.threads[i], Moved(config, st, i).threads[i];
            PastOnly(config, next.point, next.ops, TimeOf(config, st, Move(i)))
    ensures DoneBy(st.threads[i].ops, TimeOf(config, st, Move(i)))
  {
    MovedIs(config, st, i);
    NewOpsDated(config, st, i);
    var th := st.threads[i];
    hide Steady, CascadeSteps.Step, CallAt, NewOps;
    StepReadsStamp(config, th.world, th.call, th.point, ProgressOf(st, th));
    assert th.point.Over? ==> CascadeSteps.Step(config, th.world, th.call, th.point, ProgressOf(st, th)).0.Over? by {
      OverStays(config, th.world, th.call, th.point, ProgressOf(st, th));
    }
    assert PastOnly(config, th.point, th.ops, st.clock);
  }

  lemma OverStays(config: Config, world: World, call: Call, p: Point, a: Progress)
    requires Fitting(config, a.s)
    ensures p.Over? ==> CascadeSteps.Step(config, world, call, p, a).0 == p
  {
  }

  lemma MoveKeepsInv(config: Config, st: State, i: nat, m: string, tokens: seq<Entry>, requests: seq<Entry>)
    requires Enabled(config, st, Move(i)) && Inv(config, st, m, tokens, requests)
    ensures var more := NewOps(config, st, i);
            Inv(config, Moved(config, st, i), m,
                tokens + Entries(more, m, Tokens), requests + Entries(more, m, Requests))
  {
    MovedIs(config, st, i);
    hide Kept, SpendBound.Tracks, AllSteady, Entries, NewOps, Moved, CallOf, LedgersAfter, DatedBy;
    var more, next, now := NewOps(config, st, i), Moved(config, st, i), TimeOf(config, st, Move(i));
    NewOpsDated(config, st, i);
    MoveKeepsTracks(config, st, i, m, tokens, requests);
    MoveKeepsSteady(config, st, i);
    MoveKeepsHistory(tokens, st.threads, i, next.threads[i], more, m, Tokens, st.clock, now);
    MoveKeepsHistory(requests, st.threads, i, next.threads[i], more, m, Requests, st.clock, now);
  }

  lemma WaitKeepsRest(config: Config, history: seq<Entry>, threads: seq<Thread>, m: string, u: Unit, clock: real,
                      now: real)
    requires Kept(history, threads, m, u, clock) && AllSteady(config, threads, clock) && clock <= now
    ensures Kept(history, threads, m, u, now) && AllSteady(config, threads, now)
  {
    hide Live, Sum, Spread, Steady, ChargesInOrder, PastOnly;
    forall i | 0 <= i < |threads| ensures PastOnly(config, threads[i].point, threads[i].ops, now) {
      StillPast(config, threads[i].point, threads[i].ops, clock, now);
    }
  }

  lemma QueryKeepsInv(config: Config, st: State, act: Act, m: string, tokens: seq<Entry>, requests: seq<Entry>)
    requires Enabled(config, st, act) && (act.Query? || act.DailyQuery?) && Inv(config, st, m, tokens, requests)
    ensures Inv(config, Next(config, st, act), m, tokens, requests)
  {
    hide Kept, AllSteady, SpendBound.Tracks, SettleAll, SettleDays;
    var later := SpendBound.Later(st.clock, act.now);
    WaitKeepsRest(config, tokens, st.threads, m, Tokens, st.clock, later);
    WaitKeepsRest(config, requests, st.threads, m, Requests, st.clock, later);
    SpendBound.TracksLater(st.budget[m], tokens, requests, st.clock, later);
    SpendBound.TracksSettle(st.budget[m], tokens, requests, st.clock, act.now);
  }

  lemma RepinKeepsInv(config: Config, st: State, act: Act, m: string, tokens: seq<Entry>, requests: seq<Entry>)
    requires Enabled(config, st, act) && act.Repin? && Inv(config, st, m, tokens, requests)
    ensures Inv(config, Next(config, st, act), m, tokens, requests)
  {
    var th := st.threads[act.i].(pinned := act.pin);
    RepinKeepsKept(tokens, st.threads, act.i, th, m, Tokens, st.clock);
    RepinKeepsKept(requests, st.threads, act.i, th, m, Requests, st.clock);
    hide Kept, SpendBound.Tracks, Steady, PastOnly;
  }

  lemma RepinKeepsKept(history: seq<Entry>, threads: seq<Thread>, i: nat, th: Thread, m: string, u: Unit, clock: real)
    requires Kept(history, threads, m, u, clock) && i < |threads| && th.ops == threads[i].ops
    ensures Kept(history, threads[i := th], m, u, clock)
  {
    hide Live, Sum, Spread, ChargesInOrder, NoneAfter, LiveNet;
    forall cutoff: real ensures Spread(threads[i := th], m, u, cutoff) == Spread(threads, m, u, cutoff) {
      SpreadUpdate(threads, i, th, m, u, cutoff);
    }
  }

  lemma {:induction false} NothingSpread(threads: seq<Thread>, m: string, u: Unit, cutoff: real)
    requires forall i :: 0 <= i < |threads| ==> threads[i].ops == []
    ensures Spread(threads, m, u, cutoff) == 0
  {
    if threads != [] {
      NothingSpread(threads[1..], m, u, cutoff);
    }
  }

  lemma NothingKept(threads: seq<Thread>, m: string, u: Unit, clock: real)
    requires forall i :: 0 <= i < |threads| ==> threads[i].ops == []
    ensures Kept([], threads, m, u, clock)
  {
    forall cutoff: real ensures Sum(Live([], cutoff)) == Spread(threads, m, u, cutoff) {
      NothingSpread(threads, m, u, cutoff);
    }
    hide Spread;
  }

  lemma OpeningInv(config: Config, st: State, m: string)
    requires Opening(config, st) && m in config.limits
    ensures Inv(config, st, m, [], [])
  {
    hide Kept, SpendBound.Tracks, AllSteady;
    NothingTracked(st.clock);
    NothingDone(config, st.threads, st.clock);
    NothingKept(st.threads, m, Tokens, st.clock);
    NothingKept(st.threads, m, Requests, st.clock);
  }

  lemma NothingTracked(clock: real)
    ensures SpendBound.Tracks(NO_USAGE, [], [], clock)
  {
    SpendBound.StartKeepsInv(clock);
    hide Refines;
  }

  lemma NothingDone(config: Config, threads: seq<Thread>, clock: real)
    requires forall i :: 0 <= i < |threads| ==> threads[i].point == Local && threads[i].ops == []
    ensures AllSteady(config, threads, clock)
  {
  }

  lemma NextKeepsInv(config: Config, st: State, act: Act, m: string, tokens: seq<Entry>, requests: seq<Entry>)
    returns (tokens': seq<Entry>, requests': seq<Entry>)
    requires Enabled(config, st, act) && Inv(config, st, m, tokens, requests)
    ensures Inv(config, Next(config, st, act), m, tokens', requests')
  {
    hide Inv, Moved;
    if act.Move? {
      MoveKeepsInv(config, st, act.i, m, tokens, requests);
      var more := NewOps(config, st, act.i);
      tokens', requests' := tokens + Entries(more, m, Tokens), requests + Entries(more, m, Requests);
    } else {
      tokens', requests' := tokens, requests;
      if act.Repin? {
        RepinKeepsInv(config, st, act, m, tokens, requests);
      } else {
        QueryKeepsInv(config, st, act, m, tokens, requests);
      }
    }
  }

  lemma {:induction false} RunKeepsInv(config: Config, acts: seq<Act>, states: seq<State>, k: nat, m: string)
    returns (tokens: seq<Entry>, requests: seq<Entry>)
    requires IsRun(config, acts, states) && k < |states| && m in config.limits
    ensures Inv(config, states[k], m, tokens, requests)
  {
    hide Inv, Enabled, Opening, Next;
    if k == 0 {
      tokens, requests := [], [];
      OpeningInv(config, states[0], m);
    } else {
      tokens, requests := RunKeepsInv(config, acts, states, k - 1, m);
      tokens, requests := NextKeepsInv(config, states[k - 1], acts[k - 1], m, tokens, requests);
    }
  }

  // -------------------------------------------------------- main results

  /** What the invokes hold inside a window less the releases there whose reservation has left. */
  function NetHeld(threads: seq<Thread>, m: string, u: Unit, cutoff: real): int {
    AllHeld(threads, m, u, cutoff) - AllOrphaned(threads, m, u, cutoff)
  }

  /** What the budget can see of that through one of its windows: less also what is stuck in its log. */
  function Seen(w: Window, threads: seq<Thread>, m: string, u: Unit, cutoff: real): int {
    NetHeld(threads, m, u, cutoff) - Stuck(w.log, cutoff)
  }

  ghost predicate TotalsAreSeen(l: Ledgers, threads: seq<Thread>, m: string, now: real) {
    var settled := SettleAll(l, now);
    && settled.minuteTokens.total == Seen(l.minuteTokens, threads, m, Tokens, now - MINUTE)
    && settled.minuteRequests.total == Seen(l.minuteRequests, threads, m, Requests, now - MINUTE)
    && settled.dayTokens.total == Seen(l.dayTokens, threads, m, Tokens, now - DAY)
    && settled.dayRequests.total == Seen(l.dayRequests, threads, m, Requests, now - DAY)
  }

  lemma WindowIsSeen(config: Config, w: Window, history: seq<Entry>, threads: seq<Thread>, m: string, u: Unit,
                     clock: real, now: real, width: real)
    requires Kept(history, threads, m, u, clock) && AllSteady(config, threads, clock) && clock <= now
    requires Refines(w, history, clock - width)
    ensures Settle(w, now - width).total == Seen(w, threads, m, u, now - width)
    ensures Stuck(w.log, now - width) >= 0
  {
    hide Refines, Settle, Live, Sum, ChargesInOrder, Spread, AllHeld, AllOrphaned, AllSteady, Stuck;
    SettledTotalIsLiveLessStuck(w, history, clock - width, now - width);
    SpreadIsHeld(config, threads, clock, m, u, now - width);
    SpendBound.WindowStuck(w, history, clock - width, now - width);
  }

  lemma SettledIsSeen(config: Config, st: State, m: string, tokens: seq<Entry>, requests: seq<Entry>, now: real)
    requires Inv(config, st, m, tokens, requests) && st.clock <= now
    ensures TotalsAreSeen(st.budget[m], st.threads, m, now)
    ensures SpendBound.OnlyReleasesStuck(st.budget[m], now)
  {
    hide Kept, AllSteady, Refines, Seen, Settle, Stuck;
    var l := st.budget[m];
    WindowIsSeen(config, l.minuteTokens, tokens, st.threads, m, Tokens, st.clock, now, MINUTE);
    WindowIsSeen(config, l.minuteRequests, requests, st.threads, m, Requests, st.clock, now, MINUTE);
    WindowIsSeen(config, l.dayTokens, tokens, st.threads, m, Tokens, st.clock, now, DAY);
    WindowIsSeen(config, l.dayRequests, requests, st.threads, m, Requests, st.clock, now, DAY);
  }

  /**
   In every state that any interleaving can reach, each model's four running
   totals, brought up to any later time, are exactly what the invokes hold on it
   inside the window less the releases still counted whose reservation has left:
   those inside it, and those stuck in the log, where only releases can be stuck.
   */
  lemma TotalsAreWhatInvokesHold(config: Config, acts: seq<Act>, states: seq<State>, k: nat, m: string, now: real)
    requires IsRun(config, acts, states) && k < |states| && m in config.limits && states[k].clock <= now
    ensures Sized(config, states[k]) && TotalsAreSeen(states[k].budget[m], states[k].threads, m, now)
    ensures SpendBound.OnlyReleasesStuck(states[k].budget[m], now)
  {
    hide IsRun, TotalsAreSeen, Kept, AllSteady, SpendBound.Tracks, SpendBound.OnlyReleasesStuck;
    var tokens, requests := RunKeepsInv(config, acts, states, k, m);
    SettledIsSeen(config, states[k], m, tokens, requests, now);
  }

  /**
   In every state that any interleaving can reach, an invoke that a limited Groq
   model has answered has appended one reservation of the estimate of what it
   sent, net of what it gave back; every other finished invoke has netted to
   nothing on every model; a running one holds what its present attempt reserved.
   */
  lemma InvokesConserveWhenInterleaved(config: Config, acts: seq<Act>, states: seq<State>, k: nat, i: nat, m: string,
                                       u: Unit)
    requires IsRun(config, acts, states) && k < |states| && i < |states[k].threads| && m in config.limits
    ensures Net(states[k].threads[i].ops, m, u) == Staked(config, states[k].threads[i].point, m, u)
  {
    hide IsRun, Net, Stake, Kept, SpendBound.Tracks;
    var tokens, requests := RunKeepsInv(config, acts, states, k, m);
    assert Steady(config, states[k].threads[i].point, states[k].threads[i].ops);
    hide Steady;
    SteadyHolds(config, states[k].threads[i].point, states[k].threads[i].ops, m, u, 0.0);
  }

  ghost predicate FitsSeen(l: Ledgers, threads: seq<Thread>, m: string, est: nat, lim: Limits, now: real) {
    && 5 * (Seen(l.minuteTokens, threads, m, Tokens, now - MINUTE) + est) <= 4 * lim.tpm
    && 5 * (Seen(l.minuteRequests, threads, m, Requests, now - MINUTE) + 1) <= 4 * lim.rpm
    && 5 * (Seen(l.dayTokens, threads, m, Tokens, now - DAY) + est) <= 4 * lim.tpd
    && 5 * (Seen(l.dayRequests, threads, m, Requests, now - DAY) + 1) <= 4 * lim.rpd
  }

  /** Spend within 80 % of the limit plus the releases still counted whose reservation has left the window. */
  ghost predicate WithinBound(w: Window, threads: seq<Thread>, m: string, u: Unit, limit: nat, cutoff: real) {
    5 * AllHeld(threads, m, u, cutoff) <= 4 * limit + 5 * (AllOrphaned(threads, m, u, cutoff) + Stuck(w.log, cutoff))
  }

  lemma GrantIsHeld(config: Config, threads: seq<Thread>, i: nat, th: Thread, op: Op, clock: real, u: Unit,
                    cutoff: real)
    requires i < |threads| && AllSteady(config, threads, clock) && AllSteady(config, threads[i := th], op.at)
    requires th.ops == threads[i].ops + [op] && op.at >= cutoff
    ensures NetHeld(threads[i := th], op.model, u, cutoff) == NetHeld(threads, op.model, u, cutoff) + Amount(op, u)
  {
    hide Spread, AllHeld, AllOrphaned, AllSteady, LiveNet, Amount;
    SpreadIsHeld(config, threads, clock, op.model, u, cutoff);
    SpreadIsHeld(config, threads[i := th], op.at, op.model, u, cutoff);
    SpreadUpdate(threads, i, th, op.model, u, cutoff);
    LiveNetAppend(threads[i].ops, op, op.model, u, cutoff);
  }

  ghost predicate AllWithinBound(l: Ledgers, threads: seq<Thread>, m: string, lim: Limits, now: real) {
    && WithinBound(l.minuteTokens, threads, m, Tokens, lim.tpm, now - MINUTE)
    && WithinBound(l.minuteRequests, threads, m, Requests, lim.rpm, now - MINUTE)
    && WithinBound(l.dayTokens, threads, m, Tokens, lim.tpd, now - DAY)
    && WithinBound(l.dayRequests, threads, m, Requests, lim.rpd, now - DAY)
  }

  lemma FitMeansBound(config: Config, l: Ledgers, threads: seq<Thread>, i: nat, th: Thread, m: string, est: nat,
                      lim: Limits, clock: real, now: real)
    requires i < |threads| && AllSteady(config, threads, clock) && AllSteady(config, threads[i := th], now)
    requires th.ops == threads[i].ops + [Took(m, est, now)] && FitsSeen(l, threads, m, est, lim, now)
    ensures AllWithinBound(l, threads[i := th], m, lim, now)
  {
    hide AllHeld, AllOrphaned, AllSteady, Stuck;
    var op := Took(m, est, now);
    GrantIsHeld(config, threads, i, th, op, clock, Tokens, now - MINUTE);
    GrantIsHeld(config, threads, i, th, op, clock, Requests, now - MINUTE);
    GrantIsHeld(config, threads, i, th, op, clock, Tokens, now - DAY);
    GrantIsHeld(config, threads, i, th, op, clock, Requests, now - DAY);
  }

  lemma FitsIsFitsSeen(l: Ledgers, threads: seq<Thread>, m: string, est: nat, lim: Limits, now: real)
    requires TotalsAreSeen(l, threads, m, now)
    ensures FitsSeen(l, threads, m, est, lim, now) == Fits(SettleAll(l, now), lim, est)
  {
    hide Seen, SettleAll;
  }

  /**
   Whichever invoke asks, and whatever the others are doing: it is granted its
   reservation if and only if that fits beside what the budget sees of all of
   them, and every grant leaves what they hold in each of the four windows within
   80 % of the limit plus the releases still counted whose reservation has left.
   */
  lemma GrantsStayWithinBound(config: Config, acts: seq<Act>, states: seq<State>, k: nat, i: nat, m: string, est: nat)
    requires IsRun(config, acts, states) && k < |acts| && acts[k] == Move(i) && i < |states[k].threads|
    requires CallOf(config, states[k].threads[i]) == Reserving(m, est)
    ensures var threads, next, l := states[k].threads, states[k + 1].threads, states[k].budget[m];
            var lim, now := config.limits[m], TimeOf(config, states[k], Move(i));
            && |next| == |threads|
            && (next[i].ops != threads[i].ops <==> FitsSeen(l, threads, m, est, lim, now))
            && (next[i].ops != threads[i].ops ==> next[i].ops == threads[i].ops + [Took(m, est, now)])
            && (next[i].ops != threads[i].ops ==> AllWithinBound(l, next, m, lim, now))
  {
    var st, lim, now := states[k], config.limits[m], TimeOf(config, states[k], Move(i));
    assert Enabled(config, st, acts[k]) && states[k + 1] == Moved(config, st, i);
    hide IsRun, Moved, CallOf;
    MovedIs(config, st, i);
    var tokens, requests := RunKeepsInv(config, acts, states, k, m);
    MoveKeepsSteady(config, st, i);
    hide Kept, AllSteady, TotalsAreSeen, FitsSeen, AllWithinBound;
    SettledIsSeen(config, st, m, tokens, requests, now);
    FitsIsFitsSeen(st.budget[m], st.threads, m, est, lim, now);
    hide Fits, SettleAll, PostAll, SpendBound.Tracks, SpendBound.OnlyReleasesStuck;
    if FitsSeen(st.budget[m], st.threads, m, est, lim, now) {
      FitMeansBound(config, st.budget[m], st.threads, i, states[k + 1].threads[i], m, est, lim, st.clock, now);
    }
  }
}
