/**
 The cascade one atomic step at a time: between any two steps other callers may
 use the shared budget and pools.  Taken alone the steps compute exactly what
 an undisturbed invoke does, and they always come to an end.
 */
module CascadeSteps {
  import opened Budget
  import opened Cascade
  import opened Messages
  import opened RoundRobin
  import opened SlidingWindow
  import opened Wrappers

  /** Where to go when an attempt has lost: drop the pin, or try these models and then the pools from k on. */
  datatype Resume = Unpin | Rest(ms: seq<string>, k: nat)

  /** How far the attempt on one model has come; a release reads the clock before it takes the lock. */
  datatype Phase =
    | Ask
    | AskAgain
    | Send(payload: seq<Message>)
    | GiveBack(payload: seq<Message>, fatal: bool)
    | Stamped(payload: seq<Message>, fatal: bool, at: real)

  datatype Point =
    | Local
    | Pin
    | Walk(ms: seq<string>, k: nat)
    | Try(m: string, phase: Phase, next: Resume)
    | Late
    | Paid
    | Over(outcome: Outcome)

  function Noted(a: Progress, m: string, v: Verdict): Progress {
    a.(tried := a.tried + [Attempt(m, v.Won?, v.Raised?)])
  }

  function Pinning(a: Progress, pin: Option<string>): Progress {
    a.(s := a.s.(pinned := pin))
  }

  function FirstWalk(config: Config): Point {
    Walk(if config.pools != [] then [] else config.tiers, 0)
  }

  function Resumed(config: Config, next: Resume, a: Progress): (Point, Progress) {
    match next
    case Unpin => (FirstWalk(config), Pinning(a, None))
    case Rest(ms, k) => (Walk(ms, k), a)
  }

  /** What a refused model is asked for next. */
  function Smaller(config: Config, call: Call, m: string): seq<Message> {
    if m in config.limits then Tighter(config, call, m) else Base(config, call)
  }

  /** The locked part of a release. */
  function ReleaseAt(config: Config, m: string, est: nat, at: real, a: Progress): (b: Progress)
    requires Fitting(config, a.s)
    ensures Fitting(config, b.s) && SameRoute(a, b)
  {
    if m !in config.limits then a
    else
      var s := a.s.(budget := a.s.budget[m := Released(a.s.budget[m], est, at)]);
      a.(s := s, ops := a.ops + [Gave(m, est, at)])
  }

  function WalkStep(config: Config, ms: seq<string>, k: nat, a: Progress): (r: (Point, Progress))
    requires Fitting(config, a.s)
    ensures Fitting(config, r.1.s)
  {
    if ms != [] then (if ms[0] in config.tiers then Try(ms[0], Ask, Rest(ms[1..], k)) else Walk(ms[1..], k), a)
    else if k < |config.pools| then
      (Walk(Rotation(config.pools[k], a.s.counters[k]), k + 1),
       a.(s := a.s.(counters := Advanced(a.s.counters, k, config.pools[k]))))
    else (Late, a)
  }

  function PinStep(config: Config, a: Progress): (Point, Progress) {
    if a.s.pinned.None? then (FirstWalk(config), a)
    else if a.s.pinned.value in config.tiers then (Try(a.s.pinned.value, Ask, Unpin), a)
    else (FirstWalk(config), Pinning(a, None))
  }

  function TryStep(config: Config, world: World, call: Call, m: string, phase: Phase, next: Resume, a: Progress)
    : (r: (Point, Progress))
    requires Fitting(config, a.s)
    ensures Fitting(config, r.1.s)
  {
    match phase
    case Ask =>
      var (b, ok) := ReserveIn(config, world, m, Estimate(Base(config, call)), a);
      (Try(m, if ok then Send(Base(config, call)) else AskAgain, next), b)
    case AskAgain =>
      var payload := Smaller(config, call, m);
      var (b, ok) := ReserveIn(config, world, m, Estimate(payload), a);
      if ok then (Try(m, Send(payload), next), b) else Resumed(config, next, Noted(b, m, Lost))
    case Send(payload) =>
      var b := a.(t := a.t + 1);
      if !world.reply(a.t).Answers? then (Try(m, GiveBack(payload, world.reply(a.t).FatalError?), next), b)
      else (Over(Groq(m, payload)), Noted(if next.Unpin? then b else Pinning(b, Some(m)), m, Won(m, payload)))
    case GiveBack(payload, fatal) =>
      (Try(m, Stamped(payload, fatal, world.clock(a.t)), next), if m in config.limits then a.(t := a.t + 1) else a)
    case Stamped(payload, fatal, at) =>
      var b := Noted(ReleaseAt(config, m, Estimate(payload), at, a), m, if fatal then Raised else Lost);
      if fatal then (Over(Failed), b) else Resumed(config, next, b)
  }

  function PaidStep(config: Config, world: World, a: Progress): (r: (Point, Progress))
    ensures r.0.Over? && r.1.s == a.s
  {
    if !config.anthropic then (Over(Failed), a)
    else (Over(if world.reply(a.t).Answers? then AnthropicAnswered else Failed), a.(t := a.t + 1))
  }

  function LocalStep(config: Config, world: World, call: Call, first: bool, a: Progress): (r: (Point, Progress))
    ensures r.1.s == a.s
  {
    var (b, up) := TryOllama(config, world, call, first, a);
    (if up then Over(OllamaAnswered) else if first then Pin else Paid, b)
  }

  /** One step: at most one call into the budget, one pool asked, or one provider called. */
  function Step(config: Config, world: World, call: Call, p: Point, a: Progress): (r: (Point, Progress))
    requires Fitting(config, a.s)
    ensures Fitting(config, r.1.s)
  {
    match p
    case Local => LocalStep(config, world, call, true, a)
    case Pin => PinStep(config, a)
    case Walk(ms, k) => WalkStep(config, ms, k, a)
    case Try(m, phase, next) => TryStep(config, world, call, m, phase, next, a)
    case Late => LocalStep(config, world, call, false, a)
    case Paid => PaidStep(config, world, a)
    case Over(_) => (p, a)
  }

  // --------------------------------------------------------- termination

  function Stage(p: Point): nat {
    match p
    case Local => 6
    case Pin => 5
    case Walk(_, _) => 3
    case Try(_, _, next) => if next.Unpin? then 4 else 3
    case Late => 2
    case Paid => 1
    case Over(_) => 0
  }

  function PoolsLeft(config: Config, p: Point): nat {
    var k := if p.Walk? then p.k else if p.Try? && p.next.Rest? then p.next.k else |config.pools|;
    if k <= |config.pools| then |config.pools| - k else 0
  }

  function ModelsLeft(p: Point): nat {
    if p.Walk? then |p.ms| else if p.Try? && p.next.Rest? then |p.next.ms| else 0
  }

  function PhasesLeft(p: Point): nat {
    if !p.Try? then 0
    else
      match p.phase
      case Ask => 5
      case AskAgain => 4
      case Send(_) => 3
      case GiveBack(_, _) => 2
      case Stamped(_, _, _) => 1
  }

  /** Closer to the end: later stage, then fewer pools, fewer models of this pool, fewer phases of this attempt. */
  predicate Closer(config: Config, q: Point, p: Point) {
    if Stage(q) != Stage(p) then Stage(q) < Stage(p)
    else if PoolsLeft(config, q) != PoolsLeft(config, p) then PoolsLeft(config, q) < PoolsLeft(config, p)
    else if ModelsLeft(q) != ModelsLeft(p) then ModelsLeft(q) < ModelsLeft(p)
    else PhasesLeft(q) < PhasesLeft(p)
  }

  /** Whatever others do meanwhile, every step brings an invoke closer to its end. */
  lemma StepDescends(config: Config, world: World, call: Call, p: Point, a: Progress)
    requires Fitting(config, a.s) && !p.Over?
    ensures Closer(config, Step(config, world, call, p, a).0, p)
  {
    hide Fitting, Base, Smaller, Estimate, ReserveIn, ReleaseIn, Rotation, TryOllama;
  }

  /** The steps of one invoke with nobody else in between. */
  function Alone(config: Config, world: World, call: Call, p: Point, a: Progress): (Progress, Outcome)
    requires Fitting(config, a.s)
    decreases Stage(p), PoolsLeft(config, p), ModelsLeft(p), PhasesLeft(p)
  {
    if p.Over? then (a, p.outcome)
    else
      hide Step, Stage, PoolsLeft, ModelsLeft, PhasesLeft;
      StepDescends(config, world, call, p, a);
      var (q, b) := Step(config, world, call, p, a);
      Alone(config, world, call, q, b)
  }

  // ------------------------------------------------- steps against invoke

  /** What an undisturbed invoke still does from a point on, in terms of the cascade's own functions. */
  function Walking(config: Config, world: World, call: Call, ms: seq<string>, k: nat, a: Progress): (Progress, Outcome)
    requires Fitting(config, a.s)
  {
    var (a1, v1) := TryList(config, world, call, ms, a);
    var (a2, v2) := if v1.Lost? && k <= |config.pools| then TryPools(config, world, call, k, a1) else (a1, v1);
    Finish(config, world, call, v2, if v2.Won? then Pinning(a2, Some(v2.model)) else a2)
  }

  function Judged(config: Config, world: World, call: Call, next: Resume, v: Verdict, a: Progress): (Progress, Outcome)
    requires Fitting(config, a.s)
  {
    if v.Lost? then
      var (q, b) := Resumed(config, next, a);
      Walking(config, world, call, q.ms, q.k, b)
    else Finish(config, world, call, v, if v.Won? && next.Rest? then Pinning(a, Some(v.model)) else a)
  }

  function Cascading(config: Config, world: World, call: Call, a: Progress): (Progress, Outcome)
    requires Fitting(config, a.s)
  {
    var (b, v) := TryGroq(config, world, call, a);
    Finish(config, world, call, v, b)
  }

  function Trying(config: Config, world: World, call: Call, m: string, phase: Phase, a: Progress)
    : (r: (Progress, Verdict))
    requires Fitting(config, a.s)
    ensures Fitting(config, r.0.s)
  {
    match phase
    case Ask => AttemptIn(config, world, call, m, a)
    case AskAgain =>
      var payload := Smaller(config, call, m);
      var (b, ok) := ReserveIn(config, world, m, Estimate(payload), a);
      if ok then CallIn(config, world, m, payload, b) else (b, Lost)
    case Send(payload) => CallIn(config, world, m, payload, a)
    case GiveBack(payload, fatal) =>
      (ReleaseIn(config, world, m, Estimate(payload), a), if fatal then Raised else Lost)
    case Stamped(payload, fatal, at) =>
      (ReleaseAt(config, m, Estimate(payload), at, a), if fatal then Raised else Lost)
  }

  function Onward(config: Config, world: World, call: Call, p: Point, a: Progress): (Progress, Outcome)
    requires Fitting(config, a.s)
  {
    match p
    case Local =>
      var (b, up) := TryOllama(config, world, call, true, a);
      if up then (b, OllamaAnswered) else Cascading(config, world, call, b)
    case Pin => Cascading(config, world, call, a)
    case Walk(ms, k) => Walking(config, world, call, ms, k, a)
    case Try(m, phase, next) =>
      var (b, v) := Trying(config, world, call, m, phase, a);
      Judged(config, world, call, next, v, Noted(b, m, v))
    case Late => Finish(config, world, call, Lost, a)
    case Paid =>
      var (q, b) := PaidStep(config, world, a);
      (b, q.outcome)
    case Over(outcome) => (a, outcome)
  }

  /** Starting on the pools, or on the flat tiers, is what comes after the pin. */
  lemma FirstWalking(config: Config, world: World, call: Call, a: Progress)
    requires Fitting(config, a.s)
    ensures var (b, v) := if config.pools != [] then TryPools(config, world, call, 0, a)
                          else TryList(config, world, call, config.tiers, a);
            Onward(config, world, call, FirstWalk(config), a)
            == Finish(config, world, call, v, if v.Won? then Pinning(b, Some(v.model)) else b)
  {
    hide TryIn, Finish, Rotation, Fitting;
  }

  lemma PinOnward(config: Config, world: World, call: Call, a: Progress)
    requires Fitting(config, a.s)
    ensures var (q, b) := PinStep(config, a);
            Onward(config, world, call, q, b) == Onward(config, world, call, Pin, a)
  {
    var (a1, v1) := TryPinned(config, world, call, a);
    hide AttemptIn, TryList, TryPools, Finish, Walking;
    FirstWalking(config, world, call, a1);
    if a.s.pinned.Some? && a.s.pinned.value in config.tiers {
      PinTried(config, world, call, a);
      hide Trying, Judged;
    }
  }

  /** The attempt on the pin, and what follows it. */
  lemma PinTried(config: Config, world: World, call: Call, a: Progress)
    requires Fitting(config, a.s) && a.s.pinned.Some? && a.s.pinned.value in config.tiers
    ensures var (a1, v1) := TryPinned(config, world, call, a);
            Onward(config, world, call, Try(a.s.pinned.value, Ask, Unpin), a)
            == if v1.Lost? then Onward(config, world, call, FirstWalk(config), a1)
               else Finish(config, world, call, v1, a1)
  {
    hide AttemptIn, Finish, Walking;
  }

  lemma WalkOnward(config: Config, world: World, call: Call, ms: seq<string>, k: nat, a: Progress)
    requires Fitting(config, a.s)
    ensures var (q, b) := WalkStep(config, ms, k, a);
            Onward(config, world, call, q, b) == Onward(config, world, call, Walk(ms, k), a)
  {
    hide AttemptIn, Finish, Rotation, Fitting;
  }

  lemma TryOnward(config: Config, world: World, call: Call, m: string, phase: Phase, next: Resume, a: Progress)
    requires Fitting(config, a.s)
    ensures var (q, b) := TryStep(config, world, call, m, phase, next, a);
            Onward(config, world, call, q, b) == Onward(config, world, call, Try(m, phase, next), a)
  {
    hide Walking, Base, Tighter, Estimate, Reserved, Released, TryOllama;
    if phase.GiveBack? || phase.Stamped? {
      hide TryStep, Trying, Onward;
      ReleaseOnward(config, world, call, m, phase, next, a);
    }
  }

  lemma ReleaseOnward(config: Config, world: World, call: Call, m: string, phase: Phase, next: Resume, a: Progress)
    requires Fitting(config, a.s) && (phase.GiveBack? || phase.Stamped?)
    ensures var (q, b) := TryStep(config, world, call, m, phase, next, a);
            Onward(config, world, call, q, b) == Onward(config, world, call, Try(m, phase, next), a)
  {
    hide Walking, Estimate, Released, TryOllama;
  }

  /** A step leaves what is still to come as it was. */
  lemma StepOnward(config: Config, world: World, call: Call, p: Point, a: Progress)
    requires Fitting(config, a.s)
    ensures var (q, b) := Step(config, world, call, p, a);
            Onward(config, world, call, q, b) == Onward(config, world, call, p, a)
  {
    hide Onward, WalkStep, PinStep, TryStep, LocalStep, PaidStep;
    match p
    case Walk(ms, k) => WalkOnward(config, world, call, ms, k, a);
    case Pin => PinOnward(config, world, call, a);
    case Try(m, phase, next) => TryOnward(config, world, call, m, phase, next, a);
    case Local => LocalOnward(config, world, call, a);
    case Late => LocalOnward(config, world, call, a);
    case Paid => PaidOnward(config, world, call, a);
    case Over(_) =>
  }

  lemma LocalOnward(config: Config, world: World, call: Call, a: Progress)
    requires Fitting(config, a.s)
    ensures var (q, b) := LocalStep(config, world, call, true, a);
            Onward(config, world, call, q, b) == Onward(config, world, call, Local, a)
    ensures var (q, b) := LocalStep(config, world, call, false, a);
            Onward(config, world, call, q, b) == Onward(config, world, call, Late, a)
  {
    hide TryOllama, Cascading;
  }

  lemma PaidOnward(config: Config, world: World, call: Call, a: Progress)
    requires Fitting(config, a.s)
    ensures var (q, b) := PaidStep(config, world, a);
            Onward(config, world, call, q, b) == Onward(config, world, call, Paid, a)
  {
  }

  lemma {:induction false} AloneIsOnward(config: Config, world: World, call: Call, p: Point, a: Progress)
    requires Fitting(config, a.s)
    ensures Alone(config, world, call, p, a) == Onward(config, world, call, p, a)
    decreases Stage(p), PoolsLeft(config, p), ModelsLeft(p), PhasesLeft(p)
  {
    hide Step, Stage, PoolsLeft, ModelsLeft, PhasesLeft;
    if !p.Over? {
      hide Onward;
      var (q, b) := Step(config, world, call, p, a);
      StepDescends(config, world, call, p, a);
      StepOnward(config, world, call, p, a);
      AloneIsOnward(config, world, call, q, b);
    }
  }

  /** The steps of an invoke that nobody disturbs end where the invoke does, with its outcome. */
  lemma AloneIsInvoked(config: Config, world: World, call: Call, s: Snapshot)
    requires Fitting(config, s)
    ensures Alone(config, world, call, Local, Progress(s, 0, [], [])) == Invoked(config, world, call, s)
  {
    hide TryGroq, TryOllama, Finish, Alone;
    AloneIsOnward(config, world, call, Local, Progress(s, 0, [], []));
  }

  // ------------------------------------------------- steps and the ledgers

  /** A reservation reads the clock under the lock; a release has read it before. */
  datatype BudgetCall = NoCall | Reserving(m: string, est: nat) | Releasing(m: string, est: nat, at: real)

  /** The call into the budget that a step makes. */
  function CallAt(config: Config, call: Call, p: Point): (c: BudgetCall)
    ensures !c.NoCall? ==> p.Try? && c.m == p.m && c.m in config.limits
  {
    if !p.Try? || p.m !in config.limits then NoCall
    else
      match p.phase
      case Ask => Reserving(p.m, Estimate(Base(config, call)))
      case AskAgain => Reserving(p.m, Estimate(Smaller(config, call, p.m)))
      case Send(_) => NoCall
      case GiveBack(_, _) => NoCall
      case Stamped(payload, _, at) => Releasing(p.m, Estimate(payload), at)
  }

  function LedgersAfter(c: BudgetCall, l: Ledgers, lim: Limits, now: real): Ledgers {
    match c
    case NoCall => l
    case Reserving(_, est) => Reserved(l, lim, est, now).0
    case Releasing(_, est, at) => Released(l, est, at)
  }

  function OpsOf(c: BudgetCall, l: Ledgers, lim: Limits, now: real): seq<Op> {
    match c
    case NoCall => []
    case Reserving(m, est) => if Reserved(l, lim, est, now).1 then [Took(m, est, now)] else []
    case Releasing(m, est, at) => [Gave(m, est, at)]
  }

  lemma TryCalls(config: Config, world: World, call: Call, m: string, phase: Phase, next: Resume, a: Progress)
    requires Fitting(config, a.s) && m in config.limits
    ensures var b, c := TryStep(config, world, call, m, phase, next, a).1, CallAt(config, call, Try(m, phase, next));
            var l, lim, now := a.s.budget[m], config.limits[m], world.clock(a.t);
            && b.s.budget == (if c.NoCall? then a.s.budget else a.s.budget[m := LedgersAfter(c, l, lim, now)])
            && b.ops == a.ops + OpsOf(c, l, lim, now)
  {
    hide Base, Estimate, Smaller, Reserved, Released;
  }

  /** All a step does to the budget and to the trace is its call. */
  lemma StepCalls(config: Config, world: World, call: Call, p: Point, a: Progress)
    requires Fitting(config, a.s)
    ensures var b, c := Step(config, world, call, p, a).1, CallAt(config, call, p);
            if c.NoCall? then b.s.budget == a.s.budget && b.ops == a.ops
            else
              var l, lim, now := a.s.budget[c.m], config.limits[c.m], world.clock(a.t);
              b.s.budget == a.s.budget[c.m := LedgersAfter(c, l, lim, now)] && b.ops == a.ops + OpsOf(c, l, lim, now)
  {
    hide Base, Estimate, Smaller, Reserved, Released, Rotation;
    if p.Try? && p.m in config.limits {
      hide TryStep;
      TryCalls(config, world, call, p.m, p.phase, p.next, a);
    }
  }

  /** The log is what pruning left of the old one and the new entries; the total moved with it. */
  ghost predicate Grew(before: Window, after: Window, entries: seq<Entry>) {
    && Suffix(after.log, before.log + entries)
    && after.total - Sum(after.log) == before.total - Sum(before.log)
  }

  ghost predicate Suffix(tail: seq<Entry>, log: seq<Entry>) {
    |tail| <= |log| && tail == log[|log| - |tail|..]
  }

  lemma GrewSettle(before: Window, w: Window, entries: seq<Entry>, cutoff: real)
    requires Grew(before, w, entries)
    ensures Grew(before, Settle(w, cutoff), entries)
  {
    hide Sum, Pruned;
    PrunedIsSuffix(w.log, cutoff);
  }

  lemma GrewPost(before: Window, w: Window, entries: seq<Entry>, at: real, amount: int)
    requires Grew(before, w, entries)
    ensures Grew(before, Post(w, at, amount), entries + [Entry(at, amount)])
  {
    var e := Entry(at, amount);
    SumOne(w.log, e);
    hide Sum, Suffix;
    SuffixAppend(w.log, before.log + entries, e);
    assert before.log + (entries + [e]) == (before.log + entries) + [e];
  }

  lemma SumOne(log: seq<Entry>, e: Entry)
    ensures Sum(log + [e]) == Sum(log) + e.amount
  {
    SumConcat(log, [e]);
  }

  lemma SuffixAppend(tail: seq<Entry>, log: seq<Entry>, e: Entry)
    requires Suffix(tail, log)
    ensures Suffix(tail + [e], log + [e])
  {
  }

  /** All four windows of model m have grown by the trace's entries. */
  ghost predicate LedgersGrew(before: Ledgers, after: Ledgers, ops: seq<Op>, m: string) {
    && Grew(before.minuteTokens, after.minuteTokens, Entries(ops, m, Tokens))
    && Grew(before.minuteRequests, after.minuteRequests, Entries(ops, m, Requests))
    && Grew(before.dayTokens, after.dayTokens, Entries(ops, m, Tokens))
    && Grew(before.dayRequests, after.dayRequests, Entries(ops, m, Requests))
  }

  lemma SettleGrows(before: Ledgers, l: Ledgers, ops: seq<Op>, m: string, now: real)
    requires LedgersGrew(before, l, ops, m)
    ensures LedgersGrew(before, SettleAll(l, now), ops, m)
  {
    hide Grew, Entries, Settle;
    var tokens, requests := Entries(ops, m, Tokens), Entries(ops, m, Requests);
    GrewSettle(before.minuteTokens, l.minuteTokens, tokens, now - MINUTE);
    GrewSettle(before.minuteRequests, l.minuteRequests, requests, now - MINUTE);
    GrewSettle(before.dayTokens, l.dayTokens, tokens, now - DAY);
    GrewSettle(before.dayRequests, l.dayRequests, requests, now - DAY);
  }

  lemma PostGrows(before: Ledgers, l: Ledgers, ops: seq<Op>, op: Op)
    requires LedgersGrew(before, l, ops, op.model)
    ensures LedgersGrew(before, PostAll(l, op.at, Amount(op, Tokens), Amount(op, Requests)), ops + [op], op.model)
  {
    hide Grew, Entries, Post, Amount;
    var tokens, requests := Entries(ops, op.model, Tokens), Entries(ops, op.model, Requests);
    EntriesAppend(ops, op, op.model, Tokens);
    EntriesAppend(ops, op, op.model, Requests);
    GrewPost(before.minuteTokens, l.minuteTokens, tokens, op.at, Amount(op, Tokens));
    GrewPost(before.minuteRequests, l.minuteRequests, requests, op.at, Amount(op, Requests));
    GrewPost(before.dayTokens, l.dayTokens, tokens, op.at, Amount(op, Tokens));
    GrewPost(before.dayRequests, l.dayRequests, requests, op.at, Amount(op, Requests));
  }

  lemma CallGrows(before: Ledgers, l: Ledgers, ops: seq<Op>, c: BudgetCall, lim: Limits, now: real)
    requires !c.NoCall? && LedgersGrew(before, l, ops, c.m)
    ensures LedgersGrew(before, LedgersAfter(c, l, lim, now), ops + OpsOf(c, l, lim, now), c.m)
  {
    hide LedgersGrew, SettleAll, PostAll, Fits;
    if c.Reserving? {
      SettleGrows(before, l, ops, c.m, now);
      PostGrows(before, SettleAll(l, now), ops, Took(c.m, c.est, now));
      assert ops + [] == ops;
    } else {
      PostGrows(before, l, ops, Gave(c.m, c.est, c.at));
    }
  }

  lemma OtherCallGrows(before: Ledgers, l: Ledgers, ops: seq<Op>, c: BudgetCall, other: Ledgers, lim: Limits, now: real,
                       m: string)
    requires !c.NoCall? && c.m != m && LedgersGrew(before, l, ops, m)
    ensures LedgersGrew(before, l, ops + OpsOf(c, other, lim, now), m)
  {
    hide Grew, Entries, Reserved;
    var more := OpsOf(c, other, lim, now);
    if more == [] {
      assert ops + more == ops;
    } else {
      assert more == [more[0]];
      EntriesAppend(ops, more[0], m, Tokens);
      EntriesAppend(ops, more[0], m, Requests);
    }
  }

  lemma StepGrows(config: Config, world: World, call: Call, p: Point, a: Progress, m: string, before: Ledgers)
    requires Fitting(config, a.s) && m in a.s.budget && LedgersGrew(before, a.s.budget[m], a.ops, m)
    ensures var b := Step(config, world, call, p, a).1;
            m in b.s.budget && LedgersGrew(before, b.s.budget[m], b.ops, m)
  {
    hide Step, LedgersGrew, CallAt, OpsOf, LedgersAfter;
    StepCalls(config, world, call, p, a);
    var c := CallAt(config, call, p);
    if !c.NoCall? {
      var l, lim, now := a.s.budget[c.m], config.limits[c.m], world.clock(a.t);
      if c.m == m {
        CallGrows(before, l, a.ops, c, lim, now);
      } else {
        OtherCallGrows(before, a.s.budget[m], a.ops, c, l, lim, now, m);
      }
    }
  }

  lemma {:induction false} AloneGrows(config: Config, world: World, call: Call, p: Point, a: Progress, m: string,
                                      before: Ledgers)
    requires Fitting(config, a.s) && m in a.s.budget && LedgersGrew(before, a.s.budget[m], a.ops, m)
    ensures var b := Alone(config, world, call, p, a).0;
            m in b.s.budget && LedgersGrew(before, b.s.budget[m], b.ops, m)
    decreases Stage(p), PoolsLeft(config, p), ModelsLeft(p), PhasesLeft(p)
  {
    hide Step, Stage, PoolsLeft, ModelsLeft, PhasesLeft, LedgersGrew;
    if !p.Over? {
      var (q, b) := Step(config, world, call, p, a);
      StepDescends(config, world, call, p, a);
      StepGrows(config, world, call, p, a, m, before);
      AloneGrows(config, world, call, q, b, m, before);
    }
  }

  lemma NothingGrew(l: Ledgers, m: string)
    ensures LedgersGrew(l, l, [], m)
  {
    assert l.minuteTokens.log + [] == l.minuteTokens.log && l.minuteRequests.log + [] == l.minuteRequests.log;
    assert l.dayTokens.log + [] == l.dayTokens.log && l.dayRequests.log + [] == l.dayRequests.log;
  }

  /**
   Cascade conservation, for any ledgers and any clock: one invoke appends to
   the four logs of every model exactly the traced entries, which sum to one
   reservation of the estimate of what was actually sent for the Groq model
   that answered, and to nothing for any other model; if Ollama or Anthropic
   answers or an error is raised, they sum to nothing everywhere.  Each total
   moves with its log.
   */
  lemma InvokeConserves(config: Config, world: World, call: Call, s: Snapshot, m: string)
    requires Fitting(config, s) && m in s.budget
    ensures var (a, outcome) := Invoked(config, world, call, s);
            var winner := outcome.Groq? && outcome.model == m && m in config.limits;
            && m in a.s.budget && LedgersGrew(s.budget[m], a.s.budget[m], a.ops, m)
            && Sum(Entries(a.ops, m, Tokens)) == (if winner then Estimate(outcome.payload) else 0)
            && Sum(Entries(a.ops, m, Requests)) == (if winner then 1 else 0)
  {
    InvokeNets(config, world, call, s, m, Tokens);
    InvokeNets(config, world, call, s, m, Requests);
    NothingGrew(s.budget[m], m);
    hide Invoked, Alone, LedgersGrew, Estimate, Entries, Sum;
    AloneIsInvoked(config, world, call, s);
    AloneGrows(config, world, call, Local, Progress(s, 0, [], []), m, s.budget[m]);
  }
}
