/**
 The LLM cascade: pinned model, then round-robin pools (or flat tiers), then
 Ollama, then Anthropic, with every Groq attempt reserved against the shared
 budget and released when it fails.  Providers and the clock are arbitrary
 inputs.
 */
module Cascade {
  import opened Budget
  import opened Messages
  import opened RoundRobin
  import opened SlidingWindow
  import opened Wrappers
  import Compression

  datatype Reply = Answers | RetriableError | FatalError

  /** What the outside world does at its n-th consultation. */
  datatype World = World(reply: nat -> Reply, clock: nat -> real, ollamaUp: nat -> bool)

  datatype Ollama = Ollama(first: bool, numCtx: nat)

  datatype Config = Config(
    limits: map<string, Limits>,
    tiers: seq<string>,
    pools: seq<seq<string>>,
    ollama: Option<Ollama>,
    anthropic: bool,
    compressor: Compression.Config)

  datatype Call = Call(messages: seq<Message>, iteration: int)

  /** Everything an invoke may change. */
  datatype Snapshot = Snapshot(budget: map<string, Ledgers>, counters: seq<nat>, pinned: Option<string>)

  /** One entry appended to a model's four logs: a charge, or the compensation for one. */
  datatype Op = Took(model: string, tokens: nat, at: real) | Gave(model: string, tokens: nat, at: real)

  /** One model tried: whether it answered, and whether it ended the cascade with a fatal error. */
  datatype Attempt = Attempt(model: string, won: bool, raised: bool)

  /** A cascade in progress: the state, the next consultation, and what it has done so far. */
  datatype Progress = Progress(s: Snapshot, t: nat, ops: seq<Op>, tried: seq<Attempt>)

  datatype Verdict = Won(model: string, payload: seq<Message>) | Lost | Raised

  datatype Outcome =
    | Groq(model: string, payload: seq<Message>)
    | OllamaAnswered
    | AnthropicAnswered
    | Failed

  predicate Fitting(config: Config, s: Snapshot) {
    config.limits.Keys <= s.budget.Keys && |s.counters| == |config.pools|
  }

  /** Two points of a cascade that differ only in the budget and its trace. */
  predicate SameRoute(a: Progress, b: Progress) {
    a.s.counters == b.s.counters && a.s.pinned == b.s.pinned && a.tried == b.tried
  }

  // ------------------------------------------------------- one Groq model

  function ReserveIn(config: Config, world: World, m: string, est: nat, a: Progress): (r: (Progress, bool))
    requires Fitting(config, a.s)
    ensures Fitting(config, r.0.s) && SameRoute(a, r.0)
  {
    if m !in config.limits then (a, true)
    else
      var now := world.clock(a.t);
      var (ledgers, ok) := Reserved(a.s.budget[m], config.limits[m], est, now);
      var s := a.s.(budget := a.s.budget[m := ledgers]);
      (a.(s := s, t := a.t + 1, ops := if ok then a.ops + [Took(m, est, now)] else a.ops), ok)
  }

  function ReleaseIn(config: Config, world: World, m: string, est: nat, a: Progress): (b: Progress)
    requires Fitting(config, a.s)
    ensures Fitting(config, b.s) && SameRoute(a, b)
  {
    if m !in config.limits then a
    else
      var now := world.clock(a.t);
      var s := a.s.(budget := a.s.budget[m := Released(a.s.budget[m], est, now)]);
      a.(s := s, t := a.t + 1, ops := a.ops + [Gave(m, est, now)])
  }

  /** The provider call; any error gives the reservation back, a fatal one is raised again. */
  function CallIn(config: Config, world: World, m: string, payload: seq<Message>, a: Progress): (r: (Progress, Verdict))
    requires Fitting(config, a.s)
    ensures Fitting(config, r.0.s) && SameRoute(a, r.0)
  {
    var called := a.(t := a.t + 1);
    match world.reply(a.t)
    case Answers => (called, Won(m, payload))
    case RetriableError => (ReleaseIn(config, world, m, Estimate(payload), called), Lost)
    case FatalError => (ReleaseIn(config, world, m, Estimate(payload), called), Raised)
  }

  function Base(config: Config, call: Call): seq<Message> {
    Compression.Compressed(call.messages, config.compressor, call.iteration, None)
  }

  /** Recompressed towards 70 % of the model's tokens per minute. */
  function Tighter(config: Config, call: Call, m: string): seq<Message>
    requires m in config.limits
  {
    Compression.Compressed(call.messages, config.compressor, call.iteration, Some(config.limits[m].tpm * 7 / 10))
  }

  function AttemptIn(config: Config, world: World, call: Call, m: string, a: Progress): (r: (Progress, Verdict))
    requires Fitting(config, a.s)
    ensures Fitting(config, r.0.s) && SameRoute(a, r.0)
  {
    var first := Base(config, call);
    var (a1, ok1) := ReserveIn(config, world, m, Estimate(first), a);
    if ok1 then CallIn(config, world, m, first, a1)
    else
      var second := Tighter(config, call, m);
      var (a2, ok2) := ReserveIn(config, world, m, Estimate(second), a1);
      if ok2 then CallIn(config, world, m, second, a2) else (a2, Lost)
  }

  /** An attempt, noted in the list of models tried. */
  function TryIn(config: Config, world: World, call: Call, m: string, a: Progress): (r: (Progress, Verdict))
    requires Fitting(config, a.s)
    ensures Fitting(config, r.0.s) && r.0.s.counters == a.s.counters && r.0.s.pinned == a.s.pinned
  {
    var (a1, v) := AttemptIn(config, world, call, m, a);
    (a1.(tried := a1.tried + [Attempt(m, v.Won?, v.Raised?)]), v)
  }

  // ------------------------------------------------------------- cascade

  /** Models without a client are skipped; the first that wins or raises ends the search. */
  function TryList(config: Config, world: World, call: Call, ms: seq<string>, a: Progress): (r: (Progress, Verdict))
    requires Fitting(config, a.s)
    ensures Fitting(config, r.0.s)
    decreases |ms|
  {
    if ms == [] then (a, Lost)
    else if ms[0] !in config.tiers then TryList(config, world, call, ms[1..], a)
    else
      var (a1, v) := TryIn(config, world, call, ms[0], a);
      if v.Lost? then TryList(config, world, call, ms[1..], a1) else (a1, v)
  }

  function Advanced(counters: seq<nat>, k: nat, models: seq<string>): seq<nat>
    requires k < |counters|
  {
    if models == [] then counters else counters[k := counters[k] + 1]
  }

  /** Pools are asked for their order only when the cascade reaches them. */
  function TryPools(config: Config, world: World, call: Call, k: nat, a: Progress): (r: (Progress, Verdict))
    requires Fitting(config, a.s) && k <= |config.pools|
    ensures Fitting(config, r.0.s)
    decreases |config.pools| - k
  {
    if k == |config.pools| then (a, Lost)
    else
      var order := Rotation(config.pools[k], a.s.counters[k]);
      var a0 := a.(s := a.s.(counters := Advanced(a.s.counters, k, config.pools[k])));
      var (a1, v) := TryList(config, world, call, order, a0);
      if v.Lost? then TryPools(config, world, call, k + 1, a1) else (a1, v)
  }

  lemma OnePool(config: Config, world: World, call: Call, k: nat, a: Progress)
    requires Fitting(config, a.s) && k < |config.pools|
    ensures var order := Rotation(config.pools[k], a.s.counters[k]);
            var a0 := a.(s := a.s.(counters := Advanced(a.s.counters, k, config.pools[k])));
            var (a1, v) := TryList(config, world, call, order, a0);
            TryPools(config, world, call, k, a) == if v.Lost? then TryPools(config, world, call, k + 1, a1) else (a1, v)
  {
    hide TryList, Rotation;
  }

  lemma NoPool(config: Config, world: World, call: Call, a: Progress)
    requires Fitting(config, a.s)
    ensures TryPools(config, world, call, |config.pools|, a) == (a, Lost)
  {
  }

  function TryPinned(config: Config, world: World, call: Call, a: Progress): (r: (Progress, Verdict))
    requires Fitting(config, a.s)
    ensures Fitting(config, r.0.s)
  {
    if a.s.pinned.None? then (a, Lost)
    else
      var m := a.s.pinned.value;
      var (a1, v) := if m in config.tiers then TryIn(config, world, call, m, a) else (a, Lost);
      if v.Lost? then (a1.(s := a1.s.(pinned := None)), Lost) else (a1, v)
  }

  function TryGroq(config: Config, world: World, call: Call, a: Progress): (r: (Progress, Verdict))
    requires Fitting(config, a.s)
    ensures Fitting(config, r.0.s)
  {
    var (a1, v1) := TryPinned(config, world, call, a);
    if !v1.Lost? then (a1, v1)
    else
      var (a2, v2) := if config.pools != [] then TryPools(config, world, call, 0, a1)
                      else TryList(config, world, call, config.tiers, a1);
      if v2.Won? then (a2.(s := a2.s.(pinned := Some(v2.model))), v2) else (a2, v2)
  }

  /** Ollama answers if it is configured for this position, up, and the request fits its context. */
  function TryOllama(config: Config, world: World, call: Call, first: bool, a: Progress): (Progress, bool) {
    if config.ollama.None? || config.ollama.value.first != first || !world.ollamaUp(a.t)
       || Estimate(Base(config, call)) > config.ollama.value.numCtx then (a, false)
    else (a.(t := a.t + 1), world.reply(a.t).Answers?)
  }

  function Invoked(config: Config, world: World, call: Call, s: Snapshot): (r: (Progress, Outcome))
    requires Fitting(config, s)
    ensures Fitting(config, r.0.s)
  {
    var (a0, local) := TryOllama(config, world, call, true, Progress(s, 0, [], []));
    if local then (a0, OllamaAnswered)
    else
      var (a1, v) := TryGroq(config, world, call, a0);
      Finish(config, world, call, v, a1)
  }

  /** After the Groq models: a late Ollama, then Anthropic, then no provider is left. */
  function Finish(config: Config, world: World, call: Call, v: Verdict, a: Progress): (r: (Progress, Outcome))
    ensures r.0.s == a.s && r.0.ops == a.ops && r.0.tried == a.tried && r.0.t >= a.t
    ensures r.1.Groq? == v.Won?
    ensures v.Won? ==> r.1.model == v.model && r.1.payload == v.payload
    ensures v.Raised? ==> r.1.Failed?
  {
    match v
    case Won(m, payload) => (a, Groq(m, payload))
    case Raised => (a, Failed)
    case Lost =>
      var (a1, late) := TryOllama(config, world, call, false, a);
      if late then (a1, OllamaAnswered)
      else if !config.anthropic then (a1, Failed)
      else (a1.(t := a1.t + 1), if world.reply(a1.t).Answers? then AnthropicAnswered else Failed)
  }

  // -------------------------------------------------------- conservation

  /** The two units a model is limited in. */
  datatype Unit = Tokens | Requests

  function Amount(op: Op, u: Unit): int {
    var charged := if u.Tokens? then op.tokens else 1;
    if op.Took? then charged else 0 - charged
  }

  /** What a trace appends to the logs of model m that count in unit u. */
  function Entries(ops: seq<Op>, m: string, u: Unit): seq<Entry> {
    if ops == [] then []
    else
      var op := ops[|ops| - 1];
      Entries(ops[..|ops| - 1], m, u) + if op.model != m then [] else [Entry(op.at, Amount(op, u))]
  }

  function Net(ops: seq<Op>, m: string, u: Unit): int {
    Sum(Entries(ops, m, u))
  }

  lemma EntriesAppend(ops: seq<Op>, op: Op, m: string, u: Unit)
    ensures Entries(ops + [op], m, u)
         == if op.model != m then Entries(ops, m, u) else Entries(ops, m, u) + [Entry(op.at, Amount(op, u))]
  {
    assert (ops + [op])[..|ops|] == ops;
  }

  lemma NetAppend(ops: seq<Op>, op: Op, m: string, u: Unit)
    ensures Net(ops + [op], m, u) == Net(ops, m, u) + if op.model != m then 0 else Amount(op, u)
  {
    hide Entries;
    EntriesAppend(ops, op, m, u);
    SumConcat(Entries(ops, m, u), [Entry(op.at, Amount(op, u))]);
  }

  /** What a verdict leaves on the ledgers of a model. */
  function Charge(config: Config, v: Verdict, m: string, u: Unit): int {
    if !v.Won? || v.model != m || m !in config.limits then 0 else if u.Tokens? then Estimate(v.payload) else 1
  }

  /** From one point of the trace to another, every model's ledgers moved by exactly the winner's charge for
      what was sent to it. */
  ghost predicate Charges(config: Config, before: seq<Op>, after: seq<Op>, v: Verdict) {
    forall m: string, u: Unit :: Net(after, m, u) == Net(before, m, u) + Charge(config, v, m, u)
  }

  lemma LostThenCharges(config: Config, before: seq<Op>, between: seq<Op>, after: seq<Op>, v: Verdict)
    requires Charges(config, before, between, Lost) && Charges(config, between, after, v)
    ensures Charges(config, before, after, v)
  {
    hide Net, Estimate;
  }

  lemma NothingCharged(config: Config, ops: seq<Op>)
    ensures Charges(config, ops, ops, Lost)
  {
  }

  lemma CallCharges(config: Config, world: World, m: string, payload: seq<Message>, a: Progress, a1: Progress)
    requires Fitting(config, a.s) && Fitting(config, a1.s)
    requires (a1, true) == ReserveIn(config, world, m, Estimate(payload), a)
    ensures Charges(config, a.ops, CallIn(config, world, m, payload, a1).0.ops, CallIn(config, world, m, payload, a1).1)
  {
    hide Estimate, Reserved, Released, Net;
    var est := Estimate(payload);
    var (b, v) := CallIn(config, world, m, payload, a1);
    forall x: string, u: Unit ensures Net(b.ops, x, u) == Net(a.ops, x, u) + Charge(config, v, x, u) {
      NetAppend(a.ops, Took(m, est, world.clock(a.t)), x, u);
      NetAppend(a1.ops, Gave(m, est, world.clock(a1.t + 1)), x, u);
    }
  }

  lemma TryCharges(config: Config, world: World, call: Call, m: string, a: Progress)
    requires Fitting(config, a.s)
    ensures Charges(config, a.ops, TryIn(config, world, call, m, a).0.ops, TryIn(config, world, call, m, a).1)
  {
    hide Estimate, Reserved, CallIn, Base, Tighter, Net;
    var (a1, ok1) := ReserveIn(config, world, m, Estimate(Base(config, call)), a);
    if ok1 {
      CallCharges(config, world, m, Base(config, call), a, a1);
    } else {
      assert a1.ops == a.ops;
      var second := Tighter(config, call, m);
      var (a2, ok2) := ReserveIn(config, world, m, Estimate(second), a1);
      if ok2 {
        CallCharges(config, world, m, second, a1, a2);
      }
    }
  }

  lemma {:induction false} ListCharges(config: Config, world: World, call: Call, ms: seq<string>, a: Progress)
    requires Fitting(config, a.s)
    ensures Charges(config, a.ops, TryList(config, world, call, ms, a).0.ops, TryList(config, world, call, ms, a).1)
    decreases |ms|
  {
    hide TryIn, Charges, Fitting;
    if ms == [] {
      NothingCharged(config, a.ops);
    } else if ms[0] !in config.tiers {
      ListCharges(config, world, call, ms[1..], a);
    } else {
      TryCharges(config, world, call, ms[0], a);
      var (a1, v) := TryIn(config, world, call, ms[0], a);
      if v.Lost? {
        ListCharges(config, world, call, ms[1..], a1);
        var (a2, w) := TryList(config, world, call, ms[1..], a1);
        LostThenCharges(config, a.ops, a1.ops, a2.ops, w);
      }
    }
  }

  lemma {:induction false} PoolsCharge(config: Config, world: World, call: Call, k: nat, a: Progress)
    requires Fitting(config, a.s) && k <= |config.pools|
    ensures Charges(config, a.ops, TryPools(config, world, call, k, a).0.ops, TryPools(config, world, call, k, a).1)
    decreases |config.pools| - k
  {
    hide TryList, Charges, Rotation;
    if k == |config.pools| {
      NothingCharged(config, a.ops);
    } else {
      var order := Rotation(config.pools[k], a.s.counters[k]);
      var a0 := a.(s := a.s.(counters := Advanced(a.s.counters, k, config.pools[k])));
      ListCharges(config, world, call, order, a0);
      var (a1, v) := TryList(config, world, call, order, a0);
      if v.Lost? {
        PoolsCharge(config, world, call, k + 1, a1);
        var (a2, w) := TryPools(config, world, call, k + 1, a1);
        LostThenCharges(config, a.ops, a1.ops, a2.ops, w);
      }
    }
  }

  lemma GroqCharges(config: Config, world: World, call: Call, a: Progress)
    requires Fitting(config, a.s)
    ensures Charges(config, a.ops, TryGroq(config, world, call, a).0.ops, TryGroq(config, world, call, a).1)
  {
    hide TryIn, TryList, TryPools, Charges;
    NothingCharged(config, a.ops);
    if a.s.pinned.Some? {
      TryCharges(config, world, call, a.s.pinned.value, a);
    }
    var (a1, v1) := TryPinned(config, world, call, a);
    if v1.Lost? {
      PoolsCharge(config, world, call, 0, a1);
      ListCharges(config, world, call, config.tiers, a1);
      var (a2, v2) := TryGroq(config, world, call, a);
      LostThenCharges(config, a.ops, a1.ops, a2.ops, v2);
    }
  }

  /**
   The trace of one invoke nets to exactly one charge, of the estimate of what
   was actually sent, for the Groq model that answered, and to nothing for any
   other model; if Ollama or Anthropic answers or an error is raised, it nets
   to nothing anywhere.
   */
  lemma InvokeNets(config: Config, world: World, call: Call, s: Snapshot, m: string, u: Unit)
    requires Fitting(config, s)
    ensures var (a, outcome) := Invoked(config, world, call, s);
            Net(a.ops, m, u) == if outcome.Groq? then Charge(config, Won(outcome.model, outcome.payload), m, u) else 0
  {
    var (a0, local) := TryOllama(config, world, call, true, Progress(s, 0, [], []));
    assert Net(a0.ops, m, u) == 0;
    hide TryGroq, Net, Base, Estimate;
    if !local {
      GroqCharges(config, world, call, a0);
    }
  }
}
