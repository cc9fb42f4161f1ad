/** The mutable cascade: its loops over pools, pin and budget, proved against the functions of module Cascade. */
module Fallback {
  import opened Budget
  import opened Cascade
  import opened Messages
  import opened RoundRobin
  import opened Wrappers

  class FallbackLLM {
    const config: Config
    const budget: TokenBudget
    const pools: seq<RoundRobinPool>
    var pinned: Option<string>

    ghost predicate Valid()
      reads this, budget
    {
      && budget.Valid() && budget.limits == config.limits
      && |pools| == |config.pools|
      && (forall i :: 0 <= i < |pools| ==> pools[i].models == config.pools[i])
      && (forall i, j :: 0 <= i < j < |pools| ==> pools[i] != pools[j])
    }

    ghost function Counters(): seq<nat>
      reads pools
    {
      seq(|pools|, i requires 0 <= i < |pools| reads pools => pools[i].counter)
    }

    ghost function State(): Snapshot
      reads this, budget, budget.state.Values, pools
    {
      Snapshot(budget.View(), Counters(), pinned)
    }

    constructor (config: Config, budget: TokenBudget, pools: seq<RoundRobinPool>)
      requires budget.Valid() && budget.limits == config.limits
      requires |pools| == |config.pools| && forall i :: 0 <= i < |pools| ==> pools[i].models == config.pools[i]
      requires forall i, j :: 0 <= i < j < |pools| ==> pools[i] != pools[j]
      ensures Valid() && this.config == config && this.budget == budget && this.pools == pools && pinned == None
    {
      this.config, this.budget, this.pools, pinned := config, budget, pools, None;
    }

    lemma StateFits()
      requires Valid()
      ensures Fitting(config, State())
    {
    }

    method SetPin(model: Option<string>)
      requires Valid()
      modifies this`pinned
      ensures Valid() && State() == old(State()).(pinned := model)
    {
      pinned := model;
    }

    method PinReset()
      requires Valid()
      modifies this`pinned
      ensures Valid() && State() == old(State()).(pinned := None)
    {
      SetPin(None);
    }

    /** One reservation; t counts the clock readings used so far, a is the cascade in progress. */
    method ReserveFor(world: World, m: string, est: nat, t: nat, ghost a: Progress)
      returns (ok: bool, t': nat, ghost b: Progress)
      requires Valid() && a.s == State() && a.t == t && Fitting(config, a.s)
      modifies budget.state.Values
      ensures Valid() && b.s == State() && b.t == t' && Fitting(config, b.s)
      ensures (b, ok) == ReserveIn(config, world, m, est, a)
    {
      hide Reserved;
      b := ReserveIn(config, world, m, est, a).0;
      ok := budget.Reserve(m, est, world.clock(t));
      t' := if m in config.limits then t + 1 else t;
    }

    method ReleaseFor(world: World, m: string, est: nat, t: nat, ghost a: Progress)
      returns (t': nat, ghost b: Progress)
      requires Valid() && a.s == State() && a.t == t && Fitting(config, a.s)
      modifies budget.state.Values
      ensures Valid() && b.s == State() && b.t == t' && Fitting(config, b.s)
      ensures b == ReleaseIn(config, world, m, est, a)
    {
      hide Released;
      b := ReleaseIn(config, world, m, est, a);
      budget.Release(m, est, world.clock(t));
      t' := if m in config.limits then t + 1 else t;
    }

    /** The provider call, with the reservation given back on any error. */
    method CallProvider(world: World, m: string, payload: seq<Message>, est: nat, t0: nat, ghost a: Progress)
      returns (v: Verdict, t: nat, ghost b: Progress)
      requires Valid() && a.s == State() && a.t == t0 && Fitting(config, a.s) && est == Estimate(payload)
      modifies budget.state.Values
      ensures Valid() && b.s == State() && b.t == t && Fitting(config, b.s)
      ensures (b, v) == CallIn(config, world, m, payload, a)
    {
      hide Estimate, State, Valid, ReleaseIn;
      var reply := world.reply(t0);
      t, b := t0 + 1, a.(t := a.t + 1);
      if reply.Answers? {
        v := Won(m, payload);
      } else {
        t, b := ReleaseFor(world, m, est, t, b);
        v := if reply.RetriableError? then Lost else Raised;
      }
    }

    method TryModel(world: World, call: Call, m: string, compressed: seq<Message>, est: nat, t0: nat, ghost a: Progress)
      returns (v: Verdict, t: nat, ghost b: Progress)
      requires Valid() && a.s == State() && a.t == t0 && Fitting(config, a.s)
      requires compressed == Base(config, call) && est == Estimate(compressed)
      modifies budget.state.Values
      ensures Valid() && b.s == State() && b.t == t && Fitting(config, b.s)
      ensures (b, v) == TryIn(config, world, call, m, a)
    {
      hide Estimate, Base, Tighter, State, Valid, CallIn, Reserved;
      var curCompressed, curEst, ok := compressed, est, false;
      ok, t, b := ReserveFor(world, m, curEst, t0, a);
      if !ok {
        var target := config.limits[m].tpm * 7 / 10;
        curCompressed := Compression.Compress(call.messages, config.compressor, call.iteration, Some(target));
        curEst := EstimateTokens(curCompressed);
        TighterIs(config, call, m);
        ok, t, b := ReserveFor(world, m, curEst, t, b);
        if !ok {
          b := b.(tried := b.tried + [Attempt(m, false, false)]);
          return Lost, t, b;
        }
      }
      v, t, b := CallProvider(world, m, curCompressed, curEst, t, b);
      b := b.(tried := b.tried + [Attempt(m, v.Won?, v.Raised?)]);
    }

    lemma TighterIs(config: Config, call: Call, m: string)
      requires m in config.limits
      ensures Tighter(config, call, m)
           == Compression.Compressed(call.messages, config.compressor, call.iteration,
                                     Some(config.limits[m].tpm * 7 / 10))
    {
    }

    /** The inner loop: the models of one pool in order, or the flat tiers. */
    method TryModels(world: World, call: Call, ms: seq<string>, compressed: seq<Message>, est: nat, t0: nat,
                     ghost a: Progress)
      returns (v: Verdict, t: nat, ghost b: Progress)
      requires Valid() && a.s == State() && a.t == t0 && Fitting(config, a.s)
      requires compressed == Base(config, call) && est == Estimate(compressed)
      modifies budget.state.Values
      ensures Valid() && b.s == State() && b.t == t && Fitting(config, b.s)
      ensures (b, v) == TryList(config, world, call, ms, a)
    {
      hide Estimate, Base, TryIn, State, Fitting;
      t, b := t0, a;
      assert ms[0..] == ms;
      for j := 0 to |ms|
        invariant Valid() && b.s == State() && b.t == t && Fitting(config, b.s)
        invariant TryList(config, world, call, ms[j..], b) == TryList(config, world, call, ms, a)
      {
        assert ms[j..][1..] == ms[j + 1..];
        if ms[j] in config.tiers {
          v, t, b := TryModel(world, call, ms[j], compressed, est, t, b);
          if !v.Lost? { return; }
        }
      }
      v := Lost;
    }

    /** The outer loop: each pool is asked for its order, which moves its counter. */
    method TryPool(world: World, call: Call, k: nat, compressed: seq<Message>, est: nat, t0: nat, ghost a: Progress)
      returns (v: Verdict, t: nat, ghost b: Progress)
      requires Valid() && a.s == State() && a.t == t0 && Fitting(config, a.s) && k < |pools|
      requires compressed == Base(config, call) && est == Estimate(compressed)
      modifies budget.state.Values, pools
      ensures Valid() && b.s == State() && b.t == t && Fitting(config, b.s)
      ensures var a0 := a.(s := a.s.(counters := Advanced(a.s.counters, k, config.pools[k])));
              (b, v) == TryList(config, world, call, Rotation(config.pools[k], a.s.counters[k]), a0)
    {
      hide Estimate, Base, TryList, Rotation;
      var order := NextOrder(k);
      b := a.(s := a.s.(counters := Advanced(a.s.counters, k, config.pools[k])));
      v, t, b := TryModels(world, call, order, compressed, est, t0, b);
    }

    method TryEachPool(world: World, call: Call, compressed: seq<Message>, est: nat, t0: nat, ghost a: Progress)
      returns (v: Verdict, t: nat, ghost b: Progress)
      requires Valid() && a.s == State() && a.t == t0 && Fitting(config, a.s)
      requires compressed == Base(config, call) && est == Estimate(compressed)
      modifies budget.state.Values, pools
      ensures Valid() && b.s == State() && b.t == t && Fitting(config, b.s)
      ensures (b, v) == TryPools(config, world, call, 0, a)
    {
      hide Estimate, Base, TryList, TryPools, Rotation;
      t, b := t0, a;
      for k := 0 to |pools|
        invariant Valid() && b.s == State() && b.t == t && Fitting(config, b.s)
        invariant TryPools(config, world, call, k, b) == TryPools(config, world, call, 0, a)
      {
        OnePool(config, world, call, k, b);
        v, t, b := TryPool(world, call, k, compressed, est, t, b);
        if !v.Lost? { return; }
      }
      NoPool(config, world, call, b);
      v := Lost;
    }

    method NextOrder(k: nat) returns (order: seq<string>)
      requires Valid() && k < |pools|
      modifies pools[k]
      ensures Valid() && pinned == old(pinned) && budget.View() == old(budget.View())
      ensures order == Rotation(config.pools[k], old(Counters())[k])
      ensures Counters() == Advanced(old(Counters()), k, config.pools[k])
    {
      hide Rotation;
      order := pools[k].OrderedModels();
    }

    /** The pinned model, unpinned again if it loses or has no client. */
    method TryPin(world: World, call: Call, compressed: seq<Message>, est: nat, t0: nat, ghost a: Progress)
      returns (v: Verdict, t: nat, ghost b: Progress)
      requires Valid() && a.s == State() && a.t == t0 && Fitting(config, a.s)
      requires compressed == Base(config, call) && est == Estimate(compressed)
      modifies this`pinned, budget.state.Values
      ensures Valid() && b.s == State() && b.t == t && Fitting(config, b.s)
      ensures (b, v) == TryPinned(config, world, call, a)
    {
      hide Estimate, Base, TryIn;
      v, t, b := Lost, t0, a;
      if pinned.Some? {
        if pinned.value in config.tiers {
          v, t, b := TryModel(world, call, pinned.value, compressed, est, t, b);
          if !v.Lost? { return; }
        }
        SetPin(None);
        b := b.(s := b.s.(pinned := None));
      }
    }

    /** Pinned model first, then the pools (or tiers); a winner is pinned. */
    method TryAllGroq(world: World, call: Call, compressed: seq<Message>, est: nat, t0: nat, ghost a: Progress)
      returns (v: Verdict, t: nat, ghost b: Progress)
      requires Valid() && a.s == State() && a.t == t0 && Fitting(config, a.s)
      requires compressed == Base(config, call) && est == Estimate(compressed)
      modifies this`pinned, budget.state.Values, pools
      ensures Valid() && b.s == State() && b.t == t && Fitting(config, b.s)
      ensures (b, v) == TryGroq(config, world, call, a)
    {
      hide Estimate, Base, TryPinned, TryList, TryPools, State;
      v, t, b := TryPin(world, call, compressed, est, t0, a);
      if !v.Lost? { return; }
      if pools != [] {
        v, t, b := TryEachPool(world, call, compressed, est, t, b);
      } else {
        v, t, b := TryModels(world, call, config.tiers, compressed, est, t, b);
      }
      if v.Won? {
        SetPin(Some(v.model));
        b := b.(s := b.s.(pinned := Some(v.model)));
      }
    }

    /** Ollama, if it is configured for this position, up, and has room; any error cascades on. */
    method TryLocal(world: World, call: Call, first: bool, est: nat, t0: nat, ghost a: Progress)
      returns (answered: bool, t: nat, ghost b: Progress)
      requires a.t == t0 && est == Estimate(Base(config, call))
      ensures answered == TryOllama(config, world, call, first, a).1
      ensures b == TryOllama(config, world, call, first, a).0 && b.t == t
      ensures b.s == a.s
    {
      hide Estimate, Base;
      answered, t, b := false, t0, a;
      if config.ollama.Some? && config.ollama.value.first == first {
        if world.ollamaUp(t) && est <= config.ollama.value.numCtx {
          answered := world.reply(t).Answers?;
          t, b := t + 1, a.(t := a.t + 1);
        }
      }
    }

    method FinishUp(world: World, call: Call, v: Verdict, est: nat, t0: nat, ghost a: Progress)
      returns (outcome: Outcome, ghost b: Progress)
      requires a.t == t0 && est == Estimate(Base(config, call))
      ensures outcome == Finish(config, world, call, v, a).1
      ensures b == Finish(config, world, call, v, a).0
    {
      hide Estimate, Base, TryOllama;
      b := Finish(config, world, call, v, a).0;
      if v.Won? { return Groq(v.model, v.payload), b; }
      if v.Raised? { return Failed, b; }
      var local, t, _ := TryLocal(world, call, false, est, t0, a);
      if local { return OllamaAnswered, b; }
      if !config.anthropic { return Failed, b; }
      outcome := if world.reply(t).Answers? then AnthropicAnswered else Failed;
    }

    method Route(world: World, call: Call, compressed: seq<Message>, est: nat, ghost s: Snapshot)
      returns (outcome: Outcome, ghost b: Progress)
      requires Valid() && s == State() && Fitting(config, s)
      requires compressed == Base(config, call) && est == Estimate(compressed)
      modifies this`pinned, budget.state.Values, pools
      ensures Valid() && b.s == State()
      ensures (b, outcome) == Invoked(config, world, call, s)
    {
      hide Estimate, Base, TryGroq, State, Valid, TryOllama, Fitting, Finish;
      var local, t;
      local, t, b := TryLocal(world, call, true, est, 0, Progress(s, 0, [], []));
      if local {
        outcome := OllamaAnswered;
      } else {
        var v;
        v, t, b := TryAllGroq(world, call, compressed, est, t, b);
        outcome, b := FinishUp(world, call, v, est, t, b);
      }
    }

    method Invoke(world: World, call: Call) returns (outcome: Outcome)
      requires Valid()
      modifies this`pinned, budget.state.Values, pools
      ensures Valid()
      ensures old(Fitting(config, State()))
      ensures var (a, result) := Invoked(config, world, call, old(State()));
              State() == a.s && outcome == result
    {
      StateFits();
      ghost var s, b := State(), Progress(State(), 0, [], []);
      hide Estimate, Base, State, Valid, Fitting, Invoked, Compression.Compressed;
      BaseIs(config, call);
      var compressed := Compression.Compress(call.messages, config.compressor, call.iteration, None);
      var est := EstimateTokens(compressed);
      outcome, b := Route(world, call, compressed, est, s);
    }

    lemma BaseIs(config: Config, call: Call)
      ensures Base(config, call) == Compression.Compressed(call.messages, config.compressor, call.iteration, None)
    {
    }
  }
}
