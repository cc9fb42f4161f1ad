/** Laws of the cascade beyond conservation: who answers, and what the pin does. */
module CascadeLaws {
  import opened Budget
  import opened Cascade
  import opened Messages
  import opened RoundRobin
  import opened Wrappers

  // ----------------------------------------------------- who answers first

  function WithClient(config: Config, ms: seq<string>): seq<string> {
    if ms == [] then []
    else (if ms[0] in config.tiers then [ms[0]] else []) + WithClient(config, ms[1..])
  }

  function PoolOrder(config: Config, counters: seq<nat>, k: nat): seq<string>
    requires |counters| == |config.pools| && k <= |config.pools|
    decreases |config.pools| - k
  {
    if k == |config.pools| then []
    else WithClient(config, Rotation(config.pools[k], counters[k])) + PoolOrder(config, counters, k + 1)
  }

  function PinOrder(config: Config, s: Snapshot): seq<string> {
    if s.pinned.Some? then WithClient(config, [s.pinned.value]) else []
  }

  /** Pin first, then each pool from its counter's position (or the flat tiers), models without a client left out. */
  function Order(config: Config, s: Snapshot): seq<string>
    requires Fitting(config, s)
  {
    PinOrder(config, s)
    + (if config.pools != [] then PoolOrder(config, s.counters, 0) else WithClient(config, config.tiers))
  }

  function Models(tried: seq<Attempt>): seq<string> {
    seq(|tried|, i requires 0 <= i < |tried| => tried[i].model)
  }

  /** They all lost: refused by the budget, or failed with an error that the cascade may get over. */
  ghost predicate AllLost(tried: seq<Attempt>) {
    forall i :: 0 <= i < |tried| ==> !tried[i].won && !tried[i].raised
  }

  /** The attempts walked down the order, stopping at the first that did not merely lose. */
  ghost predicate Walked(order: seq<string>, tried: seq<Attempt>, v: Verdict) {
    && |tried| <= |order| && Models(tried) == order[..|tried|]
    && (v.Lost? ==> |tried| == |order| && AllLost(tried))
    && (!v.Lost? ==> |tried| > 0 && AllLost(tried[..|tried| - 1]) && tried[|tried| - 1].won == v.Won?
                                  && tried[|tried| - 1].raised == v.Raised?)
    && (v.Won? ==> tried[|tried| - 1].model == v.model)
  }

  /** One progress extends another by some attempts. */
  ghost predicate Extends(a: Progress, b: Progress) {
    |a.tried| <= |b.tried| && b.tried[..|a.tried|] == a.tried
  }

  function NewlyTried(a: Progress, b: Progress): seq<Attempt>
    requires Extends(a, b)
  {
    b.tried[|a.tried|..]
  }

  lemma WalkFurther(o1: seq<string>, t1: seq<Attempt>, o2: seq<string>, t2: seq<Attempt>, v: Verdict)
    requires Walked(o1, t1, Lost) && Walked(o2, t2, v)
    ensures Walked(o1 + o2, t1 + t2, v)
  {
    var t, o := t1 + t2, o1 + o2;
    assert Models(t) == Models(t1) + Models(t2) == o[..|t|];
    if !v.Lost? {
      assert t[..|t| - 1] == t1 + t2[..|t2| - 1];
    }
  }

  lemma WalkNothing(a: Progress)
    ensures Extends(a, a) && NewlyTried(a, a) == [] && Walked([], [], Lost)
  {
    assert Models([]) == [];
  }

  lemma ExtendFurther(a: Progress, b: Progress, c: Progress)
    requires Extends(a, b) && Extends(b, c)
    ensures Extends(a, c) && NewlyTried(a, c) == NewlyTried(a, b) + NewlyTried(b, c)
  {
    assert c.tried == b.tried + NewlyTried(b, c) == a.tried + NewlyTried(a, b) + NewlyTried(b, c);
  }

  lemma WalkOne(config: Config, world: World, call: Call, m: string, a: Progress)
    requires Fitting(config, a.s)
    ensures var (b, v) := TryIn(config, world, call, m, a);
            Extends(a, b) && NewlyTried(a, b) == [Attempt(m, v.Won?, v.Raised?)] && Walked([m], NewlyTried(a, b), v)
  {
    hide AttemptIn, Fitting;
    var (b, v) := TryIn(config, world, call, m, a);
    AttemptNamesModel(config, world, call, m, a);
    assert NewlyTried(a, b) == [Attempt(m, v.Won?, v.Raised?)];
    assert Models(NewlyTried(a, b)) == [m];
  }

  lemma {:induction false} WalkList(config: Config, world: World, call: Call, ms: seq<string>, a: Progress)
    requires Fitting(config, a.s)
    ensures var (b, v) := TryList(config, world, call, ms, a);
            Extends(a, b) && Walked(WithClient(config, ms), NewlyTried(a, b), v)
    decreases |ms|
  {
    hide TryIn, Fitting, Walked, Extends, NewlyTried;
    if ms == [] {
      WalkNothing(a);
    } else if ms[0] !in config.tiers {
      WalkList(config, world, call, ms[1..], a);
      assert WithClient(config, ms) == WithClient(config, ms[1..]);
    } else {
      var (a1, v) := TryIn(config, world, call, ms[0], a);
      WalkOne(config, world, call, ms[0], a);
      var rest := WithClient(config, ms[1..]);
      if v.Lost? {
        WalkList(config, world, call, ms[1..], a1);
        var (b, w) := TryList(config, world, call, ms[1..], a1);
        WalkFurther([ms[0]], NewlyTried(a, a1), rest, NewlyTried(a1, b), w);
        ExtendFurther(a, a1, b);
      } else {
        WalkPrefix([ms[0]], rest, NewlyTried(a, a1), v);
      }
    }
  }

  lemma AttemptNamesModel(config: Config, world: World, call: Call, m: string, a: Progress)
    requires Fitting(config, a.s)
    ensures var (b, v) := AttemptIn(config, world, call, m, a); v.Won? ==> v.model == m
  {
  }

  lemma WalkPrefix(o1: seq<string>, o2: seq<string>, t: seq<Attempt>, v: Verdict)
    requires Walked(o1, t, v) && !v.Lost?
    ensures Walked(o1 + o2, t, v)
  {
    assert (o1 + o2)[..|t|] == o1[..|t|];
  }

  /** Visiting earlier pools leaves the later counters, and so the later order, alone. */
  lemma {:induction false} PoolOrderAfter(config: Config, counters: seq<nat>, next: seq<nat>, k: nat)
    requires |counters| == |next| == |config.pools| && k <= |config.pools|
    requires forall i :: k <= i < |counters| ==> counters[i] == next[i]
    ensures PoolOrder(config, counters, k) == PoolOrder(config, next, k)
    decreases |config.pools| - k
  {
    hide WithClient, Rotation;
    if k < |config.pools| {
      assert counters[k] == next[k];
      PoolOrderAfter(config, counters, next, k + 1);
    }
  }

  lemma {:induction false} ListKeepsCounters(config: Config, world: World, call: Call, ms: seq<string>, a: Progress)
    requires Fitting(config, a.s)
    ensures var b := TryList(config, world, call, ms, a).0;
            b.s.counters == a.s.counters && b.s.pinned == a.s.pinned
    decreases |ms|
  {
    if ms != [] {
      if ms[0] !in config.tiers {
        ListKeepsCounters(config, world, call, ms[1..], a);
      } else {
        var (a1, v) := TryIn(config, world, call, ms[0], a);
        if v.Lost? {
          ListKeepsCounters(config, world, call, ms[1..], a1);
        }
      }
    }
  }

  lemma {:induction false} WalkPools(config: Config, world: World, call: Call, k: nat, a: Progress)
    requires Fitting(config, a.s) && k <= |config.pools|
    ensures var (b, v) := TryPools(config, world, call, k, a);
            Extends(a, b) && Walked(PoolOrder(config, a.s.counters, k), NewlyTried(a, b), v)
    decreases |config.pools| - k
  {
    if k == |config.pools| {
      WalkNothing(a);
    } else {
      var order := Rotation(config.pools[k], a.s.counters[k]);
      var a0 := a.(s := a.s.(counters := Advanced(a.s.counters, k, config.pools[k])));
      var (a1, v) := TryList(config, world, call, order, a0);
      assert Extends(a0, a1) ==> Extends(a, a1) && NewlyTried(a, a1) == NewlyTried(a0, a1);
      hide TryList, Rotation, Walked, WithClient, Extends, NewlyTried;
      WalkList(config, world, call, order, a0);
      var here, later := WithClient(config, order), PoolOrder(config, a.s.counters, k + 1);
      if v.Lost? {
        ListKeepsCounters(config, world, call, order, a0);
        WalkPools(config, world, call, k + 1, a1);
        PoolOrderAfter(config, a.s.counters, a1.s.counters, k + 1);
        var (b, w) := TryPools(config, world, call, k + 1, a1);
        WalkFurther(here, NewlyTried(a, a1), later, NewlyTried(a1, b), w);
        ExtendFurther(a, a1, b);
      } else {
        WalkPrefix(here, later, NewlyTried(a, a1), v);
      }
    }
  }

  lemma WalkPinned(config: Config, world: World, call: Call, a: Progress)
    requires Fitting(config, a.s)
    ensures var (b, v) := TryPinned(config, world, call, a);
            && Extends(a, b) && b.s.counters == a.s.counters
            && Walked(PinOrder(config, a.s), NewlyTried(a, b), v)
  {
    if a.s.pinned.None? {
      WalkNothing(a);
    } else {
      var m := a.s.pinned.value;
      OneModelList(config, world, call, m, a);
      WalkList(config, world, call, [m], a);
      hide TryIn, TryList, Walked, WithClient;
    }
  }

  /** Trying a one-model list is trying that model, if it has a client. */
  lemma OneModelList(config: Config, world: World, call: Call, m: string, a: Progress)
    requires Fitting(config, a.s)
    ensures TryList(config, world, call, [m], a)
         == if m in config.tiers then TryIn(config, world, call, m, a) else (a, Lost)
  {
    assert [m][1..] == [];
    hide TryIn;
  }

  lemma WalkGroq(config: Config, world: World, call: Call, a: Progress)
    requires Fitting(config, a.s)
    ensures var (b, v) := TryGroq(config, world, call, a);
            Extends(a, b) && Walked(Order(config, a.s), NewlyTried(a, b), v)
  {
    hide Walked, TryPinned, TryPools, TryList, PoolOrder, WithClient;
    WalkPinned(config, world, call, a);
    var (a1, v1) := TryPinned(config, world, call, a);
    var head := PinOrder(config, a.s);
    var tail := if config.pools != [] then PoolOrder(config, a.s.counters, 0) else WithClient(config, config.tiers);
    if v1.Lost? {
      if config.pools != [] {
        WalkPools(config, world, call, 0, a1);
      } else {
        WalkList(config, world, call, config.tiers, a1);
      }
      var (b, v) := TryGroq(config, world, call, a);
      WalkFurther(head, NewlyTried(a, a1), tail, NewlyTried(a1, b), v);
      ExtendFurther(a, a1, b);
    } else {
      WalkPrefix(head, tail, NewlyTried(a, a1), v1);
    }
  }

  // ------------------------------------------------- who is asked, and when

  /** The request as it is sent at first: compressed without a target. */
  function Sent(config: Config, call: Call): seq<Message> {
    Compression.Compressed(call.messages, config.compressor, call.iteration, None)
  }

  /** Ollama is asked in this position at consultation t: configured for it, up, and the request fits its context. */
  predicate Asks(config: Config, world: World, call: Call, first: bool, t: nat) {
    && config.ollama.Some? && config.ollama.value.first == first && world.ollamaUp(t)
    && Estimate(Sent(config, call)) <= config.ollama.value.numCtx
  }

  predicate Serves(config: Config, world: World, call: Call, first: bool, t: nat) {
    Asks(config, world, call, first, t) && world.reply(t).Answers?
  }

  /** Who is left once every Groq model has lost, from consultation t on. */
  function AfterGroq(config: Config, world: World, call: Call, t: nat): Outcome {
    if Serves(config, world, call, false, t) then OllamaAnswered
    else if !config.anthropic then Failed
    else if world.reply(if Asks(config, world, call, false, t) then t + 1 else t).Answers? then AnthropicAnswered
    else Failed
  }

  /** A first Ollama that is up, has room and answers is the answer: no model is tried and nothing changes. */
  lemma OllamaFirstAnswers(config: Config, world: World, call: Call, s: Snapshot)
    requires Fitting(config, s) && Serves(config, world, call, true, 0)
    ensures Invoked(config, world, call, s) == (Progress(s, 1, [], []), OllamaAnswered)
  {
    hide TryGroq, Compression.Compressed, Estimate;
  }

  /** In every other case the Groq models decide, and after all of them have lost, whoever is left. */
  lemma GroqThenRest(config: Config, world: World, call: Call, s: Snapshot)
    requires Fitting(config, s) && !Serves(config, world, call, true, 0)
    ensures var (a, outcome) := Invoked(config, world, call, s);
            var start := Progress(s, if Asks(config, world, call, true, 0) then 1 else 0, [], []);
            var (b, v) := TryGroq(config, world, call, start);
            && a.s == b.s && a.ops == b.ops && a.tried == b.tried
            && outcome == match v
                          case Won(m, payload) => Groq(m, payload)
                          case Raised => Failed
                          case Lost => AfterGroq(config, world, call, b.t)
  {
    hide TryGroq, Compression.Compressed, Estimate;
  }

  /**
   Unless a first Ollama answers, the models are attempted in pin-then-pool order
   down to the first that answers or fails fatally, and no further: all before it
   have lost, its answer is the outcome, and its fatal error fails the invoke.  If
   none does, every model is attempted, and then Ollama, if it comes last, is up,
   has room and answers; or else Anthropic; or else nobody.
   */
  lemma FirstInOrderAnswers(config: Config, world: World, call: Call, s: Snapshot) returns (t: nat)
    requires Fitting(config, s) && !Serves(config, world, call, true, 0)
    ensures var (a, outcome) := Invoked(config, world, call, s);
            var n := |a.tried|;
            && n <= |Order(config, s)| && Models(a.tried) == Order(config, s)[..n]
            && (n > 0 ==> AllLost(a.tried[..n - 1]))
            && (outcome.Groq? <==> n > 0 && a.tried[n - 1].won)
            && (outcome.Groq? ==> a.tried[n - 1].model == outcome.model)
            && (n > 0 && a.tried[n - 1].raised ==> outcome == Failed)
            && (AllLost(a.tried)
                ==> n == |Order(config, s)| && t <= a.t && outcome == AfterGroq(config, world, call, t))
  {
    hide TryGroq, Order, Compression.Compressed, Estimate, AfterGroq;
    GroqThenRest(config, world, call, s);
    var a0 := Progress(s, if Asks(config, world, call, true, 0) then 1 else 0, [], []);
    WalkGroq(config, world, call, a0);
    var (b, v) := TryGroq(config, world, call, a0);
    t := b.t;
    assert NewlyTried(a0, b) == b.tried;
    NotLater(config, world, call, s, a0);
    if !v.Lost? {
      assert !AllLost(b.tried) by { assert !(!b.tried[|b.tried| - 1].won && !b.tried[|b.tried| - 1].raised); }
    }
  }

  lemma NotLater(config: Config, world: World, call: Call, s: Snapshot, a0: Progress)
    requires Fitting(config, s) && !Serves(config, world, call, true, 0)
    requires a0 == Progress(s, if Asks(config, world, call, true, 0) then 1 else 0, [], [])
    ensures TryGroq(config, world, call, a0).0.t <= Invoked(config, world, call, s).0.t
  {
    hide TryGroq, Compression.Compressed, Estimate;
  }

  /** Ollama answers only where it is configured, with room: first, with nothing tried and nothing changed; or last,
      with every model tried and lost. */
  lemma OllamaAnswersOnlyInPlace(config: Config, world: World, call: Call, s: Snapshot)
    requires Fitting(config, s) && Invoked(config, world, call, s).1 == OllamaAnswered
    ensures var a := Invoked(config, world, call, s).0;
            && config.ollama.Some? && Estimate(Sent(config, call)) <= config.ollama.value.numCtx
            && if config.ollama.value.first
               then a == Progress(s, 1, [], []) && world.ollamaUp(0) && world.reply(0).Answers?
               else Models(a.tried) == Order(config, s) && AllLost(a.tried)
  {
    hide Order, Compression.Compressed, Estimate, Invoked;
    if Serves(config, world, call, true, 0) {
      OllamaFirstAnswers(config, world, call, s);
    } else {
      var t := FirstInOrderAnswers(config, world, call, s);
      var a := Invoked(config, world, call, s).0;
      assert AllLost(a.tried) by { AllButLast(a.tried); }
      assert Order(config, s)[..|a.tried|] == Order(config, s);
    }
  }

  lemma AllButLast(tried: seq<Attempt>)
    ensures tried != [] && AllLost(tried[..|tried| - 1]) && !tried[|tried| - 1].won && !tried[|tried| - 1].raised
            ==> AllLost(tried)
  {
    if tried != [] {
      assert tried == tried[..|tried| - 1] + [tried[|tried| - 1]];
    }
  }

  // --------------------------------------------------------- one attempt

  /** What a reply makes of an attempt that was sent. */
  function Judge(reply: Reply, m: string, payload: seq<Message>): Verdict {
    match reply
    case Answers => Won(m, payload)
    case RetriableError => Lost
    case FatalError => Raised
  }

  /** The retry is compressed towards 70 % of the model's tokens per minute, rounded down. */
  lemma RetryTarget(config: Config, call: Call, m: string, target: nat)
    requires m in config.limits && 10 * target <= 7 * config.limits[m].tpm < 10 * target + 10
    ensures Tighter(config, call, m)
         == Compression.Compressed(call.messages, config.compressor, call.iteration, Some(target))
  {
    assert config.limits[m].tpm * 7 / 10 == target;
    hide Compression.Compressed;
  }

  /**
   One attempt: the compressed request is sent if the budget grants it, or if the
   model has no limits; if it is refused, the tighter one is sent if that is
   granted; and only what was sent can win, or fail fatally, by the provider's own
   reply.  A retriable error, like two refusals, loses the attempt.
   */
  lemma AttemptAnswers(config: Config, world: World, call: Call, m: string, a: Progress)
    requires Fitting(config, a.s)
    ensures var v := TryIn(config, world, call, m, a).1;
            if m !in config.limits then v == Judge(world.reply(a.t), m, Sent(config, call))
            else
              var lim, base, tighter := config.limits[m], Sent(config, call), Tighter(config, call, m);
              var (l1, first) := Reserved(a.s.budget[m], lim, Estimate(base), world.clock(a.t));
              var second := Reserved(l1, lim, Estimate(tighter), world.clock(a.t + 1)).1;
              v == if first then Judge(world.reply(a.t + 1), m, base)
                   else if second then Judge(world.reply(a.t + 2), m, tighter) else Lost
  {
    hide Reserved, Released, Estimate, Compression.Compressed, Tighter;
  }

  // ---------------------------------------------------------------- counters

  /** How many attempts the pools from k up to j make when all of them lose. */
  function Offset(config: Config, counters: seq<nat>, k: nat, j: nat): nat
    requires |counters| == |config.pools| && k <= j <= |config.pools|
    decreases j - k
  {
    if k == j then 0
    else |WithClient(config, Rotation(config.pools[k], counters[k]))| + Offset(config, counters, k + 1, j)
  }

  /** After these attempts the walk got past the first n: it went on, or it is there and everything has lost. */
  ghost predicate GotPast(tried: seq<Attempt>, n: nat) {
    |tried| > n || (|tried| == n && AllLost(tried))
  }

  /** A counter that moves by one if its pool was reached and has models, and stays otherwise. */
  ghost predicate MovedIf(config: Config, before: seq<nat>, after: seq<nat>, j: nat, reached: bool)
    requires j < |config.pools| == |before| == |after|
  {
    after[j] == before[j] + if reached && config.pools[j] != [] then 1 else 0
  }

  lemma GotPastAll(t1: seq<Attempt>, t2: seq<Attempt>, n: nat)
    requires AllLost(t1)
    ensures GotPast(t1 + t2, |t1| + n) <==> GotPast(t2, n)
  {
    if AllLost(t2) {
      assert AllLost(t1 + t2);
    } else {
      var i :| 0 <= i < |t2| && (t2[i].won || t2[i].raised);
      assert (t1 + t2)[|t1| + i] == t2[i];
    }
  }

  /** Losing in one pool hands what is left of the offset to the next. */
  lemma PastLostPool(config: Config, before: seq<nat>, next: seq<nat>, k: nat, j: nat, t1: seq<Attempt>,
                     t2: seq<Attempt>)
    requires |before| == |next| == |config.pools| && k < |config.pools| && j < |config.pools|
    requires forall i :: k < i < |before| ==> before[i] == next[i]
    requires Walked(WithClient(config, Rotation(config.pools[k], before[k])), t1, Lost)
    ensures k < j ==> (GotPast(t1 + t2, Offset(config, before, k, j)) <==> GotPast(t2, Offset(config, next, k + 1, j)))
  {
    hide Rotation, WithClient, GotPast;
    if k < j {
      OffsetAfter(config, before, next, k + 1, j);
      GotPastAll(t1, t2, Offset(config, before, k + 1, j));
    }
  }

  lemma {:induction false} OffsetAfter(config: Config, counters: seq<nat>, next: seq<nat>, k: nat, j: nat)
    requires |counters| == |next| == |config.pools| && k <= j <= |config.pools|
    requires forall i :: k <= i < |counters| ==> counters[i] == next[i]
    ensures Offset(config, counters, k, j) == Offset(config, next, k, j)
    decreases j - k
  {
    hide WithClient, Rotation;
    if k < j {
      assert counters[k] == next[k];
      OffsetAfter(config, counters, next, k + 1, j);
    }
  }

  /** A pool that ended the walk is the last one reached. */
  lemma StoppedInPool(config: Config, counters: seq<nat>, k: nat, j: nat, tried: seq<Attempt>, v: Verdict)
    requires |counters| == |config.pools| && k < |config.pools| && j < |config.pools|
    requires Walked(WithClient(config, Rotation(config.pools[k], counters[k])), tried, v) && !v.Lost?
    ensures j > k ==> !GotPast(tried, Offset(config, counters, k, j))
  {
    hide WithClient, Rotation, Walked, AllLost;
    NotAllLost(WithClient(config, Rotation(config.pools[k], counters[k])), tried, v);
  }

  lemma {:induction false} PoolsMoveCounters(config: Config, world: World, call: Call, k: nat, j: nat, a: Progress)
    requires Fitting(config, a.s) && k <= |config.pools| && j < |config.pools|
    ensures var b := TryPools(config, world, call, k, a).0;
            Extends(a, b) && MovedIf(config, a.s.counters, b.s.counters, j,
                                     j >= k && GotPast(NewlyTried(a, b), Offset(config, a.s.counters, k, j)))
    decreases |config.pools| - k
  {
    hide TryPools, TryList, Rotation, Walked, WithClient, Extends, NewlyTried, GotPast, Offset;
    WalkPools(config, world, call, k, a);
    if k < |config.pools| {
      OnePool(config, world, call, k, a);
      var order := Rotation(config.pools[k], a.s.counters[k]);
      var a0 := a.(s := a.s.(counters := Advanced(a.s.counters, k, config.pools[k])));
      var (a1, v) := TryList(config, world, call, order, a0);
      WalkList(config, world, call, order, a0);
      ListKeepsCounters(config, world, call, order, a0);
      SameTried(a, a0, a1, a1);
      var b := TryPools(config, world, call, k, a).0;
      if v.Lost? {
        PoolsMoveCounters(config, world, call, k + 1, j, a1);
        ExtendFurther(a, a1, b);
        PastLostPool(config, a.s.counters, a1.s.counters, k, j, NewlyTried(a, a1), NewlyTried(a1, b));
      } else {
        StoppedInPool(config, a.s.counters, k, j, NewlyTried(a, a1), v);
      }
      FirstIsReached(config, a.s.counters, k, NewlyTried(a, b));
    } else {
      NoPool(config, world, call, a);
    }
  }

  lemma SameTried(a: Progress, a': Progress, b: Progress, b': Progress)
    requires a.tried == a'.tried && b.tried == b'.tried && Extends(a', b')
    ensures Extends(a, b) && NewlyTried(a, b) == NewlyTried(a', b')
  {
  }

  lemma FirstIsReached(config: Config, counters: seq<nat>, k: nat, tried: seq<Attempt>)
    requires |counters| == |config.pools| && k <= |config.pools|
    ensures GotPast(tried, Offset(config, counters, k, k))
  {
  }

  lemma GroqMovesCounters(config: Config, world: World, call: Call, j: nat, a: Progress)
    requires Fitting(config, a.s) && j < |config.pools|
    ensures var b := TryGroq(config, world, call, a).0;
            Extends(a, b) && MovedIf(config, a.s.counters, b.s.counters, j,
                                     GotPast(NewlyTried(a, b),
                                             |PinOrder(config, a.s)| + Offset(config, a.s.counters, 0, j)))
  {
    hide TryPinned, TryPools, TryList, Offset, WithClient, Extends, NewlyTried, AllLost;
    WalkPinned(config, world, call, a);
    var (a1, v) := TryPinned(config, world, call, a);
    if v.Lost? {
      PoolsMoveCounters(config, world, call, 0, j, a1);
      var b := TryGroq(config, world, call, a).0;
      SameTried(a1, a1, b, TryPools(config, world, call, 0, a1).0);
      ExtendFurther(a, a1, b);
      hide GotPast, TryGroq;
      GotPastAll(NewlyTried(a, a1), NewlyTried(a1, b), Offset(config, a.s.counters, 0, j));
    } else {
      NotAllLost(PinOrder(config, a.s), NewlyTried(a, a1), v);
    }
  }

  lemma NotAllLost(order: seq<string>, tried: seq<Attempt>, v: Verdict)
    requires Walked(order, tried, v) && !v.Lost?
    ensures !AllLost(tried) && |tried| <= |order|
  {
    assert tried[|tried| - 1].won || tried[|tried| - 1].raised;
  }

  /**
   An invoke moves a pool's counter by one if and only if it gets to that pool:
   no first Ollama answers, and the pin and the pools before it have all lost,
   those models of theirs that have a client.
   */
  lemma CounterMovesIfReached(config: Config, world: World, call: Call, s: Snapshot, j: nat)
    requires Fitting(config, s) && j < |config.pools|
    ensures var a := Invoked(config, world, call, s).0;
            MovedIf(config, s.counters, a.s.counters, j,
                    && !Serves(config, world, call, true, 0)
                    && GotPast(a.tried, |PinOrder(config, s)| + Offset(config, s.counters, 0, j)))
  {
    hide TryGroq, Base, Compression.Compressed, Estimate, GotPast, Offset, PinOrder;
    if Serves(config, world, call, true, 0) {
      OllamaFirstAnswers(config, world, call, s);
    } else {
      GroqThenRest(config, world, call, s);
      var a0 := Progress(s, if Asks(config, world, call, true, 0) then 1 else 0, [], []);
      GroqMovesCounters(config, world, call, j, a0);
      var b := TryGroq(config, world, call, a0).0;
      assert NewlyTried(a0, b) == b.tried;
    }
  }

  // ----------------------------------------------------------------- pinning

  lemma {:induction false} PoolsKeepPin(config: Config, world: World, call: Call, k: nat, a: Progress)
    requires Fitting(config, a.s) && k <= |config.pools|
    ensures TryPools(config, world, call, k, a).0.s.pinned == a.s.pinned
    decreases |config.pools| - k
  {
    if k < |config.pools| {
      var order := Rotation(config.pools[k], a.s.counters[k]);
      var a0 := a.(s := a.s.(counters := Advanced(a.s.counters, k, config.pools[k])));
      ListKeepsCounters(config, world, call, order, a0);
      hide TryList, Rotation;
      PoolsKeepPin(config, world, call, k + 1, TryList(config, world, call, order, a0).0);
    }
  }

  /** A fatal error of the pinned model itself leaves it pinned. */
  predicate PinRaised(config: Config, pinned: Option<string>, tried: seq<Attempt>) {
    pinned.Some? && pinned.value in config.tiers && tried != [] && tried[0].raised
  }

  lemma PinAfterGroq(config: Config, world: World, call: Call, a: Progress)
    requires Fitting(config, a.s) && a.tried == []
    ensures var (b, v) := TryGroq(config, world, call, a);
            b.s.pinned == if v.Won? then Some(v.model)
                          else if PinRaised(config, a.s.pinned, b.tried) then a.s.pinned else None
  {
    hide AttemptIn, TryPools, TryList;
    var (a1, v1) := TryPinned(config, world, call, a);
    if v1.Lost? {
      PoolsKeepPin(config, world, call, 0, a1);
      ListKeepsCounters(config, world, call, config.tiers, a1);
      if a.s.pinned.Some? && a.s.pinned.value in config.tiers {
        LostPinIsOnRecord(config, world, call, a);
      }
    } else {
      AttemptNamesModel(config, world, call, a.s.pinned.value, a);
    }
  }

  /** A Groq answer leaves its model pinned; otherwise no pin is left, unless a first Ollama answered or the pinned
      model itself failed fatally, when it stays as it was. */
  lemma AnswerIsPinned(config: Config, world: World, call: Call, s: Snapshot)
    requires Fitting(config, s)
    ensures var (a, outcome) := Invoked(config, world, call, s);
            a.s.pinned == if outcome.Groq? then Some(outcome.model)
                          else if Serves(config, world, call, true, 0) || PinRaised(config, s.pinned, a.tried)
                          then s.pinned else None
  {
    hide TryGroq, Base, Compression.Compressed, Estimate, PinRaised;
    if !Serves(config, world, call, true, 0) {
      GroqThenRest(config, world, call, s);
      PinAfterGroq(config, world, call, Progress(s, if Asks(config, world, call, true, 0) then 1 else 0, [], []));
    } else {
      OllamaFirstAnswers(config, world, call, s);
    }
  }

  /** The pinned model is tried first and answers. */
  ghost predicate PinAnswers(config: Config, world: World, call: Call, s: Snapshot) {
    Fitting(config, s) &&
    var (a, outcome) := Invoked(config, world, call, s);
    outcome.Groq? && s.pinned.Some? && a.tried == [Attempt(s.pinned.value, true, false)]
  }

  lemma PinAnswersKeepsCounters(config: Config, world: World, call: Call, s: Snapshot)
    requires PinAnswers(config, world, call, s) && s.pinned.value in config.tiers
    ensures Invoked(config, world, call, s).0.s.counters == s.counters
    ensures Invoked(config, world, call, s).0.s.pinned == s.pinned
  {
    var a0 := TryOllama(config, world, call, true, Progress(s, 0, [], [])).0;
    hide Base, AttemptIn, TryPools, TryList;
    var (a1, v) := TryIn(config, world, call, s.pinned.value, a0);
    assert a1.tried == [Attempt(s.pinned.value, v.Won?, v.Raised?)];
    if !v.Won? {
      assert Invoked(config, world, call, s).1.Groq? ==> v.Lost?;
      WalkGroq(config, world, call, a0);
      LostPinIsOnRecord(config, world, call, a0);
    }
  }

  /** A pinned attempt that lost stays first on record. */
  lemma LostPinIsOnRecord(config: Config, world: World, call: Call, a: Progress)
    requires Fitting(config, a.s) && a.tried == [] && a.s.pinned.Some? && a.s.pinned.value in config.tiers
    ensures var b := TryGroq(config, world, call, a).0;
            && b.tried != []
            && b.tried[0] == Attempt(a.s.pinned.value, TryIn(config, world, call, a.s.pinned.value, a).1.Won?,
                                  TryIn(config, world, call, a.s.pinned.value, a).1.Raised?)
  {
    var a1 := TryPinned(config, world, call, a).0;
    assert a1.tried == [Attempt(a.s.pinned.value, TryIn(config, world, call, a.s.pinned.value, a).1.Won?,
                                  TryIn(config, world, call, a.s.pinned.value, a).1.Raised?)] by {
      hide AttemptIn, TryGroq;
    }
    hide TryIn, TryGroq, TryPinned;
    GroqExtendsPin(config, world, call, a);
    var b := TryGroq(config, world, call, a).0;
    assert b.tried[..1] == a1.tried;
  }

  lemma GroqExtendsPin(config: Config, world: World, call: Call, a: Progress)
    requires Fitting(config, a.s)
    ensures Extends(TryPinned(config, world, call, a).0, TryGroq(config, world, call, a).0)
  {
    hide TryPinned, TryPools, TryList, Walked;
    var (a1, v1) := TryPinned(config, world, call, a);
    if v1.Lost? {
      if config.pools != [] {
        WalkPools(config, world, call, 0, a1);
      } else {
        WalkList(config, world, call, config.tiers, a1);
      }
    }
  }

  datatype Turn = Turn(world: World, call: Call)

  ghost predicate IsTurn(config: Config, turn: Turn, s: Snapshot, next: Snapshot) {
    Fitting(config, s) && next == Invoked(config, turn.world, turn.call, s).0.s
  }

  /** The states reached by successive invokes between two pin resets. */
  ghost predicate IsSession(config: Config, turns: seq<Turn>, states: seq<Snapshot>) {
    && |states| == |turns| + 1
    && forall i :: 0 <= i < |turns| ==> IsTurn(config, turns[i], states[i], states[i + 1])
  }

  /** While the pinned model keeps answering, no pool counter moves and the pin stays. */
  lemma {:induction false} PinnedSessionKeepsCounters(config: Config, turns: seq<Turn>, states: seq<Snapshot>, k: nat)
    requires IsSession(config, turns, states) && k <= |turns|
    requires states[0].pinned.Some? && states[0].pinned.value in config.tiers
    requires forall i :: 0 <= i < |turns| ==> PinAnswers(config, turns[i].world, turns[i].call, states[i])
    ensures states[k].counters == states[0].counters && states[k].pinned == states[0].pinned
  {
    if k > 0 {
      hide IsTurn, PinAnswers;
      PinnedSessionKeepsCounters(config, turns, states, k - 1);
      PinnedTurn(config, turns[k - 1], states[k - 1], states[k]);
    }
  }

  lemma PinnedTurn(config: Config, turn: Turn, s: Snapshot, next: Snapshot)
    requires IsTurn(config, turn, s, next) && PinAnswers(config, turn.world, turn.call, s)
    requires s.pinned.Some? && s.pinned.value in config.tiers
    ensures next.counters == s.counters && next.pinned == s.pinned
  {
    hide Invoked, PinAnswers;
    PinAnswersKeepsCounters(config, turn.world, turn.call, s);
  }
}
