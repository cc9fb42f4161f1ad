/**
 The per-model token budget: four sliding windows per model, checked and
 charged together by reserve and compensated by release.
 */
module Budget {
  import opened SlidingWindow

  const MINUTE := 60.0
  const DAY := 86400.0

  datatype Limits = Limits(rpm: nat, tpm: nat, rpd: nat, tpd: nat)

  /** The value of one model's state, one window per limit. */
  datatype Ledgers = Ledgers(
    minuteTokens: Window, minuteRequests: Window, dayTokens: Window, dayRequests: Window)

  const NO_USAGE := Ledgers(EMPTY, EMPTY, EMPTY, EMPTY)

  /** used + more stays within 80 % of the limit. */
  predicate Room(used: int, more: int, limit: nat) {
    5 * (used + more) <= 4 * limit
  }

  predicate Fits(l: Ledgers, lim: Limits, est: int) {
    && Room(l.minuteTokens.total, est, lim.tpm)
    && Room(l.minuteRequests.total, 1, lim.rpm)
    && Room(l.dayTokens.total, est, lim.tpd)
    && Room(l.dayRequests.total, 1, lim.rpd)
  }

  function SettleDays(l: Ledgers, now: real): Ledgers {
    l.(dayTokens := Settle(l.dayTokens, now - DAY), dayRequests := Settle(l.dayRequests, now - DAY))
  }

  function SettleAll(l: Ledgers, now: real): Ledgers {
    SettleDays(l.(minuteTokens := Settle(l.minuteTokens, now - MINUTE),
                  minuteRequests := Settle(l.minuteRequests, now - MINUTE)), now)
  }

  function PostAll(l: Ledgers, at: real, tokens: int, requests: int): Ledgers {
    Ledgers(Post(l.minuteTokens, at, tokens), Post(l.minuteRequests, at, requests),
            Post(l.dayTokens, at, tokens), Post(l.dayRequests, at, requests))
  }

  /** Prune, check all four limits, and charge only when every one has room. */
  function Reserved(l: Ledgers, lim: Limits, est: int, now: real): (Ledgers, bool) {
    var settled := SettleAll(l, now);
    if Fits(settled, lim, est) then (PostAll(settled, now, est, 1), true) else (settled, false)
  }

  function Released(l: Ledgers, est: int, now: real): Ledgers {
    PostAll(l, now, -est, -1)
  }

  ghost predicate TotalsExact(l: Ledgers) {
    && l.minuteTokens.total == Sum(l.minuteTokens.log)
    && l.minuteRequests.total == Sum(l.minuteRequests.log)
    && l.dayTokens.total == Sum(l.dayTokens.log)
    && l.dayRequests.total == Sum(l.dayRequests.log)
  }

  /** Every lock-protected step keeps each running total equal to the sum of its log. */
  lemma StepsKeepTotals(l: Ledgers, lim: Limits, tokens: int, now: real)
    requires TotalsExact(l)
    ensures TotalsExact(SettleAll(l, now)) && TotalsExact(SettleDays(l, now))
    ensures TotalsExact(Reserved(l, lim, tokens, now).0)
    ensures TotalsExact(Released(l, tokens, now))
    ensures TotalsExact(PostAll(l, now, tokens, 1))
  {
    var settled := SettleAll(l, now);
    PostKeepsTotals(settled, now, tokens, 1);
    PostKeepsTotals(l, now, tokens, 1);
    PostKeepsTotals(l, now, -tokens, -1);
  }

  lemma PostKeepsTotals(l: Ledgers, at: real, tokens: int, requests: int)
    requires TotalsExact(l)
    ensures TotalsExact(PostAll(l, at, tokens, requests))
  {
    SumConcat(l.minuteTokens.log, [Entry(at, tokens)]);
    SumConcat(l.minuteRequests.log, [Entry(at, requests)]);
    SumConcat(l.dayTokens.log, [Entry(at, tokens)]);
    SumConcat(l.dayRequests.log, [Entry(at, requests)]);
  }

  // ------------------------------------------------------- mutable state

  class ModelState {
    var minuteTokens: seq<Entry>
    var minuteTokensTotal: int
    var minuteRequests: seq<Entry>
    var minuteRequestsTotal: int
    var dayTokens: seq<Entry>
    var dayTokensTotal: int
    var dayRequests: seq<Entry>
    var dayRequestsTotal: int

    function Value(): Ledgers
      reads this
    {
      Ledgers(Window(minuteTokens, minuteTokensTotal), Window(minuteRequests, minuteRequestsTotal),
              Window(dayTokens, dayTokensTotal), Window(dayRequests, dayRequestsTotal))
    }

    constructor ()
      ensures Value() == NO_USAGE
    {
      minuteTokens, minuteTokensTotal := [], 0;
      minuteRequests, minuteRequestsTotal := [], 0;
      dayTokens, dayTokensTotal := [], 0;
      dayRequests, dayRequestsTotal := [], 0;
    }

    method PruneAll(now: real)
      modifies this
      ensures Value() == SettleAll(old(Value()), now)
    {
      hide Settle;
      var expired: int;
      minuteTokens, minuteTokensTotal, expired := WindowTotal(minuteTokens, MINUTE, now, minuteTokensTotal);
      minuteRequests, minuteRequestsTotal, expired := WindowTotal(minuteRequests, MINUTE, now, minuteRequestsTotal);
      dayTokens, dayTokensTotal, expired := WindowTotal(dayTokens, DAY, now, dayTokensTotal);
      dayRequests, dayRequestsTotal, expired := WindowTotal(dayRequests, DAY, now, dayRequestsTotal);
    }

    method Append(at: real, tokens: int, requests: int)
      modifies this
      ensures Value() == PostAll(old(Value()), at, tokens, requests)
    {
      minuteTokens, minuteTokensTotal := minuteTokens + [Entry(at, tokens)], minuteTokensTotal + tokens;
      minuteRequests, minuteRequestsTotal := minuteRequests + [Entry(at, requests)], minuteRequestsTotal + requests;
      dayTokens, dayTokensTotal := dayTokens + [Entry(at, tokens)], dayTokensTotal + tokens;
      dayRequests, dayRequestsTotal := dayRequests + [Entry(at, requests)], dayRequestsTotal + requests;
    }

    /** The lock-protected part of reserve. */
    method CheckAndCharge(lim: Limits, est: int, now: real) returns (ok: bool)
      modifies this
      ensures (Value(), ok) == Reserved(old(Value()), lim, est, now)
    {
      hide SettleAll, PostAll;
      PruneAll(now);
      if !Room(minuteTokensTotal, est, lim.tpm) { return false; }
      if !Room(minuteRequestsTotal, 1, lim.rpm) { return false; }
      if !Room(dayTokensTotal, est, lim.tpd) { return false; }
      if !Room(dayRequestsTotal, 1, lim.rpd) { return false; }
      Append(now, est, 1);
      return true;
    }

    /** The lock-protected part of seeding: the totals are assigned, not added to. */
    method SeedDay(tokens: int, requests: int, now: real)
      modifies this
      ensures Value() == Seeded(old(Value()), tokens, requests, now)
    {
      if tokens <= 0 && requests <= 0 { return; }
      if dayTokensTotal > 0 || dayRequestsTotal > 0 { return; }
      dayTokens := dayTokens + [Entry(now, tokens)];
      dayTokensTotal := tokens;
      dayRequests := dayRequests + [Entry(now, requests)];
      dayRequestsTotal := requests;
    }
  }

  method AllocateStates(models: set<string>) returns (states: map<string, ModelState>)
    ensures states.Keys == models
    ensures forall m, n :: m in states && n in states && m != n ==> states[m] != states[n]
    ensures forall m :: m in states ==> fresh(states[m]) && states[m].Value() == NO_USAGE
  {
    states := map[];
    var left := models;
    while left != {}
      invariant left <= models && states.Keys == models - left
      invariant forall m, n :: m in states && n in states && m != n ==> states[m] != states[n]
      invariant forall m :: m in states ==> fresh(states[m]) && states[m].Value() == NO_USAGE
      decreases left
    {
      var m :| m in left;
      var s := new ModelState();
      states, left := states[m := s], left - {m};
    }
  }

  class TokenBudget {
    const limits: map<string, Limits>
    var state: map<string, ModelState>

    ghost predicate Valid()
      reads this
    {
      && limits.Keys <= state.Keys
      && forall m, n :: m in state && n in state && m != n ==> state[m] != state[n]
    }

    function View(): map<string, Ledgers>
      reads this, state.Values
    {
      map m | m in state :: state[m].Value()
    }

    /** State is allocated up front for every model with limits. */
    constructor (limits: map<string, Limits>)
      ensures Valid() && this.limits == limits && state.Keys == limits.Keys
      ensures forall m :: m in state ==> fresh(state[m]) && View()[m] == NO_USAGE
    {
      var states := AllocateStates(limits.Keys);
      this.limits := limits;
      state := states;
    }

    method CanAfford(model: string, est: int, now: real) returns (ok: bool)
      requires Valid()
      modifies state.Values
      ensures Valid()
      ensures model !in limits ==> ok && View() == old(View())
      ensures model in limits ==>
                && View() == old(View())[model := SettleAll(old(View())[model], now)]
                && ok == Reserved(old(View())[model], limits[model], est, now).1
    {
      if model !in limits { return true; }
      var s := state[model];
      s.PruneAll(now);
      ok := Fits(s.Value(), limits[model], est);
    }

    method Reserve(model: string, est: int, now: real) returns (ok: bool)
      requires Valid()
      modifies state.Values
      ensures Valid()
      ensures model !in limits ==> ok && View() == old(View())
      ensures model in limits ==>
                && View() == old(View())[model := Reserved(old(View())[model], limits[model], est, now).0]
                && ok == Reserved(old(View())[model], limits[model], est, now).1
    {
      if model !in limits { return true; }
      hide Reserved;
      var s := state[model];
      ok := s.CheckAndCharge(limits[model], est, now);
    }

    method Release(model: string, est: int, now: real)
      requires Valid()
      modifies state.Values
      ensures Valid()
      ensures View() == if model in limits then old(View())[model := Released(old(View())[model], est, now)]
                        else old(View())
    {
      if model !in limits { return; }
      hide PostAll;
      AppendTo(model, now, -est, -1);
    }

    method AppendTo(model: string, now: real, tokens: int, requests: int)
      requires Valid() && model in state
      modifies state.Values
      ensures Valid()
      ensures View() == old(View())[model := PostAll(old(View())[model], now, tokens, requests)]
    {
      hide PostAll;
      var s := state[model];
      s.Append(now, tokens, requests);
    }

    /** Unlike the other operations, record also creates state for a model without limits. */
    method Record(model: string, tokensUsed: int, now: real)
      requires Valid()
      modifies this`state, state.Values
      ensures Valid()
      ensures forall m :: m in state && m !in old(state) ==> fresh(state[m])
      ensures View() == old(View())[model := PostAll(
                          if model in old(state) then old(View())[model] else NO_USAGE, now, tokensUsed, 1)]
    {
      hide PostAll, ModelState.Value;
      ghost var before := View();
      EnsureState(model);
      ghost var ready := View();
      assert ready[model] == if model in before then before[model] else NO_USAGE;
      AppendTo(model, now, tokensUsed, 1);
      assert View() == before[model := PostAll(ready[model], now, tokensUsed, 1)];
    }

    method EnsureState(model: string)
      requires Valid()
      modifies this`state
      ensures Valid() && model in state && old(state.Keys) <= state.Keys
      ensures forall m :: m in old(state) ==> state[m] == old(state[m])
      ensures forall m :: m in state && m !in old(state) ==> fresh(state[m])
      ensures View() == if model in old(state) then old(View()) else old(View())[model := NO_USAGE]
    {
      if model !in state {
        var created := new ModelState();
        state := state[model := created];
      }
    }
  }

  // ------------------------------------------------------------- seeding

  function Seeded(l: Ledgers, tokens: int, requests: int, now: real): Ledgers {
    if (tokens <= 0 && requests <= 0) || l.dayTokens.total > 0 || l.dayRequests.total > 0 then l
    else l.(dayTokens := Window(l.dayTokens.log + [Entry(now, tokens)], tokens),
            dayRequests := Window(l.dayRequests.log + [Entry(now, requests)], requests))
  }

  /**
   Seeding keeps the totals exact if and only if it is skipped or both day
   totals were 0 before it, which holds at startup.  Where one of them already
   counts something, nothing is seeded a second time.
   */
  lemma SeedKeepsTotalsIff(l: Ledgers, tokens: int, requests: int, now: real)
    requires TotalsExact(l)
    ensures TotalsExact(Seeded(l, tokens, requests, now)) <==>
              || (tokens <= 0 && requests <= 0)
              || l.dayTokens.total > 0 || l.dayRequests.total > 0
              || (l.dayTokens.total == 0 && l.dayRequests.total == 0)
    ensures l.dayTokens.total > 0 || l.dayRequests.total > 0 ==> Seeded(l, tokens, requests, now) == l
  {
    SumConcat(l.dayTokens.log, [Entry(now, tokens)]);
    SumConcat(l.dayRequests.log, [Entry(now, requests)]);
  }

  /**
   What seeding at startup is for: until a day has passed, the spend the database
   remembers counts against the day limits of whatever is asked next, and only there.
   After that day it counts no more.
   */
  lemma SeedCountsForADay(lim: Limits, tokens: nat, requests: nat, est: nat, at: real, now: real)
    ensures Reserved(Seeded(NO_USAGE, tokens, requests, at), lim, est, now).1 <==>
              var counted := now <= at + DAY;
              && 5 * est <= 4 * lim.tpm && 5 <= 4 * lim.rpm
              && 5 * ((if counted then tokens else 0) + est) <= 4 * lim.tpd
              && 5 * ((if counted then requests else 0) + 1) <= 4 * lim.rpd
  {
    assert Settle(EMPTY, now - MINUTE) == EMPTY && Settle(EMPTY, now - DAY) == EMPTY;
    SettleOne(at, tokens, now - DAY);
    SettleOne(at, requests, now - DAY);
    hide Settle, Sum;
    assert [] + [Entry(at, tokens)] == [Entry(at, tokens)] && [] + [Entry(at, requests)] == [Entry(at, requests)];
  }

  lemma SettleOne(at: real, amount: int, cutoff: real)
    ensures Settle(Window([Entry(at, amount)], amount), cutoff).total == if at >= cutoff then amount else 0
  {
    var e := Entry(at, amount);
    assert [e][1..] == [];
    assert Pruned([e], cutoff) == if at >= cutoff then [e] else Pruned([], cutoff);
    assert Sum([e]) == amount + Sum([]);
  }

  /** A charge whose release is younger: once the charge expires, only the release is left. */
  lemma ChargeExpiresBeforeRelease(amount: int, at: real, releasedAt: real, cutoff: real)
    requires at < cutoff <= releasedAt
    ensures Settle(Post(Post(EMPTY, at, amount), releasedAt, -amount), cutoff)
         == Window([Entry(releasedAt, -amount)], -amount)
  {
    var log := [Entry(at, amount), Entry(releasedAt, -amount)];
    assert Post(Post(EMPTY, at, amount), releasedAt, -amount) == Window(log, 0);
    assert log[1..] == [Entry(releasedAt, -amount)];
    assert Pruned(log, cutoff) == Pruned(log[1..], cutoff) == log[1..];
    assert Sum(log) == amount + Sum(log[1..]);
  }

  lemma FirstReserveCharges(lim: Limits, est: nat, now: real)
    requires Fits(NO_USAGE, lim, est)
    ensures Reserved(NO_USAGE, lim, est, now) == (PostAll(NO_USAGE, now, est, 1), true)
  {
    assert Settle(EMPTY, now - MINUTE) == EMPTY;
    assert Settle(EMPTY, now - DAY) == EMPTY;
  }

  /** A total that dips below 0 when a release outlives its reservation breaks a later seed. */
  lemma SeedAfterDipBreaksTotals(tokens: int, requests: int)
    requires tokens > 0
    ensures
      var charged := Reserved(NO_USAGE, Limits(10, 10, 10, 10), 5, 0.0).0;
      var dipped := SettleAll(Released(charged, 5, 100.0), DAY + 1.0);
      TotalsExact(dipped) && !TotalsExact(Seeded(dipped, tokens, requests, DAY + 1.0))
  {
    var lim := Limits(10, 10, 10, 10);
    FirstReserveCharges(lim, 5, 0.0);
    var charged := PostAll(NO_USAGE, 0.0, 5, 1);
    assert TotalsExact(NO_USAGE);
    hide Sum, Pruned, Settle, Post, Reserved, TotalsExact;
    PostKeepsTotals(NO_USAGE, 0.0, 5, 1);
    StepsKeepTotals(charged, lim, 5, 100.0);
    var released := Released(charged, 5, 100.0);
    StepsKeepTotals(released, lim, 5, DAY + 1.0);
    ChargeExpiresBeforeRelease(5, 0.0, 100.0, 1.0);
    ChargeExpiresBeforeRelease(1, 0.0, 100.0, 1.0);
    SeedKeepsTotalsIff(SettleAll(released, DAY + 1.0), tokens, requests, DAY + 1.0);
  }
}
