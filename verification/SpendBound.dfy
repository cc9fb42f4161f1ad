/**
 What the 80 % check buys over whole runs.  A run interleaves reserve, release
 and the pruning queries on one model's ledgers, starting empty, under a clock
 that never goes back.  Release, record and the status queries read the clock
 before they take the lock, so their dates may lie before what the ledgers have
 been told already.  Beside the ledgers a run remembers every charge that was
 granted or recorded and when it was released, which the ledgers forget.
 */
module SpendBound {
  import opened Budget
  import opened SlidingWindow
  import opened Wrappers

  datatype Charge = Charge(at: real, amount: nat, releasedAt: Option<real>)

  /** Everything ever appended in one unit (tokens or requests), and the charges behind it. */
  datatype Account = Account(history: seq<Entry>, charges: seq<Charge>)

  datatype Event =
    | Reserve(now: real, est: nat)
    | Release(now: real, which: nat)
    | Record(now: real, tokens: nat)
    | Query(now: real)
    | DailyQuery(now: real)

  datatype RunState = RunState(ledgers: Ledgers, tokens: Account, requests: Account, clock: real)

  function Start(clock: real): RunState {
    RunState(NO_USAGE, Account([], []), Account([], []), clock)
  }

  /** A charge that can be given back at a time read after it was granted. */
  predicate Refundable(a: Account, which: nat, now: real) {
    which < |a.charges| && a.charges[which].releasedAt.None? && a.charges[which].at <= now
  }

  predicate Enabled(s: RunState, e: Event) {
    match e
    case Reserve(now, _) => s.clock <= now
    case Release(now, which) => Refundable(s.tokens, which, now) && Refundable(s.requests, which, now)
    case _ => true
  }

  function Later(a: real, b: real): real {
    if a <= b then b else a
  }

  function Charged(a: Account, now: real, amount: nat): Account {
    Account(a.history + [Entry(now, amount)], a.charges + [Charge(now, amount, None)])
  }

  function Refunded(a: Account, which: nat, now: real): Account
    requires which < |a.charges|
  {
    var c := a.charges[which];
    Account(a.history + [Entry(now, 0 - c.amount)], a.charges[which := c.(releasedAt := Some(now))])
  }

  function Next(s: RunState, e: Event, lim: Limits): RunState
    requires Enabled(s, e)
  {
    match e
    case Reserve(now, est) =>
      var (ledgers, ok) := Reserved(s.ledgers, lim, est, now);
      if ok then RunState(ledgers, Charged(s.tokens, now, est), Charged(s.requests, now, 1), now)
      else s.(ledgers := ledgers, clock := now)
    case Release(now, which) =>
      RunState(Released(s.ledgers, s.tokens.charges[which].amount, now),
               Refunded(s.tokens, which, now), Refunded(s.requests, which, now), Later(s.clock, now))
    case Record(now, tokens) =>
      RunState(PostAll(s.ledgers, now, tokens, 1),
               Charged(s.tokens, now, tokens), Charged(s.requests, now, 1), Later(s.clock, now))
    case Query(now) => s.(ledgers := SettleAll(s.ledgers, now), clock := Later(s.clock, now))
    case DailyQuery(now) => s.(ledgers := SettleDays(s.ledgers, now), clock := Later(s.clock, now))
  }

  ghost predicate IsRun(lim: Limits, events: seq<Event>, states: seq<RunState>) {
    && |states| == |events| + 1
    && states[0] == Start(states[0].clock)
    && forall i :: 0 <= i < |events| ==>
         Enabled(states[i], events[i]) && states[i + 1] == Next(states[i], events[i], lim)
  }

  // --------------------------------------------------------- true spend

  /** Charges inside the window that nobody has given back. */
  function Unreleased(cs: seq<Charge>, cutoff: real): int {
    if cs == [] then 0
    else (if cs[0].at >= cutoff && cs[0].releasedAt.None? then cs[0].amount else 0) + Unreleased(cs[1..], cutoff)
  }

  /** Releases inside the window whose reservation has already left it. */
  function OrphanReleases(cs: seq<Charge>, cutoff: real): int {
    if cs == [] then 0
    else (if cs[0].at < cutoff && cs[0].releasedAt.Some? && cs[0].releasedAt.value >= cutoff then cs[0].amount else 0)
         + OrphanReleases(cs[1..], cutoff)
  }

  lemma {:induction false} SpendAppend(cs: seq<Charge>, c: Charge, cutoff: real)
    ensures Unreleased(cs + [c], cutoff) == Unreleased(cs, cutoff) + Unreleased([c], cutoff)
    ensures OrphanReleases(cs + [c], cutoff) == OrphanReleases(cs, cutoff) + OrphanReleases([c], cutoff)
  {
    if cs == [] {
      assert cs + [c] == [c];
    } else {
      assert (cs + [c])[1..] == cs[1..] + [c];
      SpendAppend(cs[1..], c, cutoff);
    }
  }

  lemma {:induction false} SpendUpdate(cs: seq<Charge>, k: nat, c: Charge, cutoff: real)
    requires k < |cs|
    ensures Unreleased(cs[k := c], cutoff)
         == Unreleased(cs, cutoff) - Unreleased([cs[k]], cutoff) + Unreleased([c], cutoff)
    ensures OrphanReleases(cs[k := c], cutoff)
         == OrphanReleases(cs, cutoff) - OrphanReleases([cs[k]], cutoff) + OrphanReleases([c], cutoff)
  {
    if k == 0 {
      assert cs[k := c][1..] == cs[1..];
    } else {
      assert cs[k := c][1..] == cs[1..][k - 1 := c];
      SpendUpdate(cs[1..], k - 1, c, cutoff);
    }
  }

  /** What the window sum really measures, at every cutoff at once. */
  ghost predicate Balanced(a: Account) {
    forall cutoff: real ::
      Sum(Live(a.history, cutoff)) == Unreleased(a.charges, cutoff) - OrphanReleases(a.charges, cutoff)
  }

  ghost predicate Sound(a: Account, clock: real) {
    && (forall i :: 0 <= i < |a.history| ==> a.history[i].at <= clock)
    && (forall i :: 0 <= i < |a.charges| ==> a.charges[i].at <= clock)
    && Balanced(a)
  }

  lemma ChargeKeepsSound(a: Account, clock: real, now: real, amount: nat)
    requires Sound(a, clock)
    ensures Sound(Charged(a, now, amount), Later(clock, now))
  {
    hide Live, Sum;
    forall cutoff: real
      ensures Sum(Live(Charged(a, now, amount).history, cutoff))
           == Unreleased(Charged(a, now, amount).charges, cutoff)
              - OrphanReleases(Charged(a, now, amount).charges, cutoff)
    {
      LivePost(a.history, Entry(now, amount), cutoff);
      SpendAppend(a.charges, Charge(now, amount, None), cutoff);
    }
  }

  lemma RefundKeepsSound(a: Account, clock: real, which: nat, now: real)
    requires Sound(a, clock) && Refundable(a, which, now)
    ensures Sound(Refunded(a, which, now), Later(clock, now))
  {
    hide Live, Sum;
    var c := a.charges[which];
    forall cutoff: real
      ensures Sum(Live(Refunded(a, which, now).history, cutoff))
           == Unreleased(Refunded(a, which, now).charges, cutoff)
              - OrphanReleases(Refunded(a, which, now).charges, cutoff)
    {
      LivePost(a.history, Entry(now, 0 - c.amount), cutoff);
      SpendUpdate(a.charges, which, c.(releasedAt := Some(now)), cutoff);
    }
  }

  // ------------------------------------------------------------ invariant

  ghost predicate Tracks(l: Ledgers, tokens: seq<Entry>, requests: seq<Entry>, now: real) {
    && Refines(l.minuteTokens, tokens, now - MINUTE)
    && Refines(l.minuteRequests, requests, now - MINUTE)
    && Refines(l.dayTokens, tokens, now - DAY)
    && Refines(l.dayRequests, requests, now - DAY)
  }

  ghost predicate Inv(s: RunState) {
    Sound(s.tokens, s.clock) && Sound(s.requests, s.clock)
    && Tracks(s.ledgers, s.tokens.history, s.requests.history, s.clock)
  }

  lemma SettleRefines(w: Window, history: seq<Entry>, clock: real, now: real, width: real)
    requires Refines(w, history, clock - width)
    ensures Refines(Settle(w, now - width), history, Later(clock, now) - width)
    ensures Refines(w, history, Later(clock, now) - width)
  {
    hide Refines, Settle;
    RefinesLater(w, history, clock - width, Later(clock, now) - width);
    if clock <= now {
      RefinesSettle(w, history, clock - width, now - width);
    } else {
      RefinesSettleEarlier(w, history, clock - width, now - width);
    }
  }

  /** Whenever the clock was read. */
  lemma TracksSettle(l: Ledgers, tokens: seq<Entry>, requests: seq<Entry>, clock: real, now: real)
    requires Tracks(l, tokens, requests, clock)
    ensures Tracks(SettleAll(l, now), tokens, requests, Later(clock, now))
    ensures Tracks(SettleDays(l, now), tokens, requests, Later(clock, now))
  {
    hide Refines, Settle, Later;
    SettleRefines(l.minuteTokens, tokens, clock, now, MINUTE);
    SettleRefines(l.minuteRequests, requests, clock, now, MINUTE);
    SettleRefines(l.dayTokens, tokens, clock, now, DAY);
    SettleRefines(l.dayRequests, requests, clock, now, DAY);
  }

  lemma TracksLater(l: Ledgers, tokens: seq<Entry>, requests: seq<Entry>, clock: real, now: real)
    requires Tracks(l, tokens, requests, clock) && clock <= now
    ensures Tracks(l, tokens, requests, now)
  {
    hide Refines;
    RefinesLater(l.minuteTokens, tokens, clock - MINUTE, now - MINUTE);
    RefinesLater(l.minuteRequests, requests, clock - MINUTE, now - MINUTE);
    RefinesLater(l.dayTokens, tokens, clock - DAY, now - DAY);
    RefinesLater(l.dayRequests, requests, clock - DAY, now - DAY);
  }

  /** Whatever the date of the new entry. */
  lemma TracksPost(l: Ledgers, tokens: seq<Entry>, requests: seq<Entry>, clock: real, at: real, t: int, r: int)
    requires Tracks(l, tokens, requests, clock)
    ensures Tracks(PostAll(l, at, t, r), tokens + [Entry(at, t)], requests + [Entry(at, r)], clock)
  {
    hide Refines;
    RefinesPost(l.minuteTokens, tokens, clock - MINUTE, at, t);
    RefinesPost(l.minuteRequests, requests, clock - MINUTE, at, r);
    RefinesPost(l.dayTokens, tokens, clock - DAY, at, t);
    RefinesPost(l.dayRequests, requests, clock - DAY, at, r);
  }

  ghost predicate UnitRequests(s: RunState) {
    forall i :: 0 <= i < |s.requests.charges| ==> s.requests.charges[i].amount == 1
  }

  lemma SoundLater(a: Account, clock: real, now: real)
    requires Sound(a, clock) && clock <= now
    ensures Sound(a, now)
  {
  }

  lemma ReserveKeepsInv(s: RunState, now: real, est: nat, lim: Limits)
    requires Inv(s) && Enabled(s, Reserve(now, est))
    ensures Inv(Next(s, Reserve(now, est), lim))
  {
    hide Sound, Tracks;
    SoundLater(s.tokens, s.clock, now);
    SoundLater(s.requests, s.clock, now);
    TracksSettle(s.ledgers, s.tokens.history, s.requests.history, s.clock, now);
    ChargeKeepsSound(s.tokens, s.clock, now, est);
    ChargeKeepsSound(s.requests, s.clock, now, 1);
    TracksPost(SettleAll(s.ledgers, now), s.tokens.history, s.requests.history, now, now, est, 1);
  }

  lemma ReleaseKeepsInv(s: RunState, now: real, which: nat, lim: Limits)
    requires Inv(s) && Enabled(s, Release(now, which)) && UnitRequests(s)
    ensures Inv(Next(s, Release(now, which), lim))
  {
    hide Sound, Tracks, PostAll;
    RefundKeepsSound(s.tokens, s.clock, which, now);
    RefundKeepsSound(s.requests, s.clock, which, now);
    var later, next := Later(s.clock, now), Next(s, Release(now, which), lim);
    TracksPost(s.ledgers, s.tokens.history, s.requests.history, s.clock, now,
               0 - s.tokens.charges[which].amount, -1);
    TracksLater(next.ledgers, next.tokens.history, next.requests.history, s.clock, later);
  }

  lemma RecordKeepsInv(s: RunState, now: real, tokens: nat, lim: Limits)
    requires Inv(s)
    ensures Inv(Next(s, Record(now, tokens), lim))
  {
    hide Sound, Tracks, PostAll;
    ChargeKeepsSound(s.tokens, s.clock, now, tokens);
    ChargeKeepsSound(s.requests, s.clock, now, 1);
    var next := Next(s, Record(now, tokens), lim);
    TracksPost(s.ledgers, s.tokens.history, s.requests.history, s.clock, now, tokens, 1);
    TracksLater(next.ledgers, next.tokens.history, next.requests.history, s.clock, Later(s.clock, now));
  }

  lemma QueryKeepsInv(s: RunState, e: Event, lim: Limits)
    requires Inv(s) && (e.Query? || e.DailyQuery?)
    ensures Inv(Next(s, e, lim))
  {
    hide Sound, Tracks, SettleAll, SettleDays;
    var later := Later(s.clock, e.now);
    SoundLater(s.tokens, s.clock, later);
    SoundLater(s.requests, s.clock, later);
    TracksSettle(s.ledgers, s.tokens.history, s.requests.history, s.clock, e.now);
  }

  lemma NextKeepsInv(s: RunState, e: Event, lim: Limits)
    requires Inv(s) && Enabled(s, e) && UnitRequests(s)
    ensures Inv(Next(s, e, lim)) && UnitRequests(Next(s, e, lim))
  {
    assert UnitRequests(Next(s, e, lim)) by { hide Inv; }
    hide Inv, Next, UnitRequests;
    match e
    case Reserve(now, est) => ReserveKeepsInv(s, now, est, lim);
    case Release(now, which) => ReleaseKeepsInv(s, now, which, lim);
    case Record(now, tokens) => RecordKeepsInv(s, now, tokens, lim);
    case _ => QueryKeepsInv(s, e, lim);
  }

  lemma StartKeepsInv(clock: real)
    ensures Inv(Start(clock)) && UnitRequests(Start(clock))
  {
  }

  lemma {:induction false} RunKeepsInv(lim: Limits, events: seq<Event>, states: seq<RunState>, k: nat)
    requires IsRun(lim, events, states) && k < |states|
    ensures Inv(states[k]) && UnitRequests(states[k])
  {
    hide Inv, UnitRequests, Enabled, Next, Start;
    if k == 0 {
      StartKeepsInv(states[0].clock);
    } else {
      RunKeepsInv(lim, events, states, k - 1);
      NextKeepsInv(states[k - 1], events[k - 1], lim);
    }
  }

  // ------------------------------------------------------------ the bound

  /** Spend within 80 % of the limit plus the releases still counted whose reservation has left the window: those
      inside it, and those stuck in the log. */
  ghost predicate WithinBound(a: Account, limit: nat, cutoff: real, stuck: int) {
    5 * Unreleased(a.charges, cutoff) <= 4 * limit + 5 * (OrphanReleases(a.charges, cutoff) + stuck)
  }

  lemma BoundFromRoom(w: Window, a: Account, clock: real, now: real, width: real, amount: nat, limit: nat)
    requires Sound(a, clock) && clock <= now && width >= 0.0
    requires Refines(w, a.history, clock - width)
    requires Room(Settle(w, now - width).total, amount, limit)
    ensures WithinBound(Charged(a, now, amount), limit, now - width, Stuck(w.log, now - width))
    ensures 5 * Sum(Live(Charged(a, now, amount).history, now - width)) <= 4 * limit + 5 * Stuck(w.log, now - width)
  {
    hide Sum, Live, Refines, Settle, Unreleased, OrphanReleases, Stuck;
    SettledTotalIsLiveLessStuck(w, a.history, clock - width, now - width);
    LivePost(a.history, Entry(now, amount), now - width);
    ChargeKeepsSound(a, clock, now, amount);
  }

  /** The bound for all four limits at a grant, each with what is stuck in its own log. */
  ghost predicate GrantedWithin(tokens: Account, requests: Account, l: Ledgers, lim: Limits, now: real) {
    && WithinBound(tokens, lim.tpm, now - MINUTE, Stuck(l.minuteTokens.log, now - MINUTE))
    && WithinBound(requests, lim.rpm, now - MINUTE, Stuck(l.minuteRequests.log, now - MINUTE))
    && WithinBound(tokens, lim.tpd, now - DAY, Stuck(l.dayTokens.log, now - DAY))
    && WithinBound(requests, lim.rpd, now - DAY, Stuck(l.dayRequests.log, now - DAY))
  }

  /**
   Spend bound, in whatever order releases, records and queries are dated:
   whenever a reservation is granted, the unreleased spend inside each window,
   recorded requests included, is at most 80 % of its limit plus the releases
   still counted whose own reservation has already left that window, inside it or
   stuck in its log.  What else is stuck there makes the bound tighter.
   */
  lemma GrantKeepsSpendBound(lim: Limits, events: seq<Event>, states: seq<RunState>, k: nat)
    requires IsRun(lim, events, states)
    requires k < |events| && events[k].Reserve?
    requires states[k + 1].tokens != states[k].tokens
    ensures GrantedWithin(states[k + 1].tokens, states[k + 1].requests, states[k].ledgers, lim, events[k].now)
    ensures AtMostReleasesStuck(states[k].ledgers, events[k].now)
  {
    hide Inv, GrantedWithin, PostAll, SettleAll, Fits, Stuck, StuckReleases;
    RunKeepsInv(lim, events, states, k);
    var l, now := states[k].ledgers, events[k].now;
    GrantBounds(states[k], now, events[k].est, lim);
    StuckAtMostReleases(l.minuteTokens.log, now - MINUTE);
    StuckAtMostReleases(l.minuteRequests.log, now - MINUTE);
    StuckAtMostReleases(l.dayTokens.log, now - DAY);
    StuckAtMostReleases(l.dayRequests.log, now - DAY);
  }

  ghost predicate AtMostReleasesStuck(l: Ledgers, now: real) {
    && Stuck(l.minuteTokens.log, now - MINUTE) <= StuckReleases(l.minuteTokens.log, now - MINUTE)
    && Stuck(l.minuteRequests.log, now - MINUTE) <= StuckReleases(l.minuteRequests.log, now - MINUTE)
    && Stuck(l.dayTokens.log, now - DAY) <= StuckReleases(l.dayTokens.log, now - DAY)
    && Stuck(l.dayRequests.log, now - DAY) <= StuckReleases(l.dayRequests.log, now - DAY)
  }

  lemma GrantBounds(s: RunState, now: real, est: nat, lim: Limits)
    requires Inv(s) && s.clock <= now && Fits(SettleAll(s.ledgers, now), lim, est)
    ensures GrantedWithin(Charged(s.tokens, now, est), Charged(s.requests, now, 1), s.ledgers, lim, now)
    ensures LiveWithin(Charged(s.tokens, now, est), Charged(s.requests, now, 1), s.ledgers, lim, now)
  {
    hide Sound, Refines, Settle, WithinBound, Sum, Live, Stuck, Charged;
    BoundFromRoom(s.ledgers.minuteTokens, s.tokens, s.clock, now, MINUTE, est, lim.tpm);
    BoundFromRoom(s.ledgers.minuteRequests, s.requests, s.clock, now, MINUTE, 1, lim.rpm);
    BoundFromRoom(s.ledgers.dayTokens, s.tokens, s.clock, now, DAY, est, lim.tpd);
    BoundFromRoom(s.ledgers.dayRequests, s.requests, s.clock, now, DAY, 1, lim.rpd);
  }

  ghost predicate LiveWithin(tokens: Account, requests: Account, l: Ledgers, lim: Limits, now: real) {
    && 5 * Sum(Live(tokens.history, now - MINUTE)) <= 4 * lim.tpm + 5 * Stuck(l.minuteTokens.log, now - MINUTE)
    && 5 * Sum(Live(requests.history, now - MINUTE)) <= 4 * lim.rpm + 5 * Stuck(l.minuteRequests.log, now - MINUTE)
    && 5 * Sum(Live(tokens.history, now - DAY)) <= 4 * lim.tpd + 5 * Stuck(l.dayTokens.log, now - DAY)
    && 5 * Sum(Live(requests.history, now - DAY)) <= 4 * lim.rpd + 5 * Stuck(l.dayRequests.log, now - DAY)
  }

  ghost predicate OnlyReleasesStuck(l: Ledgers, now: real) {
    && Stuck(l.minuteTokens.log, now - MINUTE) >= 0 && Stuck(l.minuteRequests.log, now - MINUTE) >= 0
    && Stuck(l.dayTokens.log, now - DAY) >= 0 && Stuck(l.dayRequests.log, now - DAY) >= 0
  }

  lemma WindowStuck(w: Window, history: seq<Entry>, cutoff: real, later: real)
    requires Refines(w, history, cutoff) && ChargesInOrder(history)
    ensures Stuck(w.log, later) >= 0
    ensures Ordered(history) ==> Stuck(w.log, later) == 0
  {
    hide Stuck;
    StuckIsGivenBack(w.log, later);
    if Ordered(history) {
      NothingStuck(w.log, later);
    }
  }

  /** No charge is dated before what precedes it, as when nothing is recorded late. */
  ghost predicate InChargeOrder(s: RunState) {
    ChargesInOrder(s.tokens.history) && ChargesInOrder(s.requests.history)
  }

  lemma InvStuck(s: RunState, now: real)
    requires Inv(s) && InChargeOrder(s)
    ensures OnlyReleasesStuck(s.ledgers, now)
    ensures InOrder(s) ==> NoneStuckIn(s.ledgers, now)
  {
    hide Refines, ChargesInOrder, Ordered, Stuck, Balanced;
    WindowStuck(s.ledgers.minuteTokens, s.tokens.history, s.clock - MINUTE, now - MINUTE);
    WindowStuck(s.ledgers.minuteRequests, s.requests.history, s.clock - MINUTE, now - MINUTE);
    WindowStuck(s.ledgers.dayTokens, s.tokens.history, s.clock - DAY, now - DAY);
    WindowStuck(s.ledgers.dayRequests, s.requests.history, s.clock - DAY, now - DAY);
  }

  lemma ChargePost(log: seq<Entry>, clock: real, e: Entry)
    requires ChargesInOrder(log) && (forall i :: 0 <= i < |log| ==> log[i].at <= clock)
    requires e.amount > 0 ==> clock <= e.at
    ensures ChargesInOrder(log + [e])
  {
  }

  lemma NextKeepsChargeOrder(s: RunState, e: Event, lim: Limits)
    requires Inv(s) && Enabled(s, e) && InChargeOrder(s) && (e.Record? ==> s.clock <= e.now)
    ensures InChargeOrder(Next(s, e, lim))
  {
    hide ChargesInOrder, Balanced, Tracks, Fits, SettleAll, SettleDays, PostAll;
    match e
    case Reserve(now, est) =>
      ChargePost(s.tokens.history, s.clock, Entry(now, est));
      ChargePost(s.requests.history, s.clock, Entry(now, 1));
    case Release(now, which) =>
      ChargePost(s.tokens.history, s.clock, Entry(now, 0 - s.tokens.charges[which].amount));
      ChargePost(s.requests.history, s.clock, Entry(now, 0 - s.requests.charges[which].amount));
    case Record(now, tokens) =>
      ChargePost(s.tokens.history, s.clock, Entry(now, tokens));
      ChargePost(s.requests.history, s.clock, Entry(now, 1));
    case _ =>
  }

  /** Every record is dated no earlier than what the ledgers were told before it. */
  ghost predicate PromptRecords(events: seq<Event>, states: seq<RunState>)
    requires |states| == |events| + 1
  {
    forall i :: 0 <= i < |events| && events[i].Record? ==> states[i].clock <= events[i].now
  }

  lemma NothingCharged(clock: real)
    ensures InChargeOrder(Start(clock)) && InOrder(Start(clock))
  {
  }

  lemma {:induction false} RunKeepsChargeOrder(lim: Limits, events: seq<Event>, states: seq<RunState>, k: nat)
    requires IsRun(lim, events, states) && PromptRecords(events, states) && k < |states|
    ensures InChargeOrder(states[k])
  {
    hide InChargeOrder, Inv, UnitRequests, Enabled, Next, Start;
    if k == 0 {
      NothingCharged(states[0].clock);
    } else {
      RunKeepsChargeOrder(lim, events, states, k - 1);
      RunKeepsInv(lim, events, states, k - 1);
      NextKeepsChargeOrder(states[k - 1], events[k - 1], lim);
    }
  }

  /** If nothing is recorded late, only releases can be stuck. */
  lemma PromptRecordsStickReleases(lim: Limits, events: seq<Event>, states: seq<RunState>, k: nat, now: real)
    requires IsRun(lim, events, states) && PromptRecords(events, states) && k < |states|
    ensures OnlyReleasesStuck(states[k].ledgers, now)
  {
    hide InChargeOrder, Inv, UnitRequests, Enabled, Next, OnlyReleasesStuck, PromptRecords;
    RunKeepsInv(lim, events, states, k);
    RunKeepsChargeOrder(lim, events, states, k);
    InvStuck(states[k], now);
  }

  // ------------------------------------------------------- dates in order

  ghost predicate InOrder(s: RunState) {
    Ordered(s.tokens.history) && Ordered(s.requests.history)
  }

  ghost predicate NoneStuckIn(l: Ledgers, now: real) {
    && Stuck(l.minuteTokens.log, now - MINUTE) == 0 && Stuck(l.minuteRequests.log, now - MINUTE) == 0
    && Stuck(l.dayTokens.log, now - DAY) == 0 && Stuck(l.dayRequests.log, now - DAY) == 0
  }

  /** Every release and record is dated no earlier than what the ledgers were told before it. */
  ghost predicate Prompt(events: seq<Event>, states: seq<RunState>)
    requires |states| == |events| + 1
  {
    forall i :: 0 <= i < |events| && (events[i].Release? || events[i].Record?) ==> states[i].clock <= events[i].now
  }

  lemma OrderPost(log: seq<Entry>, clock: real, e: Entry)
    requires Ordered(log) && (forall i :: 0 <= i < |log| ==> log[i].at <= clock) && clock <= e.at
    ensures Ordered(log + [e])
  {
  }

  lemma NextKeepsOrder(s: RunState, e: Event, lim: Limits)
    requires Inv(s) && Enabled(s, e) && (e.Release? || e.Record? ==> s.clock <= e.now) && InOrder(s)
    ensures InOrder(Next(s, e, lim))
  {
    hide Ordered, Balanced, Tracks, Fits, SettleAll, SettleDays, PostAll;
    match e
    case Reserve(now, est) =>
      OrderPost(s.tokens.history, s.clock, Entry(now, est));
      OrderPost(s.requests.history, s.clock, Entry(now, 1));
    case Release(now, which) =>
      OrderPost(s.tokens.history, s.clock, Entry(now, 0 - s.tokens.charges[which].amount));
      OrderPost(s.requests.history, s.clock, Entry(now, 0 - s.requests.charges[which].amount));
    case Record(now, tokens) =>
      OrderPost(s.tokens.history, s.clock, Entry(now, tokens));
      OrderPost(s.requests.history, s.clock, Entry(now, 1));
    case _ =>
  }

  lemma OrderIsChargeOrder(s: RunState)
    requires InOrder(s)
    ensures InChargeOrder(s)
  {
  }

  lemma {:induction false} RunKeepsOrder(lim: Limits, events: seq<Event>, states: seq<RunState>, k: nat)
    requires IsRun(lim, events, states) && Prompt(events, states) && k < |states|
    ensures InOrder(states[k])
  {
    hide InOrder, Inv, UnitRequests, Enabled, Next;
    if k == 0 {
      NothingCharged(states[0].clock);
    } else {
      RunKeepsOrder(lim, events, states, k - 1);
      RunKeepsInv(lim, events, states, k - 1);
      NextKeepsOrder(states[k - 1], events[k - 1], lim);
    }
  }

  /** With every release and record dated in order, nothing is stuck and only the releases inside the window are left
      of the bound's allowance. */
  lemma PromptGrantKeepsSpendBound(lim: Limits, events: seq<Event>, states: seq<RunState>, k: nat)
    requires IsRun(lim, events, states) && Prompt(events, states)
    requires k < |events| && events[k].Reserve?
    requires states[k + 1].tokens != states[k].tokens
    ensures var now := events[k].now;
            && WithinBound(states[k + 1].tokens, lim.tpm, now - MINUTE, 0)
            && WithinBound(states[k + 1].requests, lim.rpm, now - MINUTE, 0)
            && WithinBound(states[k + 1].tokens, lim.tpd, now - DAY, 0)
            && WithinBound(states[k + 1].requests, lim.rpd, now - DAY, 0)
  {
    hide Inv, InOrder, InChargeOrder, WithinBound, OnlyReleasesStuck, AtMostReleasesStuck, Stuck, Enabled, Next, Prompt;
    GrantKeepsSpendBound(lim, events, states, k);
    RunKeepsInv(lim, events, states, k);
    RunKeepsOrder(lim, events, states, k);
    OrderIsChargeOrder(states[k]);
    InvStuck(states[k], events[k].now);
  }

  // ------------------------------------------------------- what is granted

  /** The spend the budget sees: releases still counted after their reservation has left hide that much of it. */
  function SeenSpend(w: Window, a: Account, cutoff: real): int {
    Unreleased(a.charges, cutoff) - OrphanReleases(a.charges, cutoff) - Stuck(w.log, cutoff)
  }

  /** Beside what is seen, the estimate and one request stay within 80 % of each limit. */
  predicate FitsSeenSpend(s: RunState, lim: Limits, est: nat, now: real) {
    && 5 * (SeenSpend(s.ledgers.minuteTokens, s.tokens, now - MINUTE) + est) <= 4 * lim.tpm
    && 5 * (SeenSpend(s.ledgers.minuteRequests, s.requests, now - MINUTE) + 1) <= 4 * lim.rpm
    && 5 * (SeenSpend(s.ledgers.dayTokens, s.tokens, now - DAY) + est) <= 4 * lim.tpd
    && 5 * (SeenSpend(s.ledgers.dayRequests, s.requests, now - DAY) + 1) <= 4 * lim.rpd
  }

  lemma SettledTotalIsSeenSpend(w: Window, a: Account, clock: real, now: real, width: real)
    requires Sound(a, clock) && clock <= now
    requires Refines(w, a.history, clock - width)
    ensures Settle(w, now - width).total == SeenSpend(w, a, now - width)
  {
    hide Sum, Live, Refines, Settle, Unreleased, OrphanReleases, Stuck;
    SettledTotalIsLiveLessStuck(w, a.history, clock - width, now - width);
  }

  /** In every reachable state the check passes exactly when the seen spend leaves room, in all four windows. */
  lemma GrantedIffSeenSpendFits(s: RunState, lim: Limits, est: nat, now: real)
    requires Inv(s) && s.clock <= now
    ensures Reserved(s.ledgers, lim, est, now).1 <==> FitsSeenSpend(s, lim, est, now)
  {
    hide Sound, Refines, Settle, SeenSpend, PostAll;
    SettledTotalIsSeenSpend(s.ledgers.minuteTokens, s.tokens, s.clock, now, MINUTE);
    SettledTotalIsSeenSpend(s.ledgers.minuteRequests, s.requests, s.clock, now, MINUTE);
    SettledTotalIsSeenSpend(s.ledgers.dayTokens, s.tokens, s.clock, now, DAY);
    SettledTotalIsSeenSpend(s.ledgers.dayRequests, s.requests, s.clock, now, DAY);
  }

  /** What the charges alone say is seen, when nothing is stuck. */
  function Charging(a: Account, cutoff: real): int {
    Unreleased(a.charges, cutoff) - OrphanReleases(a.charges, cutoff)
  }

  predicate FitsCharges(s: RunState, lim: Limits, est: nat, now: real) {
    && 5 * (Charging(s.tokens, now - MINUTE) + est) <= 4 * lim.tpm
    && 5 * (Charging(s.requests, now - MINUTE) + 1) <= 4 * lim.rpm
    && 5 * (Charging(s.tokens, now - DAY) + est) <= 4 * lim.tpd
    && 5 * (Charging(s.requests, now - DAY) + 1) <= 4 * lim.rpd
  }

  lemma GrantStep(s: RunState, lim: Limits, est: nat, now: real)
    requires Inv(s) && UnitRequests(s) && InOrder(s) && s.clock <= now
    requires FitsCharges(s, lim, est, now)
    ensures var next := Next(s, Reserve(now, est), lim);
            && next.tokens == Charged(s.tokens, now, est) && next.requests == Charged(s.requests, now, 1)
            && next.clock == now && Inv(next) && UnitRequests(next) && InOrder(next)
  {
    OrderIsChargeOrder(s);
    InvStuck(s, now);
    hide Stuck;
    assert FitsSeenSpend(s, lim, est, now);
    hide Inv, InOrder, UnitRequests, FitsSeenSpend, FitsCharges, SettleAll, Fits, PostAll, Charged;
    GrantedIffSeenSpendFits(s, lim, est, now);
    NextKeepsInv(s, Reserve(now, est), lim);
    NextKeepsOrder(s, Reserve(now, est), lim);
  }

  lemma SpendOfTwo(a: Charge, b: Charge, cutoff: real)
    ensures Unreleased([a, b], cutoff) == Unreleased([a], cutoff) + Unreleased([b], cutoff)
    ensures OrphanReleases([a, b], cutoff) == OrphanReleases([a], cutoff) + OrphanReleases([b], cutoff)
  {
    assert [a] + [b] == [a, b];
    SpendAppend([a], b, cutoff);
  }

  /**
   The orphan term cannot be dropped: this run ends with an unreleased spend of
   16 inside a minute whose 80 % threshold is 8.
   */
  lemma OrphanReleaseAdmitsOverspend(lim: Limits) returns (events: seq<Event>, states: seq<RunState>)
    requires lim == Limits(100, 10, 100, 100)
    ensures IsRun(lim, events, states)
    ensures |events| == 4 && events[3].Reserve? && states[4].tokens != states[3].tokens
    ensures Unreleased(states[4].tokens.charges, events[3].now - MINUTE) == 16
  {
    hide Inv, InOrder, UnitRequests, Reserved, Released, Unreleased, OrphanReleases, FitsCharges;
    NothingCharged(0.0);
    var e0, e1, e2, e3 := Reserve(0.0, 8), Release(50.0, 0), Reserve(50.0, 8), Reserve(61.0, 8);
    var s0 := Start(0.0);
    StartKeepsInv(0.0);
    NothingSeen(s0, lim, 8, 0.0);
    GrantStep(s0, lim, 8, 0.0);
    var s1 := Next(s0, e0, lim);
    var s2 := ReleaseOnly(s1, lim);
    NothingSeen(s2, lim, 8, 50.0);
    GrantStep(s2, lim, 8, 50.0);
    var s3 := Next(s2, e2, lim);
    OverspendStep(s3, lim);
    assert Enabled(s0, e0) && Enabled(s1, e1) && Enabled(s2, e2) && Enabled(s3, e3);
    hide *;
    events, states := FourSteps(lim, 0.0, s1, s2, s3, e0, e1, e2, e3);
  }

  lemma ReleaseOnly(s: RunState, lim: Limits) returns (next: RunState)
    requires Inv(s) && InOrder(s) && UnitRequests(s) && s.clock == 0.0
    requires s.tokens.charges == [Charge(0.0, 8, None)] && s.requests.charges == [Charge(0.0, 1, None)]
    ensures Enabled(s, Release(50.0, 0)) && next == Next(s, Release(50.0, 0), lim)
    ensures Inv(next) && InOrder(next) && UnitRequests(next) && next.clock == 50.0
    ensures next.tokens.charges == [Charge(0.0, 8, Some(50.0))]
    ensures next.requests.charges == [Charge(0.0, 1, Some(50.0))]
  {
    hide Inv, InOrder, UnitRequests, Released;
    NextKeepsInv(s, Release(50.0, 0), lim);
    NextKeepsOrder(s, Release(50.0, 0), lim);
    next := Next(s, Release(50.0, 0), lim);
  }

  lemma NothingSeen(s: RunState, lim: Limits, est: nat, now: real)
    requires 5 * est <= 4 * lim.tpm && 5 <= 4 * lim.rpm && 5 * est <= 4 * lim.tpd && 5 <= 4 * lim.rpd
    requires |s.tokens.charges| <= 1 && |s.requests.charges| <= 1
    requires forall c :: c in s.tokens.charges || c in s.requests.charges ==> c.releasedAt.Some? && c.at >= now - MINUTE
    ensures FitsCharges(s, lim, est, now)
  {
    NoSeenSpend(s.tokens, now - MINUTE);
    NoSeenSpend(s.tokens, now - DAY);
    NoSeenSpend(s.requests, now - MINUTE);
    NoSeenSpend(s.requests, now - DAY);
  }

  lemma NoSeenSpend(a: Account, cutoff: real)
    requires |a.charges| <= 1
    requires forall c :: c in a.charges ==> c.releasedAt.Some? && c.at >= cutoff
    ensures Charging(a, cutoff) == 0
  {
    if a.charges != [] {
      assert a.charges[0] in a.charges;
      assert a.charges[1..] == [];
      assert Unreleased(a.charges[1..], cutoff) == 0 == OrphanReleases(a.charges[1..], cutoff);
    }
  }

  lemma OverspendStep(s: RunState, lim: Limits)
    requires Inv(s) && InOrder(s) && UnitRequests(s) && s.clock == 50.0
    requires lim == Limits(100, 10, 100, 100)
    requires s.tokens.charges == [Charge(0.0, 8, Some(50.0)), Charge(50.0, 8, None)]
    requires s.requests.charges == [Charge(0.0, 1, Some(50.0)), Charge(50.0, 1, None)]
    ensures var next := Next(s, Reserve(61.0, 8), lim);
            next.tokens != s.tokens && Unreleased(next.tokens.charges, 61.0 - MINUTE) == 16
  {
    var released, held := s.tokens.charges[0], s.tokens.charges[1];
    var released1, held1 := s.requests.charges[0], s.requests.charges[1];
    SpendOfTwo(released, held, 61.0 - MINUTE);
    SpendOfTwo(released, held, 61.0 - DAY);
    SpendOfTwo(released1, held1, 61.0 - MINUTE);
    SpendOfTwo(released1, held1, 61.0 - DAY);
    assert Charging(s.tokens, 61.0 - MINUTE) == 0;
    assert Charging(s.tokens, 61.0 - DAY) == 8;
    assert Charging(s.requests, 61.0 - MINUTE) == 0;
    assert Charging(s.requests, 61.0 - DAY) == 1;
    SpendAppend(s.tokens.charges, Charge(61.0, 8, None), 61.0 - MINUTE);
    assert Unreleased([Charge(61.0, 8, None)], 61.0 - MINUTE) == 8;
    hide Unreleased, OrphanReleases, Inv, InOrder, UnitRequests, Next;
    GrantStep(s, lim, 8, 61.0);
  }

  // ------------------------------------------------------- a late release

  lemma SettleNothing(w: Window, cutoff: real)
    requires w.log == [] || w.log[0].at >= cutoff
    ensures Settle(w, cutoff) == w
  {
    hide Sum;
  }

  /** Ledgers whose logs agree in both windows. */
  function Agreeing(tokens: Window, requests: Window): Ledgers {
    Ledgers(tokens, requests, tokens, requests)
  }

  lemma SettleAgreeing(tokens: Window, requests: Window, now: real)
    requires forall w :: w in {tokens, requests} ==> w.log == [] || w.log[0].at >= now - MINUTE
    ensures SettleAll(Agreeing(tokens, requests), now) == Agreeing(tokens, requests)
  {
    hide Settle;
    assert tokens in {tokens, requests} && requests in {tokens, requests};
    SettleNothing(tokens, now - MINUTE);
    SettleNothing(requests, now - MINUTE);
    SettleNothing(tokens, now - DAY);
    SettleNothing(requests, now - DAY);
  }

  /** The run so far, after these entries and charges. */
  function LateState(tokens: seq<Entry>, requests: seq<Entry>, total: int, count: int, ts: seq<Charge>, rs: seq<Charge>,
                     clock: real): RunState {
    RunState(Agreeing(Window(tokens, total), Window(requests, count)),
             Account(tokens, ts), Account(requests, rs), clock)
  }

  const LATE_LIMITS := Limits(100, 10, 100, 100)
  const T0 := Entry(0.0, 4)
  const T1 := Entry(1.0, 4)
  const T2 := Entry(0.5, -4)
  const R0 := Entry(0.0, 1)
  const R1 := Entry(1.0, 1)
  const R2 := Entry(0.5, -1)

  lemma LateGrant(s: RunState, now: real, tokens: Window, requests: Window)
    requires s.ledgers == Agreeing(tokens, requests) && s.clock <= now
    requires forall w :: w in {tokens, requests} ==> w.log == [] || w.log[0].at >= now - MINUTE
    requires tokens.total <= 4 && requests.total <= 1
    ensures Next(s, Reserve(now, 4), LATE_LIMITS)
         == RunState(Agreeing(Post(tokens, now, 4), Post(requests, now, 1)),
                     Charged(s.tokens, now, 4), Charged(s.requests, now, 1), now)
  {
    SettleAgreeing(tokens, requests, now);
    hide SettleAll, Post, Charged;
  }

  lemma SettleLate()
    ensures Settle(Window([T0, T1, T2], 4), 0.75) == Window([T1, T2], 0)
    ensures Settle(Window([R0, R1, R2], 1), 0.75) == Window([R1, R2], 0)
  {
    assert [T0, T1, T2][1..] == [T1, T2] && [R0, R1, R2][1..] == [R1, R2];
    assert Pruned([T1, T2], 0.75) == [T1, T2] && Pruned([R1, R2], 0.75) == [R1, R2];
    assert Sum([T0, T1, T2]) == T0.amount + Sum([T1, T2]) && Sum([R0, R1, R2]) == R0.amount + Sum([R1, R2]);
    hide Sum;
  }

  function AfterOne(): RunState {
    LateState([T0], [R0], 4, 1, [Charge(0.0, 4, None)], [Charge(0.0, 1, None)], 0.0)
  }

  function AfterTwo(): RunState {
    LateState([T0, T1], [R0, R1], 8, 2, [Charge(0.0, 4, None), Charge(1.0, 4, None)],
              [Charge(0.0, 1, None), Charge(1.0, 1, None)], 1.0)
  }

  function AfterThree(): RunState {
    LateState([T0, T1, T2], [R0, R1, R2], 4, 1, [Charge(0.0, 4, Some(0.5)), Charge(1.0, 4, None)],
              [Charge(0.0, 1, Some(0.5)), Charge(1.0, 1, None)], 1.0)
  }

  lemma LateFirst()
    ensures Enabled(Start(0.0), Reserve(0.0, 4)) && Next(Start(0.0), Reserve(0.0, 4), LATE_LIMITS) == AfterOne()
  {
    LateGrant(Start(0.0), 0.0, EMPTY, EMPTY);
    hide Next;
  }

  lemma LateSecond()
    ensures Enabled(AfterOne(), Reserve(1.0, 4)) && Next(AfterOne(), Reserve(1.0, 4), LATE_LIMITS) == AfterTwo()
  {
    LateGrant(AfterOne(), 1.0, Window([T0], 4), Window([R0], 1));
    hide Next;
  }

  lemma LateThird()
    ensures Enabled(AfterTwo(), Release(0.5, 0)) && Next(AfterTwo(), Release(0.5, 0), LATE_LIMITS) == AfterThree()
  {
  }

  lemma LateOverspend(s: RunState)
    requires s == AfterThree()
    ensures Enabled(s, Reserve(60.75, 8))
    ensures var next := Next(s, Reserve(60.75, 8), LATE_LIMITS);
            && next.tokens != s.tokens
            && Unreleased(next.tokens.charges, 0.75) == 12 && OrphanReleases(next.tokens.charges, 0.75) == 0
  {
    SettleLate();
    SettleNothing(Window([T0, T1, T2], 4), 60.75 - DAY);
    SettleNothing(Window([R0, R1, R2], 1), 60.75 - DAY);
    var a, b, c := Charge(0.0, 4, Some(0.5)), Charge(1.0, 4, None), Charge(60.75, 8, None);
    SpendOfTwo(a, b, 0.75);
    SpendAppend([a, b], c, 0.75);
    assert Unreleased([a], 0.75) == 0 && Unreleased([b], 0.75) == 4 && Unreleased([c], 0.75) == 8;
    hide Settle, Unreleased, OrphanReleases;
  }

  /**
   Nor can what is stuck be dropped: a release dated before a charge that was
   entered ahead of it hides a spend of 12 in a minute whose threshold is 8, though
   no release inside the window has lost its reservation.
   */
  lemma LateReleaseAdmitsOverspend() returns (events: seq<Event>, states: seq<RunState>)
    ensures IsRun(LATE_LIMITS, events, states)
    ensures |events| == 4 && events[3].Reserve? && states[4].tokens != states[3].tokens
    ensures Unreleased(states[4].tokens.charges, events[3].now - MINUTE) == 12
    ensures OrphanReleases(states[4].tokens.charges, events[3].now - MINUTE) == 0
  {
    var e0, e1, e2, e3 := Reserve(0.0, 4), Reserve(1.0, 4), Release(0.5, 0), Reserve(60.75, 8);
    LateFirst();
    LateSecond();
    LateThird();
    LateOverspend(AfterThree());
    hide *;
    events, states := FourSteps(LATE_LIMITS, 0.0, AfterOne(), AfterTwo(), AfterThree(), e0, e1, e2, e3);
  }

  lemma FourSteps(lim: Limits, clock: real, s1: RunState, s2: RunState, s3: RunState, e0: Event, e1: Event, e2: Event,
                  e3: Event)
    returns (events: seq<Event>, states: seq<RunState>)
    requires Enabled(Start(clock), e0) && Next(Start(clock), e0, lim) == s1
    requires Enabled(s1, e1) && Next(s1, e1, lim) == s2 && Enabled(s2, e2) && Next(s2, e2, lim) == s3
    requires Enabled(s3, e3)
    ensures IsRun(lim, events, states) && events == [e0, e1, e2, e3] && |states| == 5
    ensures states[3] == s3 && states[4] == Next(s3, e3, lim)
  {
    hide Enabled, Next;
    events, states := [e0, e1, e2, e3], [Start(clock), s1, s2, s3, Next(s3, e3, lim)];
    assert states[0].clock == clock;
  }

  // -------------------------------------------------------- no releases

  /** Spend dated inside [from, to]. */
  function Between(log: seq<Entry>, from: real, to: real): int {
    if log == [] then 0
    else
      var e := log[|log| - 1];
      Between(log[..|log| - 1], from, to) + (if from <= e.at <= to then e.amount else 0)
  }

  ghost predicate AppendFits(log: seq<Entry>, i: nat, width: real, limit: nat)
    requires i < |log|
  {
    5 * Sum(Live(log[..i + 1], log[i].at - width)) <= 4 * limit
  }

  /** Each append left the window that ends at it within 80 %. */
  ghost predicate EachAppendFits(log: seq<Entry>, width: real, limit: nat) {
    forall i :: 0 <= i < |log| ==> log[i].amount >= 0 && AppendFits(log, i, width, limit)
  }

  lemma {:induction false} BetweenAtMostLive(log: seq<Entry>, from: real, to: real, cutoff: real)
    requires cutoff <= from
    requires forall i :: 0 <= i < |log| ==> log[i].amount >= 0
    ensures Between(log, from, to) <= Sum(Live(log, cutoff))
  {
    if log != [] {
      var before, e := log[..|log| - 1], log[|log| - 1];
      assert log == before + [e];
      BetweenAtMostLive(before, from, to, cutoff);
      LivePost(before, e, cutoff);
    }
  }

  /** Then every window is within 80 %, wherever it is placed in time. */
  lemma {:induction false} EveryWindowFits(log: seq<Entry>, width: real, limit: nat, end: real)
    requires EachAppendFits(log, width, limit)
    ensures 5 * Between(log, end - width, end) <= 4 * limit
  {
    hide Live, Sum;
    if log != [] {
      var last := |log| - 1;
      assert AppendFits(log, last, width, limit);
      if log[last].at > end {
        forall i | 0 <= i < last ensures AppendFits(log[..last], i, width, limit) {
          assert AppendFits(log, i, width, limit);
          assert log[..last][..i + 1] == log[..i + 1];
        }
        EveryWindowFits(log[..last], width, limit, end);
      } else {
        assert log[..last + 1] == log;
        BetweenAtMostLive(log, end - width, end, log[last].at - width);
      }
    }
  }

  lemma OneMoreFits(log: seq<Entry>, width: real, limit: nat, now: real, amount: nat)
    requires EachAppendFits(log, width, limit)
    requires 5 * Sum(Live(log + [Entry(now, amount)], now - width)) <= 4 * limit
    ensures EachAppendFits(log + [Entry(now, amount)], width, limit)
  {
    hide Sum, Live;
    var after := log + [Entry(now, amount)];
    forall i | 0 <= i < |after| ensures after[i].amount >= 0 && AppendFits(after, i, width, limit) {
      if i < |log| {
        assert AppendFits(log, i, width, limit);
        assert after[..i + 1] == log[..i + 1];
      } else {
        assert after[..i + 1] == after;
      }
    }
  }

  ghost predicate AllFit(s: RunState, lim: Limits) {
    && EachAppendFits(s.tokens.history, MINUTE, lim.tpm)
    && EachAppendFits(s.requests.history, MINUTE, lim.rpm)
    && EachAppendFits(s.tokens.history, DAY, lim.tpd)
    && EachAppendFits(s.requests.history, DAY, lim.rpd)
  }

  lemma GrantKeepsAllFit(s: RunState, now: real, est: nat, lim: Limits)
    requires Inv(s) && InOrder(s) && AllFit(s, lim) && s.clock <= now && Fits(SettleAll(s.ledgers, now), lim, est)
    ensures AllFit(s.(tokens := Charged(s.tokens, now, est), requests := Charged(s.requests, now, 1)), lim)
  {
    OrderIsChargeOrder(s);
    InvStuck(s, now);
    hide Inv, InOrder, EachAppendFits, Fits, SettleAll, GrantedWithin, Stuck, OnlyReleasesStuck;
    GrantBounds(s, now, est, lim);
    OneMoreFits(s.tokens.history, MINUTE, lim.tpm, now, est);
    OneMoreFits(s.requests.history, MINUTE, lim.rpm, now, 1);
    OneMoreFits(s.tokens.history, DAY, lim.tpd, now, est);
    OneMoreFits(s.requests.history, DAY, lim.rpd, now, 1);
  }

  lemma {:induction false} RunWithoutReleaseFits(lim: Limits, events: seq<Event>, states: seq<RunState>, k: nat)
    requires IsRun(lim, events, states) && k < |states|
    requires forall i :: 0 <= i < |events| ==> !events[i].Release? && !events[i].Record?
    ensures AllFit(states[k], lim)
  {
    hide Inv, InOrder, Prompt, AllFit, Enabled, Next, UnitRequests, Start;
    if k == 0 {
      NothingFits(states[0].clock, lim);
    } else {
      RunWithoutReleaseFits(lim, events, states, k - 1);
      RunInOrder(lim, events, states);
      RunKeepsInv(lim, events, states, k - 1);
      RunKeepsOrder(lim, events, states, k - 1);
      NextWithoutReleaseFits(states[k - 1], events[k - 1], lim);
    }
  }

  lemma NothingFits(clock: real, lim: Limits)
    ensures AllFit(Start(clock), lim)
  {
  }

  lemma RunInOrder(lim: Limits, events: seq<Event>, states: seq<RunState>)
    requires IsRun(lim, events, states)
    requires forall i :: 0 <= i < |events| ==> !events[i].Release? && !events[i].Record?
    ensures Prompt(events, states)
  {
    hide Next;
  }

  lemma NextWithoutReleaseFits(s: RunState, e: Event, lim: Limits)
    requires Inv(s) && InOrder(s) && Enabled(s, e) && !e.Release? && !e.Record? && AllFit(s, lim)
    ensures AllFit(Next(s, e, lim), lim)
  {
    hide Inv, InOrder, EachAppendFits, Fits, SettleAll, SettleDays, PostAll;
    if e.Reserve? && Fits(SettleAll(s.ledgers, e.now), lim, e.est) {
      GrantKeepsAllFit(s, e.now, e.est, lim);
    }
  }

  /** With no releases or records, every window ending at any time at all stays within 80 %. */
  lemma NoReleaseStaysWithinThreshold(lim: Limits, events: seq<Event>, states: seq<RunState>, end: real)
    requires IsRun(lim, events, states)
    requires forall i :: 0 <= i < |events| ==> !events[i].Release? && !events[i].Record?
    ensures var s := states[|events|];
            && 5 * Between(s.tokens.history, end - MINUTE, end) <= 4 * lim.tpm
            && 5 * Between(s.requests.history, end - MINUTE, end) <= 4 * lim.rpm
            && 5 * Between(s.tokens.history, end - DAY, end) <= 4 * lim.tpd
            && 5 * Between(s.requests.history, end - DAY, end) <= 4 * lim.rpd
  {
    hide EachAppendFits, Between, Next, Enabled;
    RunWithoutReleaseFits(lim, events, states, |events|);
    var s := states[|events|];
    EveryWindowFits(s.tokens.history, MINUTE, lim.tpm, end);
    EveryWindowFits(s.requests.history, MINUTE, lim.rpm, end);
    EveryWindowFits(s.tokens.history, DAY, lim.tpd, end);
    EveryWindowFits(s.requests.history, DAY, lim.rpd, end);
  }
}
