/** Monthly usage counters with a lazy reset that archives the month it leaves behind. */
module UsageTracker {
  import opened Wrappers

  /** A user row as the tracker reads it: an unset count is 0, an unset tier "free", an unset month None. Months
      are numbered in calendar order. */
  datatype Row = Row(count: nat, month: Option<int>, tier: string)

  datatype Archived = Archived(user: string, month: int, count: nat, tier: string)

  datatype Store = Store(users: map<string, Row>, history: seq<Archived>)

  function Quota(tier: string): nat {
    if tier == "free" then 3 else if tier == "pro" then 30 else if tier == "premium" then 0 else 3
  }

  // ------------------------------------------------------------ operations

  /** The archive write; it may fail, and nothing is written for an empty count. */
  function Archive(st: Store, u: string, month: int, count: nat, tier: string, ok: bool): Store {
    if count == 0 || !ok then st else st.(history := st.history + [Archived(u, month, count, tier)])
  }

  function ResetTo(st: Store, u: string, month: int): Store
    requires u in st.users
  {
    st.(users := st.users[u := st.users[u].(count := 0, month := Some(month))])
  }

  /** The lazy reset on a change of month. */
  function MaybeReset(st: Store, u: string, now: int, ok: bool): Store
    requires u in st.users
  {
    var row := st.users[u];
    if row.month == Some(now) then st
    else
      var archived := if row.month.Some? then Archive(st, u, row.month.value, row.count, row.tier, ok) else st;
      ResetTo(archived, u, now)
  }

  /** The month is read twice: before the reset and again for the update. */
  function Increment(st: Store, u: string, now: int, later: int, ok: bool): Store {
    if u !in st.users then st
    else
      var s1 := MaybeReset(st, u, now, ok);
      var row := s1.users[u];
      s1.(users := s1.users[u := row.(count := row.count + 1, month := Some(later))])
  }

  function CheckQuota(st: Store, u: string, now: int, ok: bool): (Store, bool) {
    if u == "" || u !in st.users then (st, false)
    else
      var s1 := MaybeReset(st, u, now, ok);
      var quota := Quota(s1.users[u].tier);
      (s1, quota != 0 && s1.users[u].count >= quota)
  }

  /** A manual reset of one user; a zero count is left alone. */
  function ResetUser(st: Store, u: string, now: int, ok: bool): Store {
    if u !in st.users || st.users[u].count == 0 then st
    else
      var row := st.users[u];
      ResetTo(Archive(st, u, if row.month.Some? then row.month.value else now, row.count, row.tier, ok), u, now)
  }

  function ResetUsers(st: Store, us: seq<string>, now: int, ok: bool): Store
    decreases |us|
  {
    if us == [] then st else ResetUsers(ResetUser(st, us[0], now, ok), us[1..], now, ok)
  }

  /** The listed users with something to reset. */
  function ToZero(st: Store, us: seq<string>): set<string> {
    set u | u in us && u in st.users && st.users[u].count > 0
  }

  lemma ToZeroNext(st: Store, us: seq<string>, i: nat)
    requires i < |us|
    ensures forall v :: v in us[..i + 1] <==> v in us[..i] || v == us[i]
    ensures |ToZero(st, us[..i + 1])|
         == |ToZero(st, us[..i])| + if us[i] in ToZero(st, us) && us[i] !in us[..i] then 1 else 0
  {
    assert us[..i + 1] == us[..i] + [us[i]];
    var more, fewer := ToZero(st, us[..i + 1]), ToZero(st, us[..i]);
    assert more == if us[i] in ToZero(st, us) then fewer + {us[i]} else fewer;
  }

  /** A listed user who had used something starts the given month at nothing; nobody else changes. */
  lemma {:induction false} ResetsWhoIsListed(st: Store, us: seq<string>, now: int, ok: bool, u: string)
    ensures var after := ResetUsers(st, us, now, ok);
            && after.users.Keys == st.users.Keys
            && (u in st.users ==> after.users[u] == if u in ToZero(st, us) then Row(0, Some(now), st.users[u].tier)
                                                    else st.users[u])
    decreases |us|
  {
    if us != [] {
      ResetsWhoIsListed(ResetUser(st, us[0], now, ok), us[1..], now, ok, u);
      assert us == [us[0]] + us[1..];
      hide ResetUsers;
    }
  }

  lemma {:induction false} ResetsArchiveTiers(st: Store, us: seq<string>, now: int, ok: bool)
    ensures st.history <= ResetUsers(st, us, now, ok).history && ArchivesTiers(st, ResetUsers(st, us, now, ok))
    decreases |us|
  {
    if us != [] {
      var next := ResetUser(st, us[0], now, ok);
      ResetsArchiveTiers(next, us[1..], now, ok);
      assert next.users.Keys == st.users.Keys && forall u :: u in st.users ==> next.users[u].tier == st.users[u].tier;
      assert forall i :: |st.history| <= i < |next.history| ==>
               next.history[i].user == us[0] && next.history[i].tier == st.users[us[0]].tier;
    }
  }

  class Tracker {
    var users: map<string, Row>
    var history: seq<Archived>

    function Value(): Store
      reads this
    {
      Store(users, history)
    }

    method LazyReset(u: string, now: int, ok: bool)
      requires u in users
      modifies this
      ensures Value() == MaybeReset(old(Value()), u, now, ok)
    {
      var row := users[u];
      if row.month == Some(now) { return; }
      if row.month.Some? && row.count > 0 && ok {
        history := history + [Archived(u, row.month.value, row.count, row.tier)];
      }
      users := users[u := row.(count := 0, month := Some(now))];
    }

    method IncrementUsage(u: string, now: int, later: int, ok: bool)
      modifies this
      ensures Value() == Increment(old(Value()), u, now, later, ok)
    {
      if u !in users { return; }
      LazyReset(u, now, ok);
      users := users[u := users[u].(count := users[u].count + 1, month := Some(later))];
    }

    method IsQuotaExceeded(u: string, now: int, ok: bool) returns (exceeded: bool)
      modifies this
      ensures (Value(), exceeded) == CheckQuota(old(Value()), u, now, ok)
    {
      if u == "" || u !in users { return false; }
      LazyReset(u, now, ok);
      var quota := Quota(users[u].tier);
      if quota == 0 { return false; }
      return users[u].count >= quota;
    }

    /** The counter reports how many rows were actually zeroed. */
    method ResetUserUsage(ids: seq<string>, now: int, ok: bool) returns (count: nat)
      modifies this
      ensures Value() == ResetUsers(old(Value()), ids, now, ok)
      ensures count == |ToZero(old(Value()), ids)|
      ensures ok ==> count == |history| - |old(history)|
    {
      count := 0;
      assert ids[0..] == ids;
      for i := 0 to |ids|
        invariant ResetUsers(Value(), ids[i..], now, ok) == ResetUsers(old(Value()), ids, now, ok)
        invariant users.Keys == old(users.Keys)
        invariant forall v :: v in users ==> users[v].count == if v in ids[..i] then 0 else old(users)[v].count
        invariant count == |ToZero(old(Value()), ids[..i])|
        invariant ok ==> count == |history| - |old(history)|
      {
        assert ids[i..][1..] == ids[i + 1..];
        ToZeroNext(old(Value()), ids, i);
        var u := ids[i];
        if u in users && users[u].count > 0 {
          var row := users[u];
          if ok {
            history := history + [Archived(u, if row.month.Some? then row.month.value else now, row.count, row.tier)];
          }
          users := users[u := row.(count := 0, month := Some(now))];
          count := count + 1;
        }
      }
      assert ids[..|ids|] == ids;
    }
  }

  // ---------------------------------------------------------- conservation

  datatype Use = Use(user: string, month: int)

  function ArchivedFor(history: seq<Archived>, u: string, m: int): nat {
    if history == [] then 0
    else
      var a := history[|history| - 1];
      ArchivedFor(history[..|history| - 1], u, m) + if a.user == u && a.month == m then a.count else 0
  }

  function LiveFor(users: map<string, Row>, u: string, m: int): nat {
    if u in users && users[u].month == Some(m) then users[u].count else 0
  }

  function MadeIn(made: seq<Use>, u: string, m: int): nat {
    if made == [] then 0
    else MadeIn(made[..|made| - 1], u, m) + if made[|made| - 1] == Use(u, m) then 1 else 0
  }

  function Recorded(st: Store, u: string, m: int): nat {
    ArchivedFor(st.history, u, m) + LiveFor(st.users, u, m)
  }

  /** A row whose month was never set has counted nothing. */
  ghost predicate RowsSane(st: Store) {
    forall u :: u in st.users && st.users[u].month.None? ==> st.users[u].count == 0
  }

  /** What was archived since is archived under the user's own tier. */
  ghost predicate ArchivesTiers(a: Store, b: Store) {
    forall i :: |a.history| <= i < |b.history| ==>
      b.history[i].user in a.users && b.history[i].tier == a.users[b.history[i].user].tier
  }

  ghost predicate SameRecord(a: Store, b: Store) {
    forall u, m :: Recorded(a, u, m) == Recorded(b, u, m)
  }

  lemma ArchivedAppend(history: seq<Archived>, a: Archived, u: string, m: int)
    ensures ArchivedFor(history + [a], u, m)
         == ArchivedFor(history, u, m) + if a.user == u && a.month == m then a.count else 0
  {
    assert (history + [a])[..|history|] == history;
  }

  lemma ArchivedAppends(history: seq<Archived>, a: Archived)
    ensures forall v, m :: ArchivedFor(history + [a], v, m)
                           == ArchivedFor(history, v, m) + if v == a.user && m == a.month then a.count else 0
  {
    forall v, m ensures ArchivedFor(history + [a], v, m)
                     == ArchivedFor(history, v, m) + if v == a.user && m == a.month then a.count else 0
    {
      ArchivedAppend(history, a, v, m);
    }
  }

  lemma MadeAppend(made: seq<Use>, use: Use, u: string, m: int)
    ensures MadeIn(made + [use], u, m) == MadeIn(made, u, m) + if use == Use(u, m) then 1 else 0
  {
    assert (made + [use])[..|made|] == made;
  }

  /** Leaving a month behind keeps every user's record for every month if and only if there was nothing to
      archive or the archive write succeeded. */
  lemma MaybeResetConservesIff(st: Store, u: string, now: int, ok: bool)
    requires u in st.users && RowsSane(st)
    ensures SameRecord(st, MaybeReset(st, u, now, ok))
            <==> ok || st.users[u].month == Some(now) || st.users[u].count == 0
    ensures ArchivesTiers(st, MaybeReset(st, u, now, ok)) && RowsSane(MaybeReset(st, u, now, ok))
  {
    var row, after := st.users[u], MaybeReset(st, u, now, ok);
    hide ArchivedFor;
    if row.month.Some? {
      var a := Archived(u, row.month.value, row.count, row.tier);
      ArchivedAppends(st.history, a);
      if !ok && row.month != Some(now) && row.count > 0 {
        assert Recorded(after, u, row.month.value) != Recorded(st, u, row.month.value);
      }
    }
  }

  lemma ResetUserConserves(st: Store, u: string, now: int)
    requires RowsSane(st)
    ensures SameRecord(st, ResetUser(st, u, now, true)) && RowsSane(ResetUser(st, u, now, true))
  {
    if u in st.users && st.users[u].count > 0 {
      hide ArchivedFor;
      var row := st.users[u];
      var a := Archived(u, row.month.value, row.count, row.tier);
      ArchivedAppends(st.history, a);
    }
  }

  lemma {:induction false} ResetUsersConserve(st: Store, us: seq<string>, now: int)
    requires RowsSane(st)
    ensures SameRecord(st, ResetUsers(st, us, now, true)) && RowsSane(ResetUsers(st, us, now, true))
    decreases |us|
  {
    hide ResetUser, Recorded;
    if us != [] {
      ResetUserConserves(st, us[0], now);
      ResetUsersConserve(ResetUser(st, us[0], now, true), us[1..], now);
    }
  }

  /** The record gains exactly one use, by u, in month m. */
  ghost predicate OneMoreUse(a: Store, b: Store, u: string, m: int) {
    forall v, n :: Recorded(b, v, n) == Recorded(a, v, n) + if v == u && n == m then 1 else 0
  }

  /** Writing a row back with one more use: counted once, in the written month, if and only if the row keeps its
      month or had counted nothing. */
  lemma BumpCountsOnceIff(st: Store, u: string, later: int)
    requires u in st.users && st.users[u].month.Some?
    ensures var row := st.users[u];
            var after := st.(users := st.users[u := row.(count := row.count + 1, month := Some(later))]);
            OneMoreUse(st, after, u, later) <==> row.month == Some(later) || row.count == 0
  {
    hide ArchivedFor;
    var row := st.users[u];
    var after := st.(users := st.users[u := row.(count := row.count + 1, month := Some(later))]);
    if row.month != Some(later) && row.count > 0 {
      assert Recorded(after, u, row.month.value) != Recorded(st, u, row.month.value);
    }
  }

  /** An increment counts once, in the month it writes, if and only if the month did not roll over between its
      two readings, or the row was of another month than the first reading, or had counted nothing. */
  lemma IncrementCountsOnceIff(st: Store, u: string, now: int, later: int)
    requires u in st.users && RowsSane(st)
    ensures OneMoreUse(st, Increment(st, u, now, later, true), u, later)
            <==> now == later || st.users[u].month != Some(now) || st.users[u].count == 0
    ensures RowsSane(Increment(st, u, now, later, true))
  {
    hide Recorded, Archive;
    MaybeResetConservesIff(st, u, now, true);
    var s1 := MaybeReset(st, u, now, true);
    BumpCountsOnceIff(s1, u, later);
    assert s1.users[u].month == Some(now);
    SameRecordShifts(st, s1, Increment(st, u, now, later, true), u, later);
  }

  lemma SameRecordShifts(a: Store, b: Store, c: Store, u: string, m: int)
    requires SameRecord(a, b)
    ensures OneMoreUse(a, c, u, m) <==> OneMoreUse(b, c, u, m)
  {
    hide Recorded;
    forall v, n ensures Recorded(a, v, n) == Recorded(b, v, n) {
    }
  }

  // ------------------------------------------------------------ whole runs

  /** An increment reads the month twice. */
  datatype Op =
    | Use1(user: string, month: int, later: int)
    | Check(user: string, month: int)
    | Reset(users: seq<string>, month: int)

  function Do(st: Store, op: Op): Store {
    match op
    case Use1(u, m, later) => Increment(st, u, m, later, true)
    case Check(u, m) => CheckQuota(st, u, m, true).0
    case Reset(us, m) => ResetUsers(st, us, m, true)
  }

  function DoAll(st: Store, ops: seq<Op>): Store {
    if ops == [] then st else Do(DoAll(st, ops[..|ops| - 1]), ops[|ops| - 1])
  }

  /** The uses that counted: increments for users that exist. */
  function Uses(st: Store, ops: seq<Op>): seq<Use> {
    if ops == [] then []
    else
      Uses(st, ops[..|ops| - 1]) + UseOf(st, ops[|ops| - 1])
  }

  ghost predicate Fresh(st: Store) {
    st.history == [] && forall u :: u in st.users ==> st.users[u].count == 0
  }

  ghost predicate Tallies(st: Store, made: seq<Use>) {
    forall u, m :: Recorded(st, u, m) == MadeIn(made, u, m)
  }

  lemma {:induction false} ResetUsersKeepUsers(st: Store, us: seq<string>, now: int)
    ensures ResetUsers(st, us, now, true).users.Keys == st.users.Keys
    decreases |us|
  {
    if us != [] {
      ResetUsersKeepUsers(ResetUser(st, us[0], now, true), us[1..], now);
    }
  }

  /** An increment of a row that has counted in its first month does not roll over between its readings. */
  predicate CountsOnce(st: Store, op: Op) {
    op.Use1? && op.user in st.users
    ==> op.month == op.later || st.users[op.user].month != Some(op.month) || st.users[op.user].count == 0
  }

  predicate EachCountsOnce(st: Store, ops: seq<Op>) {
    ops == [] ||
    var before := ops[..|ops| - 1];
    EachCountsOnce(st, before) && CountsOnce(DoAll(st, before), ops[|ops| - 1])
  }

  function UseOf(st: Store, op: Op): seq<Use> {
    if op.Use1? && op.user in st.users then [Use(op.user, op.later)] else []
  }

  lemma DoKeepsRows(st: Store, op: Op)
    requires RowsSane(st)
    ensures RowsSane(Do(st, op)) && Do(st, op).users.Keys == st.users.Keys
  {
    match op
    case Use1(u, m, later) => if u in st.users { IncrementCountsOnceIff(st, u, m, later); }
    case Check(u, m) => if u in st.users { MaybeResetConservesIff(st, u, m, true); }
    case Reset(us, m) =>
      ResetUsersConserve(st, us, m);
      ResetUsersKeepUsers(st, us, m);
  }

  lemma DoKeepsTally(st: Store, op: Op, made: seq<Use>)
    requires RowsSane(st) && Tallies(st, made) && CountsOnce(st, op)
    ensures Tallies(Do(st, op), made + UseOf(st, op))
  {
    if op.Use1? && op.user in st.users {
      var use := Use(op.user, op.later);
      IncrementCountsOnceIff(st, op.user, op.month, op.later);
      hide Recorded, MadeIn;
      forall v, n ensures MadeIn(made + [use], v, n) == MadeIn(made, v, n) + if use == Use(v, n) then 1 else 0 {
        MadeAppend(made, use, v, n);
      }
    } else {
      assert made + [] == made;
      hide Recorded, MadeIn, ResetUsers, MaybeReset;
      if op.Check? && op.user in st.users {
        MaybeResetConservesIff(st, op.user, op.month, true);
      } else if op.Reset? {
        ResetUsersConserve(st, op.users, op.month);
      }
    }
  }

  lemma {:induction false} RunKeepsRows(st: Store, ops: seq<Op>)
    requires Fresh(st)
    ensures RowsSane(DoAll(st, ops)) && DoAll(st, ops).users.Keys == st.users.Keys
  {
    if ops != [] {
      hide RowsSane, Do;
      RunKeepsRows(st, ops[..|ops| - 1]);
      DoKeepsRows(DoAll(st, ops[..|ops| - 1]), ops[|ops| - 1]);
    } else {
      hide Do;
    }
  }

  /**
   Over every run of increments, quota checks and resets, in any order of
   months: for each user and month, what is archived plus what is live equals
   the uses made in that month, as long as no increment of a row that has
   counted rolls over between its readings.
   */
  lemma {:induction false} RunConservesUsage(st: Store, ops: seq<Op>)
    requires Fresh(st) && EachCountsOnce(st, ops)
    ensures Tallies(DoAll(st, ops), Uses(st, ops))
  {
    if ops != [] {
      hide RowsSane, Tallies, Do, CountsOnce;
      var before, op := ops[..|ops| - 1], ops[|ops| - 1];
      RunKeepsRows(st, before);
      RunConservesUsage(st, before);
      DoKeepsTally(DoAll(st, before), op, Uses(st, before));
    }
  }

  // ------------------------------------------------ rollovers in mid-increment

  function EndMonth(op: Op): int {
    if op.Use1? then op.later else op.month
  }

  /** Months never go back, within an operation or from one to the next. */
  ghost predicate MonthsInOrder(ops: seq<Op>) {
    && (forall i :: 0 <= i < |ops| ==> ops[i].month <= EndMonth(ops[i]))
    && (forall i, j :: 0 <= i < j < |ops| ==> EndMonth(ops[i]) <= ops[j].month)
  }

  /** What is recorded for a month that is over cannot grow any more. */
  lemma PastNeverGrows(st: Store, op: Op, u: string, m: int)
    requires RowsSane(st) && m < op.month <= EndMonth(op)
    ensures Recorded(Do(st, op), u, m) <= Recorded(st, u, m)
  {
    match op
    case Use1(v, now, later) => if v in st.users { IncrementNeverGrows(st, v, now, later, u, m); }
    case Check(v, now) =>
      if v in st.users { MaybeResetConservesIff(st, v, now, true); }
      hide Recorded, MaybeReset;
    case Reset(us, now) =>
      ResetUsersConserve(st, us, now);
      hide Recorded, ResetUsers;
  }

  lemma IncrementNeverGrows(st: Store, v: string, now: int, later: int, u: string, m: int)
    requires RowsSane(st) && v in st.users && m != later
    ensures Recorded(Increment(st, v, now, later, true), u, m) <= Recorded(st, u, m)
  {
    MaybeResetConservesIff(st, v, now, true);
    var s1 := MaybeReset(st, v, now, true);
    assert Recorded(s1, u, m) == Recorded(st, u, m);
    hide ArchivedFor, MaybeReset;
  }

  /** A rollover takes the uses of the first month away. */
  lemma RolloverLosesUses(st: Store, op: Op)
    requires RowsSane(st) && !CountsOnce(st, op)
    ensures Recorded(Do(st, op), op.user, op.month) < Recorded(st, op.user, op.month)
  {
    hide ArchivedFor;
  }

  lemma {:induction false} MadeOnlyGrows(a: seq<Use>, b: seq<Use>, u: string, m: int)
    ensures MadeIn(a, u, m) <= MadeIn(a + b, u, m)
  {
    if b == [] {
      assert a + b == a;
    } else {
      MadeOnlyGrows(a, b[..|b| - 1], u, m);
      assert (a + b)[..|a + b| - 1] == a + b[..|b| - 1];
    }
  }

  /** Some month that is over has more uses made than recorded. */
  ghost predicate Short(st: Store, made: seq<Use>, u: string, m: int) {
    Recorded(st, u, m) < MadeIn(made, u, m)
  }

  lemma {:induction false} RolloverLeavesShort(st: Store, ops: seq<Op>) returns (u: string, m: int)
    requires Fresh(st) && MonthsInOrder(ops) && !EachCountsOnce(st, ops)
    ensures Short(DoAll(st, ops), Uses(st, ops), u, m)
    ensures m < EndMonth(ops[|ops| - 1])
  {
    hide RowsSane, Do, Recorded, MadeIn;
    var before, op := ops[..|ops| - 1], ops[|ops| - 1];
    var last := DoAll(st, before);
    RunKeepsRows(st, before);
    if EachCountsOnce(st, before) {
      u, m := op.user, op.month;
      RolloverIsShort(st, before, op);
    } else {
      u, m := RolloverLeavesShort(st, before);
      assert EndMonth(before[|before| - 1]) <= op.month;
      PastNeverGrows(last, op, u, m);
    }
    MadeOnlyGrows(Uses(st, before), UseOf(st, op), u, m);
  }

  lemma RolloverIsShort(st: Store, before: seq<Op>, op: Op)
    requires Fresh(st) && EachCountsOnce(st, before) && !CountsOnce(DoAll(st, before), op) && op.month <= EndMonth(op)
    ensures Recorded(Do(DoAll(st, before), op), op.user, op.month) < MadeIn(Uses(st, before), op.user, op.month)
    ensures op.month < EndMonth(op)
  {
    assert op.month < EndMonth(op);
    hide Recorded, MadeIn, DoAll, Uses, Do, CountsOnce;
    RunKeepsRows(st, before);
    RunConservesUsage(st, before);
    RolloverLosesUses(DoAll(st, before), op);
  }

  /**
   With months in order, every user's record for every month is right after a
   run if and only if no increment of a row that had counted rolled over between
   its two readings; a single one is never made good.
   */
  lemma RunConservesUsageIff(st: Store, ops: seq<Op>)
    requires Fresh(st) && MonthsInOrder(ops)
    ensures Tallies(DoAll(st, ops), Uses(st, ops)) <==> EachCountsOnce(st, ops)
  {
    hide DoAll, Uses, Recorded, MadeIn;
    if EachCountsOnce(st, ops) {
      RunConservesUsage(st, ops);
    } else {
      var u, m := RolloverLeavesShort(st, ops);
    }
  }

  /** A use read in month 0 and written in month 1 takes an earlier use of month 0 with it. */
  lemma RolloverMovesUse()
    ensures var st := Store(map["u" := Row(1, Some(0), "free")], []);
            Recorded(st, "u", 0) == 1 && Recorded(Increment(st, "u", 0, 1, true), "u", 0) == 0
            && Recorded(Increment(st, "u", 0, 1, true), "u", 1) == 2
  {
  }

  // -------------------------------------------------------------- quotas

  /** Everything archived for a user lies in months before the user's current one. */
  ghost predicate ArchiveIsPast(st: Store, now: int) {
    && (forall i :: 0 <= i < |st.history| ==> st.history[i].user in st.users && st.history[i].month < now
                                              && st.users[st.history[i].user].month.Some?
                                              && st.history[i].month < st.users[st.history[i].user].month.value)
    && (forall u :: u in st.users && st.users[u].month.Some? ==> st.users[u].month.value <= now)
  }

  lemma LazyResetKeepsPast(st: Store, u: string, before: int, now: int)
    requires u in st.users && ArchiveIsPast(st, before) && before <= now && RowsSane(st)
    ensures ArchiveIsPast(MaybeReset(st, u, now, true), now)
  {
  }

  lemma DoKeepsPast(st: Store, op: Op, before: int)
    requires !op.Reset? && ArchiveIsPast(st, before) && before <= op.month <= EndMonth(op) && RowsSane(st)
    ensures ArchiveIsPast(Do(st, op), EndMonth(op))
  {
    if op.user in st.users && !(op.Check? && op.user == "") {
      LazyResetKeepsPast(st, op.user, before, op.month);
    }
  }

  lemma {:induction false} NoArchiveNow(history: seq<Archived>, u: string, m: int)
    requires forall i :: 0 <= i < |history| && history[i].user == u ==> history[i].month < m
    ensures ArchivedFor(history, u, m) == 0
  {
    if history != [] {
      NoArchiveNow(history[..|history| - 1], u, m);
    }
  }

  lemma {:induction false} RunKeepsPast(st: Store, ops: seq<Op>, now: int)
    requires Fresh(st) && (forall u :: u in st.users ==> st.users[u].month.None?)
    requires MonthsInOrder(ops) && (forall i :: 0 <= i < |ops| ==> !ops[i].Reset? && EndMonth(ops[i]) <= now)
    ensures ArchiveIsPast(DoAll(st, ops), now)
  {
    if ops != [] {
      var before, op := ops[..|ops| - 1], ops[|ops| - 1];
      RunKeepsPast(st, before, op.month);
      RunKeepsRows(st, before);
      hide Do;
      DoKeepsPast(DoAll(st, before), op, op.month);
    }
  }

  /** With months in order and no manual reset, a user is blocked exactly when the uses made in the current month
      have reached the tier's quota: 30 for pro, none for premium, 3 for anyone else. */
  lemma QuotaCountsThisMonth(st: Store, ops: seq<Op>, u: string, now: int)
    requires EachCountsOnce(st, ops)
    requires Fresh(st) && (forall v :: v in st.users ==> st.users[v].month.None?) && u in st.users && u != ""
    requires MonthsInOrder(ops) && (forall i :: 0 <= i < |ops| ==> !ops[i].Reset? && EndMonth(ops[i]) <= now)
    ensures var last := DoAll(st, ops);
            && u in last.users
            && (CheckQuota(last, u, now, true).1 <==>
                var tier := last.users[u].tier;
                tier != "premium" && MadeIn(Uses(st, ops), u, now) >= if tier == "pro" then 30 else 3)
  {
    RunConservesUsage(st, ops);
    RunKeepsRows(st, ops);
    RunKeepsPast(st, ops, now);
    var last := DoAll(st, ops);
    hide Do, DoAll, Uses, MadeIn;
    MaybeResetConservesIff(last, u, now, true);
    LazyResetKeepsPast(last, u, now, now);
    var s1 := MaybeReset(last, u, now, true);
    NoArchiveNow(s1.history, u, now);
    assert Recorded(s1, u, now) == Recorded(last, u, now);
  }
}
