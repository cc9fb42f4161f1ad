/**
 The bring-your-own-key monthly counter: increment first, compare, and roll the
 increment back on refusal, with requests interleaved at every store operation.
 */
module ByoCounter {

  /** The counter key names the user and the month read before the increment. */
  datatype Key = Key(user: string, month: int)

  /** Keyed: the month has been read and the key built, but the counter not yet moved. */
  datatype Phase = Waiting | Keyed(key: Key) | Admitted(key: Key) | Losing(key: Key) | Refused(key: Key)

  datatype Request = Request(user: string, phase: Phase)

  datatype State = State(counters: map<Key, int>, requests: seq<Request>, month: int)

  function Value(counters: map<Key, int>, key: Key): int {
    if key in counters then counters[key] else 0
  }

  // ------------------------------------------------------ store operations

  class CacheService {
    var counters: map<Key, int>

    method Incr(key: Key) returns (v: int)
      modifies this
      ensures counters == old(counters)[key := v] && v == Value(old(counters), key) + 1
    {
      v := Value(counters, key) + 1;
      counters := counters[key := v];
    }

    method Decr(key: Key)
      modifies this
      ensures counters == old(counters)[key := Value(old(counters), key) - 1]
    {
      counters := counters[key := Value(counters, key) - 1];
    }
  }

  /** The request run without interference: refused, leaving the counter as it was, exactly when it was full. */
  method CheckAndIncrement(cache: CacheService, key: Key, limit: int) returns (admitted: bool, count: int)
    modifies cache
    ensures admitted <==> Value(old(cache.counters), key) < limit
    ensures Value(cache.counters, key) == Value(old(cache.counters), key) + if admitted then 1 else 0
    ensures admitted ==> count == Value(cache.counters, key)
    ensures forall k :: k != key ==> Value(cache.counters, k) == Value(old(cache.counters), k)
  {
    count := cache.Incr(key);
    if count > limit {
      cache.Decr(key);
      return false, count;
    }
    return true, count;
  }

  const FREE_ALLOWANCE: nat := 10

  /** Which keys a chat turn uses: the platform's, the user's own, or none because the turn is blocked. */
  datatype Route = Platform | OwnKeys | Blocked

  /** Superusers and users within the free allowance use the platform; anyone else needs a key of their own and room
      under their own monthly limit, and only a turn that gets both is counted. */
  method ResolveForChat(cache: CacheService, superuser: bool, chats: nat, hasKey: bool, key: Key, limit: int)
    returns (route: Route)
    modifies cache
    ensures route == Platform <==> superuser || chats < 10
    ensures route == OwnKeys
            <==> !superuser && chats >= 10 && hasKey && Value(old(cache.counters), key) < limit
    ensures Value(cache.counters, key) == Value(old(cache.counters), key) + if route == OwnKeys then 1 else 0
    ensures forall k :: k != key ==> Value(cache.counters, k) == Value(old(cache.counters), k)
  {
    if superuser { return Platform; }
    if chats < FREE_ALLOWANCE { return Platform; }
    if !hasKey { return Blocked; }
    var admitted, _ := CheckAndIncrement(cache, key, limit);
    route := if admitted then OwnKeys else Blocked;
  }

  // ---------------------------------------------------------- interleavings

  datatype Step = ReadMonth(who: nat) | Increment(who: nat) | Rollback(who: nat) | NewMonth

  predicate Enabled(s: State, step: Step) {
    match step
    case ReadMonth(i) => i < |s.requests| && s.requests[i].phase.Waiting?
    case Increment(i) => i < |s.requests| && s.requests[i].phase.Keyed?
    case Rollback(i) => i < |s.requests| && s.requests[i].phase.Losing?
    case NewMonth => true
  }

  /** Each step is one reading of the month or one atomic store operation of one request; the limit of a user does
      not change. */
  function Next(s: State, step: Step, limit: string -> int): State
    requires Enabled(s, step)
  {
    match step
    case ReadMonth(i) =>
      var r := s.requests[i];
      s.(requests := s.requests[i := r.(phase := Keyed(Key(r.user, s.month)))])
    case Increment(i) =>
      var r := s.requests[i];
      var key := r.phase.key;
      var v := Value(s.counters, key) + 1;
      var phase := if v > limit(r.user) then Losing(key) else Admitted(key);
      s.(counters := s.counters[key := v], requests := s.requests[i := r.(phase := phase)])
    case Rollback(i) =>
      var r := s.requests[i];
      var key := r.phase.key;
      s.(counters := s.counters[key := Value(s.counters, key) - 1],
         requests := s.requests[i := r.(phase := Refused(key))])
    case NewMonth => s.(month := s.month + 1)
  }

  function Start(users: seq<string>, month: int): State {
    State(map[], seq(|users|, i requires 0 <= i < |users| => Request(users[i], Waiting)), month)
  }

  ghost predicate IsRun(users: seq<string>, limit: string -> int, steps: seq<Step>, states: seq<State>) {
    && |states| == |steps| + 1
    && states[0] == Start(users, states[0].month)
    && forall i :: 0 <= i < |steps| ==>
         Enabled(states[i], steps[i]) && states[i + 1] == Next(states[i], steps[i], limit)
  }

  // ---------------------------------------------------------------- counting

  /** How many requests are in exactly this phase. */
  function Count(rs: seq<Request>, phase: Phase): nat {
    if rs == [] then 0 else (if rs[0].phase == phase then 1 else 0) + Count(rs[1..], phase)
  }

  lemma {:induction false} CountUpdate(rs: seq<Request>, i: nat, r: Request, phase: Phase)
    requires i < |rs|
    ensures Count(rs[i := r], phase)
         == Count(rs, phase) - (if rs[i].phase == phase then 1 else 0) + (if r.phase == phase then 1 else 0)
  {
    if i == 0 {
      assert rs[i := r][1..] == rs[1..];
    } else {
      assert rs[i := r][1..] == rs[1..][i - 1 := r];
      CountUpdate(rs[1..], i - 1, r, phase);
    }
  }

  lemma {:induction false} CountPositive(rs: seq<Request>, i: nat)
    requires i < |rs|
    ensures Count(rs, rs[i].phase) > 0
  {
    if i > 0 {
      CountPositive(rs[1..], i - 1);
    }
  }

  function Cap(limit: int): nat {
    if limit < 0 then 0 else limit
  }

  /** What every interleaving keeps, for each key. */
  ghost predicate KeyInv(s: State, key: Key, limit: string -> int) {
    var admitted, losing, refused :=
      Count(s.requests, Admitted(key)), Count(s.requests, Losing(key)), Count(s.requests, Refused(key));
    && Value(s.counters, key) == admitted + losing
    && admitted <= Cap(limit(key.user))
    && (losing + refused > 0 ==> admitted == Cap(limit(key.user)))
  }

  lemma NextKeepsInv(s: State, step: Step, limit: string -> int, key: Key)
    requires Enabled(s, step) && KeyInv(s, key, limit)
    requires step.Increment? ==> KeyInv(s, s.requests[step.who].phase.key, limit)
    requires forall i :: 0 <= i < |s.requests| && !s.requests[i].phase.Waiting?
                         ==> s.requests[i].phase.key.user == s.requests[i].user
    ensures KeyInv(Next(s, step, limit), key, limit)
  {
    if !step.NewMonth? {
      var i := step.who;
      var r := Next(s, step, limit).requests[i];
      hide Count;
      CountUpdate(s.requests, i, r, Admitted(key));
      CountUpdate(s.requests, i, r, Losing(key));
      CountUpdate(s.requests, i, r, Refused(key));
      CountPositive(s.requests, i);
    }
  }

  ghost predicate Inv(s: State, limit: string -> int) {
    && (forall key :: KeyInv(s, key, limit))
    && (forall i :: 0 <= i < |s.requests| && !s.requests[i].phase.Waiting?
                    ==> s.requests[i].phase.key.user == s.requests[i].user)
  }

  lemma {:induction false} NoneYet(rs: seq<Request>, phase: Phase)
    requires !phase.Waiting? && forall i :: 0 <= i < |rs| ==> rs[i].phase.Waiting?
    ensures Count(rs, phase) == 0
  {
    if rs != [] {
      NoneYet(rs[1..], phase);
    }
  }

  lemma {:induction false} RunKeepsInv(users: seq<string>, limit: string -> int, steps: seq<Step>, states: seq<State>,
                                       k: nat)
    requires IsRun(users, limit, steps, states) && k < |states|
    ensures Inv(states[k], limit)
  {
    if k == 0 {
      forall key ensures KeyInv(states[0], key, limit) {
        NoneYet(states[0].requests, Admitted(key));
        NoneYet(states[0].requests, Losing(key));
        NoneYet(states[0].requests, Refused(key));
      }
    } else {
      RunKeepsInv(users, limit, steps, states, k - 1);
      hide KeyInv;
      var s, step := states[k - 1], steps[k - 1];
      forall key ensures KeyInv(states[k], key, limit) {
        NextKeepsInv(s, step, limit, key);
      }
    }
  }

  /**
   Under every interleaving, for every key: the stored value is the admitted
   requests plus the losers not yet rolled back; admissions never exceed the
   limit; and nobody has lost unless the limit was already fully admitted.
   */
  lemma CounterIsExact(users: seq<string>, limit: string -> int, steps: seq<Step>, states: seq<State>, key: Key)
    requires IsRun(users, limit, steps, states)
    ensures var s := states[|steps|];
            && Value(s.counters, key) == Count(s.requests, Admitted(key)) + Count(s.requests, Losing(key))
            && Count(s.requests, Admitted(key)) <= Cap(limit(key.user))
            && (Count(s.requests, Losing(key)) + Count(s.requests, Refused(key)) > 0
                ==> Count(s.requests, Admitted(key)) == Cap(limit(key.user)))
  {
    RunKeepsInv(users, limit, steps, states, |steps|);
    assert KeyInv(states[|steps|], key, limit);
  }

  /** The stored value is within the limit exactly when no rollback is pending on that key. */
  lemma StoredValueBoundedIff(users: seq<string>, limit: string -> int, steps: seq<Step>, states: seq<State>, key: Key)
    requires IsRun(users, limit, steps, states)
    ensures var s := states[|steps|];
            Value(s.counters, key) <= Cap(limit(key.user)) <==> Count(s.requests, Losing(key)) == 0
  {
    CounterIsExact(users, limit, steps, states, key);
  }

  /** The bound can indeed be passed in flight: one user, limit 1, two requests before the rollback. */
  lemma StoredValueOvershoots() returns (steps: seq<Step>, states: seq<State>)
    ensures IsRun(["u", "u"], _ => 1, steps, states)
    ensures Value(states[|steps|].counters, Key("u", 0)) == 2
  {
    var limit := (_: string) => 1;
    var s0 := Start(["u", "u"], 0);
    var s1 := Next(s0, ReadMonth(0), limit);
    var s2 := Next(s1, ReadMonth(1), limit);
    var s3 := Next(s2, Increment(0), limit);
    var s4 := Next(s3, Increment(1), limit);
    steps, states := [ReadMonth(0), ReadMonth(1), Increment(0), Increment(1)], [s0, s1, s2, s3, s4];
  }
}
