/** The in-memory token store: a lazily pruned map from key to expiry, with values beside it. */
module TokenStore {
  import opened Wrappers

  /** Session metadata; the JSON text it travels as is not modelled. */
  datatype Meta = Meta(sessionId: string, userId: string, ipAddress: string, userAgent: string)

  datatype Contents = Contents(expiry: map<string, real>, values: map<string, Meta>)

  function Pruned(c: Contents, now: real): Contents {
    Contents(
      map k | k in c.expiry && c.expiry[k] >= now :: c.expiry[k],
      map k | k in c.values && (k in c.expiry ==> c.expiry[k] >= now) :: c.values[k])
  }

  function Added(c: Contents, key: string, ttl: real, now: real, later: real): Contents {
    Pruned(c.(expiry := c.expiry[key := now + ttl]), later)
  }

  function AddedJson(c: Contents, key: string, value: Meta, ttl: real, now: real, later: real): Contents {
    Pruned(Contents(c.expiry[key := now + ttl], c.values[key := value]), later)
  }

  function Removed(c: Contents, key: string): Contents {
    Contents(c.expiry - {key}, c.values - {key})
  }

  predicate Live(c: Contents, key: string, now: real) {
    key in c.expiry && now <= c.expiry[key]
  }

  /** A lookup forgets the key it finds expired. */
  function LookedUp(c: Contents, key: string, now: real): Contents {
    if key in c.expiry && c.expiry[key] < now then Removed(c, key) else c
  }

  class Clock {
    var now: real

    /** Time passes by an arbitrary amount before every reading and never goes back. */
    method Read() returns (t: real)
      modifies this
      ensures old(now) <= now == t
    {
      var passed: real :| passed >= 0.0;
      now := now + passed;
      t := now;
    }
  }

  class InMemoryTokenStore {
    var expiry: map<string, real>
    var values: map<string, Meta>

    function Value(): Contents
      reads this
    {
      Contents(expiry, values)
    }

    constructor ()
      ensures Value() == Contents(map[], map[])
    {
      expiry, values := map[], map[];
    }

    method Prune(now: real)
      modifies this
      ensures Value() == Pruned(old(Value()), now)
    {
      var expired := set k | k in expiry && expiry[k] < now;
      ghost var before := Value();
      while expired != {}
        invariant expired <= expiry.Keys
        invariant forall k :: k in expiry <==> k in before.expiry && (before.expiry[k] >= now || k in expired)
        invariant forall k :: k in expiry ==> expiry[k] == before.expiry[k]
        invariant forall k :: k in values <==> k in before.values && !(k in before.expiry && k !in expiry)
        invariant forall k :: k in values ==> values[k] == before.values[k]
        decreases expired
      {
        var k :| k in expired;
        expiry, values, expired := expiry - {k}, values - {k}, expired - {k};
      }
    }

    /** One reading dates the entry, a second one prunes. */
    method Add(key: string, ttl: real, now: real, later: real)
      modifies this
      ensures Value() == Added(old(Value()), key, ttl, now, later)
    {
      expiry := expiry[key := now + ttl];
      Prune(later);
    }

    method AddJson(key: string, value: Meta, ttl: real, now: real, later: real)
      modifies this
      ensures Value() == AddedJson(old(Value()), key, value, ttl, now, later)
    {
      expiry := expiry[key := now + ttl];
      values := values[key := value];
      Prune(later);
    }

    method Contains(key: string, now: real) returns (found: bool)
      modifies this
      ensures found == Live(old(Value()), key, now)
      ensures Value() == LookedUp(old(Value()), key, now)
    {
      if key !in expiry { return false; }
      if now > expiry[key] {
        expiry, values := expiry - {key}, values - {key};
        return false;
      }
      return true;
    }

    method Remove(key: string)
      modifies this
      ensures Value() == Removed(old(Value()), key)
    {
      expiry, values := expiry - {key}, values - {key};
    }

    method GetJson(key: string, now: real) returns (value: Option<Meta>)
      modifies this
      ensures value == if Live(old(Value()), key, now) && key in old(values) then Some(old(values)[key]) else None
      ensures Value() == LookedUp(old(Value()), key, now)
    {
      var found := Contains(key, now);
      if !found { return None; }
      value := if key in values then Some(values[key]) else None;
    }

    /** Prunes, then lists every remaining key with the prefix, each once. */
    method KeysByPrefix(prefix: string, now: real) returns (keys: seq<string>)
      modifies this
      ensures Value() == Pruned(old(Value()), now)
      ensures forall k :: k in keys <==> k in expiry && prefix <= k
      ensures forall i, j :: 0 <= i < j < |keys| ==> keys[i] != keys[j]
    {
      Prune(now);
      var left := set k | k in expiry && prefix <= k;
      keys := [];
      ghost var all := left;
      while left != {}
        invariant left <= all
        invariant forall k :: k in keys <==> k in all && k !in left
        invariant forall i, j :: 0 <= i < j < |keys| ==> keys[i] != keys[j]
        decreases left
      {
        var k :| k in left;
        assert k !in keys;
        keys, left := keys + [k], left - {k};
      }
    }
  }

  // ------------------------------------------------------- deny entries

  /** One store operation, with its clock readings. */
  datatype Step =
    | Add(key: string, ttl: real, now: real, later: real)
    | AddJson(key: string, value: Meta, ttl: real, now: real, later: real)
    | Remove(key: string, now: real)
    | Lookup(key: string, now: real)
    | ListKeys(now: real)

  function EndTime(s: Step): real {
    match s
    case Add(_, _, _, later) => later
    case AddJson(_, _, _, _, later) => later
    case _ => s.now
  }

  function Apply(c: Contents, s: Step): Contents {
    match s
    case Add(key, ttl, now, later) => Added(c, key, ttl, now, later)
    case AddJson(key, value, ttl, now, later) => AddedJson(c, key, value, ttl, now, later)
    case Remove(key, _) => Removed(c, key)
    case Lookup(key, now) => LookedUp(c, key, now)
    case ListKeys(now) => Pruned(c, now)
  }

  function ApplyAll(c: Contents, steps: seq<Step>): Contents {
    if steps == [] then c else Apply(ApplyAll(c, steps[..|steps| - 1]), steps[|steps| - 1])
  }

  /**
   To whoever looks later the store is a plain map with expiry times: a step changes
   whether its own key is found and with which value, and pruning changes nothing.
   An add or a listing leaves nothing behind that has expired.
   */
  lemma LaterLookups(c: Contents, s: Step, key: string, t: real)
    requires s.now <= EndTime(s) <= t
    ensures Live(Apply(c, s), key, t) <==>
              if (s.Add? || s.AddJson?) && s.key == key then t <= s.now + s.ttl
              else Live(c, key, t) && !(s.Remove? && s.key == key)
    ensures Live(Apply(c, s), key, t) ==>
              && (s.AddJson? && s.key == key ==> key in Apply(c, s).values && Apply(c, s).values[key] == s.value)
              && (!(s.AddJson? && s.key == key) ==>
                    && (key in Apply(c, s).values <==> key in c.values)
                    && (key in c.values ==> Apply(c, s).values[key] == c.values[key]))
    ensures s.Add? || s.AddJson? || s.ListKeys?
            ==> (key in Apply(c, s).expiry <==> Live(Apply(c, s), key, EndTime(s)))
    ensures s.ListKeys? && key in c.expiry && c.expiry[key] < s.now ==> key !in Apply(c, s).values
  {
  }

  predicate HasColon(key: string) {
    exists i :: 0 <= i < |key| && key[i] == ':'
  }

  /** User ids and jtis are UUID strings; all that matters of them here is that they hold no colon. */
  type Uuid = s: string | !HasColon(s)

  /** The clock readings of a run of steps, from a starting time on, never go back. */
  ghost predicate InOrder(start: real, steps: seq<Step>) {
    && (forall i :: 0 <= i < |steps| ==> start <= steps[i].now <= EndTime(steps[i]))
    && (forall i, j :: 0 <= i < j < |steps| ==> EndTime(steps[i]) <= steps[j].now)
  }

  /** Only keys with a colon (session and OAuth-state keys) are ever removed or given values, and every deny
      entry lasts at least ttl. */
  ghost predicate KeySpacesKept(steps: seq<Step>, ttl: real) {
    forall i :: 0 <= i < |steps| ==>
      && (steps[i].Remove? || steps[i].AddJson? ==> HasColon(steps[i].key))
      && (steps[i].Add? && !HasColon(steps[i].key) ==> steps[i].ttl >= ttl)
  }

  /** An entry without a colon survives every later step until its time is up. */
  lemma {:induction false} DenyEntrySurvives(c: Contents, steps: seq<Step>, jti: string, start: real, ttl: real,
                                             now: real)
    requires !HasColon(jti) && ttl >= 0.0
    requires jti in c.expiry && c.expiry[jti] >= start + ttl
    requires InOrder(start, steps) && KeySpacesKept(steps, ttl)
    requires forall i :: 0 <= i < |steps| ==> EndTime(steps[i]) <= now
    requires now <= start + ttl
    ensures jti in ApplyAll(c, steps).expiry && ApplyAll(c, steps).expiry[jti] >= start + ttl
  {
    if steps != [] {
      var before, last := steps[..|steps| - 1], steps[|steps| - 1];
      DenyEntrySurvives(c, before, jti, start, ttl, now);
      assert steps[|steps| - 1] == last;
      DenySurvivesStep(ApplyAll(c, before), last, jti, start, ttl);
    }
  }

  lemma DenySurvivesStep(c: Contents, s: Step, jti: string, start: real, ttl: real)
    requires !HasColon(jti)
    requires jti in c.expiry && c.expiry[jti] >= start + ttl
    requires start <= s.now <= EndTime(s) <= start + ttl
    requires s.Remove? || s.AddJson? ==> HasColon(s.key)
    requires s.Add? && !HasColon(s.key) ==> s.ttl >= ttl
    ensures jti in Apply(c, s).expiry && Apply(c, s).expiry[jti] >= start + ttl
  {
    hide HasColon;
  }
}
