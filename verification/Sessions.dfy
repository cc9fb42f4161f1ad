/**
 Sessions over the token store.  Each registered refresh token is covered, until
 it expires, by a live session entry or by a deny entry, and every operation of
 the service keeps it so.
 */
module Sessions {
  import opened TokenStore
  import opened Tokens
  import opened Wrappers

  // ------------------------------------------------------------------ keys

  function SessionPrefix(userId: string): string {
    "session:" + userId + ":"
  }

  function SessionKey(userId: string, jti: string): string {
    SessionPrefix(userId) + jti
  }

  /** With colon-free user ids a user's prefix matches exactly that user's session keys. */
  lemma PrefixMatchesOwner(u: string, v: string, jti: string)
    requires !HasColon(u) && !HasColon(v)
    ensures SessionPrefix(u) <= SessionKey(v, jti) <==> u == v
  {
    var p, k := SessionPrefix(u), SessionKey(v, jti);
    assert |"session:"| == 8;
    assert p[8 + |u|] == ':' && k[8 + |v|] == ':';
    assert p[8..8 + |u|] == u && k[8..8 + |v|] == v;
    assert forall i :: 0 <= i < |u| ==> p[8 + i] == u[i];
    assert forall i :: 0 <= i < |v| ==> k[8 + i] == v[i];
    if |u| < |v| {
      assert k[8 + |u|] == v[|u|] != ':';
    } else if |v| < |u| {
      assert p[8 + |v|] == u[|v|] != ':';
    } else if u == v {
      assert k == p + jti;
    }
  }

  /** Session keys name their user and token. */
  lemma KeyInjective(u: string, i: string, v: string, j: string)
    requires !HasColon(u) && !HasColon(v) && SessionKey(u, i) == SessionKey(v, j)
    ensures u == v && i == j
  {
    assert SessionPrefix(u) <= SessionKey(u, i);
    PrefixMatchesOwner(u, v, j);
    var p := SessionPrefix(u);
    assert SessionKey(u, i)[|p|..] == i && SessionKey(v, j)[|p|..] == j;
  }

  lemma SessionKeyHasColon(u: string, j: string)
    ensures HasColon(SessionKey(u, j))
  {
    assert SessionKey(u, j)[7] == ':';
  }

  // -------------------------------------------------------------- coverage

  /** A registered token, and how long its session entry was made to last. */
  datatype Registration = Registration(userId: Uuid, jti: Uuid, until: real)

  /** A registration made between two moments. */
  ghost predicate IsRegistration(r: Registration, userId: Uuid, jti: Uuid, ttl: real, from: real, to: real) {
    r.userId == userId && r.jti == jti && from + ttl <= r.until <= to + ttl
  }

  ghost predicate Known(registered: set<Registration>, userId: string, jti: string) {
    exists r :: r in registered && r.userId == userId && r.jti == jti
  }

  ghost predicate RegisteredFrom(registered: set<Registration>, userId: string, jti: string, until: real) {
    exists r :: r in registered && r.userId == userId && r.jti == jti && r.until >= until
  }

  ghost predicate IsDenied(c: Contents, jti: string, now: real) {
    jti != "" && jti in c.expiry && now <= c.expiry[jti]
  }

  /** A refresh token of this service that has not been denied. */
  ghost predicate Refreshable(raw: Raw, c: Contents, now: real) {
    raw.Signed? && raw.claims.kind == Refresh && (raw.claims.jti == "" || !Live(c, raw.claims.jti, now))
  }

  /** A refresh token issued to the user between two moments. */
  ghost predicate IssuedWithin(raw: Raw, userId: Uuid, jti: Uuid, days: nat, from: real, to: real) {
    exists t :: from <= t <= to && raw == Signed(RefreshClaims(userId, jti, t, days))
  }

  ghost predicate DeniedThrough(c: Contents, jti: string, until: real) {
    jti in c.expiry && c.expiry[jti] >= until
  }

  ghost predicate SessionThrough(c: Contents, r: Registration) {
    var key := SessionKey(r.userId, r.jti);
    && key in c.expiry && c.expiry[key] >= r.until
    && key in c.values && c.values[key].sessionId == r.jti
  }

  /** Until its time is up, a registered token has a live session entry or a deny entry. */
  ghost predicate Covered(c: Contents, r: Registration, now: real) {
    r.until < now || SessionThrough(c, r) || DeniedThrough(c, r.jti, r.until)
  }

  /** What every operation of the service keeps. */
  ghost predicate SessionInv(c: Contents, registered: set<Registration>, ttl: real, now: real) {
    && (forall r :: r in registered ==> Covered(c, r, now))
    && (forall r :: r in registered ==> r.jti != "" && r.until <= now + ttl)
    && (forall k :: k in c.values ==> ValueNamesKey(k, c.values[k], registered))
  }

  /** A stored session value says which key it belongs to, and that token was registered. */
  ghost predicate ValueNamesKey(k: string, m: Meta, registered: set<Registration>) {
    && k == SessionKey(m.userId, m.sessionId) && !HasColon(m.userId) && !HasColon(m.sessionId)
    && Known(registered, m.userId, m.sessionId)
  }

  lemma InvLater(c: Contents, registered: set<Registration>, ttl: real, now: real, later: real)
    requires SessionInv(c, registered, ttl, now) && now <= later
    ensures SessionInv(c, registered, ttl, later)
  {
  }

  lemma InvPruned(c: Contents, registered: set<Registration>, ttl: real, now: real)
    requires SessionInv(c, registered, ttl, now)
    ensures SessionInv(Pruned(c, now), registered, ttl, now)
  {
    hide HasColon, SessionKey;
  }

  lemma InvLookedUp(c: Contents, registered: set<Registration>, ttl: real, key: string, now: real)
    requires SessionInv(c, registered, ttl, now)
    ensures SessionInv(LookedUp(c, key, now), registered, ttl, now)
  {
    hide HasColon, SessionKey;
  }

  /** A deny entry never uncovers anything: it overwrites no session key and lasts long enough. */
  lemma InvDenied(c: Contents, registered: set<Registration>, ttl: real, jti: string, now: real)
    requires SessionInv(c, registered, ttl, now) && !HasColon(jti)
    ensures SessionInv(c.(expiry := c.expiry[jti := now + ttl]), registered, ttl, now)
  {
    var d := c.(expiry := c.expiry[jti := now + ttl]);
    forall r | r in registered ensures Covered(d, r, now) {
      SessionKeyHasColon(r.userId, r.jti);
      assert Covered(c, r, now);
    }
  }

  /** A session entry may go once its token is denied. */
  lemma InvRemoved(c: Contents, registered: set<Registration>, ttl: real, key: string, now: real)
    requires SessionInv(c, registered, ttl, now) && HasColon(key)
    requires forall r :: r in registered && key == SessionKey(r.userId, r.jti) && now <= r.until
                         ==> DeniedThrough(c, r.jti, r.until)
    ensures SessionInv(Removed(c, key), registered, ttl, now)
  {
    forall r | r in registered ensures Covered(Removed(c, key), r, now) {
      assert Covered(c, r, now);
    }
  }

  lemma KnownGrows(registered: set<Registration>, r: Registration)
    ensures Known(registered + {r}, r.userId, r.jti)
    ensures forall u, j :: Known(registered, u, j) ==> Known(registered + {r}, u, j)
  {
    assert r in registered + {r};
    forall u, j | Known(registered, u, j) ensures Known(registered + {r}, u, j) {
      var q :| q in registered && q.userId == u && q.jti == j;
      assert q in registered + {r};
    }
  }

  lemma InvRegistered(c: Contents, registered: set<Registration>, ttl: real, r: Registration, meta: Meta, now: real)
    requires SessionInv(c, registered, ttl, now)
    requires r.jti != "" && r.until <= now + ttl
    requires meta.sessionId == r.jti && meta.userId == r.userId
    ensures var key := SessionKey(r.userId, r.jti);
            SessionInv(Contents(c.expiry[key := now + ttl], c.values[key := meta]), registered + {r}, ttl, now)
  {
    var key := SessionKey(r.userId, r.jti);
    var d := Contents(c.expiry[key := now + ttl], c.values[key := meta]);
    forall q | q in registered + {r} ensures Covered(d, q, now) {
      SessionKeyHasColon(r.userId, r.jti);
      if q != r {
        assert Covered(c, q, now);
        if SessionKey(q.userId, q.jti) == key {
          KeyInjective(q.userId, q.jti, r.userId, r.jti);
        }
      }
    }
    KnownGrows(registered, r);
  }

  /** Unless it has expired, the session entry shows where its token was issued to. */
  ghost predicate Describes(c: Contents, userId: string, jti: string, ipAddress: string, userAgent: string) {
    var key := SessionKey(userId, jti);
    key in c.expiry ==> key in c.values && c.values[key] == Meta(jti, userId, ipAddress, userAgent)
  }

  lemma AddedDescribes(c: Contents, userId: string, jti: string, ipAddress: string, userAgent: string, ttl: real,
                       now: real, later: real)
    ensures Describes(AddedJson(c, SessionKey(userId, jti), Meta(jti, userId, ipAddress, userAgent), ttl, now, later),
                      userId, jti, ipAddress, userAgent)
  {
  }

  // -------------------------------------------------- denials that last

  /** From now on the jti is denied through the given time, unless that has passed already. */
  ghost predicate Denies(c: Contents, jti: string, until: real, now: real) {
    DeniedThrough(c, jti, until) || until < now
  }

  /** Every token denied through some time stays denied until that time has passed. */
  ghost predicate DenialsKept(c: Contents, d: Contents, ttl: real, start: real, now: real) {
    forall jti, until :: !HasColon(jti) && until <= start + ttl && DeniedThrough(c, jti, until)
      ==> Denies(d, jti, until, now)
  }

  lemma DenialsKeptFurther(c: Contents, d: Contents, e: Contents, ttl: real, start: real, mid: real, now: real)
    requires DenialsKept(c, d, ttl, start, mid) && DenialsKept(d, e, ttl, mid, now) && start <= mid <= now
    ensures DenialsKept(c, e, ttl, start, now)
  {
    hide HasColon, DeniedThrough;
    forall jti, until | !HasColon(jti) && until <= start + ttl && DeniedThrough(c, jti, until)
      ensures Denies(e, jti, until, now)
    {
      assert Denies(d, jti, until, mid);
    }
  }

  /** Pruning, lookups, and adding or removing keys with a colon leave denials alone; a new denial lasts longer. */
  lemma StepsKeepDenials(c: Contents, key: string, meta: Meta, ttl: real, start: real, t: real, now: real)
    requires start <= t <= now
    ensures DenialsKept(c, c, ttl, start, now)
    ensures DenialsKept(c, Pruned(c, now), ttl, start, now)
    ensures DenialsKept(c, LookedUp(c, key, now), ttl, start, now)
    ensures DenialsKept(c, Added(c, key, ttl, t, now), ttl, start, now)
    ensures HasColon(key) ==> DenialsKept(c, AddedJson(c, key, meta, ttl, t, now), ttl, start, now)
    ensures HasColon(key) ==> DenialsKept(c, Removed(c, key), ttl, start, now)
  {
    hide HasColon;
  }

  /** A token denied through the last moment any decode could verify it is rejected by that decode. */
  lemma DeniedIsRejected(c: Contents, claims: Claims, until: real, expected: Option<Kind>, leeway: real, lag: real,
                         now: real, later: real)
    requires Denies(c, claims.jti, until, later) && claims.jti != "" && claims.exp + leeway + lag <= until
    requires now <= later <= now + lag
    ensures Decode(Signed(claims), c, expected, leeway, now, later).Unauthorized?
  {
  }

  // --------------------------------------------------------------- service

  /** Sessions of everyone else: kept as they were, or dropped because their time was up. */
  ghost predicate OthersKept(c: Contents, d: Contents, userId: string, now: real) {
    forall k :: HasColon(k) && !(SessionPrefix(userId) <= k) ==> KeptOrExpired(c, d, k, now)
  }

  ghost predicate KeptOrExpired(c: Contents, d: Contents, k: string, now: real) {
    && (k in d.expiry ==> k in c.expiry && d.expiry[k] == c.expiry[k])
    && (k in d.values ==> k in c.values && d.values[k] == c.values[k])
    && (k in c.expiry && c.expiry[k] >= now ==> k in d.expiry && (k in c.values ==> k in d.values))
  }

  ghost predicate OtherKeysKept(c: Contents, d: Contents, key: string, now: real) {
    forall k :: HasColon(k) && k != key ==> KeptOrExpired(c, d, k, now)
  }

  lemma OthersKeptFurther(c: Contents, d: Contents, e: Contents, userId: string, now: real, later: real)
    requires OthersKept(c, d, userId, now) && OthersKept(d, e, userId, later) && now <= later
    ensures OthersKept(c, e, userId, later)
  {
    forall k | HasColon(k) && !(SessionPrefix(userId) <= k) ensures KeptOrExpired(c, e, k, later) {
      assert KeptOrExpired(c, d, k, now) && KeptOrExpired(d, e, k, later);
    }
  }

  // ------------------------------------------------ retiring a session key

  lemma ValueIsColonFree(c: Contents, registered: set<Registration>, ttl: real, key: string, now: real)
    requires SessionInv(c, registered, ttl, now) && key in c.values
    ensures !HasColon(c.values[key].sessionId) && !HasColon(c.values[key].userId)
    ensures Known(registered, c.values[key].userId, c.values[key].sessionId)
    ensures key == SessionKey(c.values[key].userId, c.values[key].sessionId)
  {
  }

  /** What a lookup of a key leaves to worry about: nothing, or the token named by the value found. */
  lemma CoverAfterLookup(c: Contents, registered: set<Registration>, ttl: real, key: string, now: real, r: Registration)
    requires SessionInv(c, registered, ttl, now) && r in registered && key == SessionKey(r.userId, r.jti)
    requires now <= r.until
    ensures DeniedThrough(LookedUp(c, key, now), r.jti, r.until)
            || (Live(c, key, now) && key in c.values && c.values[key].sessionId == r.jti)
    ensures r.jti != "" && r.until <= now + ttl
  {
    assert Covered(c, r, now);
    SessionKeyHasColon(r.userId, r.jti);
  }

  lemma LookupKeepsRest(c: Contents, key: string, ttl: real, start: real, now: real)
    requires start <= now
    ensures OtherKeysKept(c, LookedUp(c, key, now), key, now) && DenialsKept(c, LookedUp(c, key, now), ttl, start, now)
  {
    hide HasColon;
  }

  lemma JustDenied(c: Contents, key: string, jti: string, ttl: real, start: real, t: real, now: real)
    requires HasColon(key) && !HasColon(jti) && start <= t <= now
    ensures Denies(Removed(Added(c, jti, ttl, t, now), key), jti, start + ttl, now)
  {
    hide HasColon;
  }

  /** If the session under the key is live to the end, its token is denied through the given time. */
  ghost predicate LiveDenied(c: Contents, d: Contents, key: string, until: real, now: real) {
    key in c.values && Live(c, key, now) && c.values[key].sessionId != ""
    ==> Denies(d, c.values[key].sessionId, until, now)
  }

  lemma LiveDeniedNow(c: Contents, key: string, ttl: real, start: real, t: real, now: real)
    requires HasColon(key) && key in c.values && !HasColon(c.values[key].sessionId) && start <= t <= now
    ensures LiveDenied(c, Removed(Added(c, c.values[key].sessionId, ttl, t, now), key), key, start + ttl, now)
  {
    JustDenied(c, key, c.values[key].sessionId, ttl, start, t, now);
    hide HasColon, Denies, Removed, Added;
  }

  lemma NoLiveSession(c: Contents, d: Contents, key: string, until: real, now: real)
    requires Live(c, key, now) && key in c.values ==> c.values[key].sessionId == ""
    ensures LiveDenied(c, d, key, until, now)
  {
  }

  ghost predicate UserLiveDenied(c: Contents, d: Contents, userId: string, until: real, now: real) {
    forall k :: k in c.values && SessionPrefix(userId) <= k ==> LiveDenied(c, d, k, until, now)
  }

  ghost predicate EachLiveDenied(c: Contents, d: Contents, keys: seq<string>, until: real, now: real) {
    forall j :: 0 <= j < |keys| ==> LiveDenied(c, d, keys[j], until, now)
  }

  ghost predicate EachKept(c: Contents, d: Contents, keys: seq<string>, now: real) {
    forall j :: 0 <= j < |keys| ==> KeptOrExpired(c, d, keys[j], now)
  }

  lemma PruneKeepsEach(c: Contents, keys: seq<string>, now: real)
    ensures EachKept(c, Pruned(c, now), keys, now)
  {
  }

  lemma SessionIdsColonFree(c: Contents, registered: set<Registration>, ttl: real, now: real)
    requires SessionInv(c, registered, ttl, now)
    ensures forall k :: k in c.values ==> !HasColon(c.values[k].sessionId)
  {
    hide HasColon, SessionKey;
  }

  lemma KeptFurther(c: Contents, d: Contents, e: Contents, k: string, start: real, now: real)
    requires KeptOrExpired(c, d, k, start) && KeptOrExpired(d, e, k, now) && start <= now
    ensures KeptOrExpired(c, e, k, now)
  {
  }

  /** The key just retired had been kept as it was. */
  lemma RetiredDenied(c: Contents, d: Contents, e: Contents, k: string, until: real, further: real, start: real,
                      now: real)
    requires KeptOrExpired(c, d, k, start) && LiveDenied(d, e, k, further, now) && start <= now && until <= further
    ensures LiveDenied(c, e, k, until, now)
  {
  }

  /** A key retired before stays denied. */
  lemma StaysDenied(c: Contents, d: Contents, e: Contents, k: string, until: real, ttl: real, start: real, now: real)
    requires LiveDenied(c, d, k, until, start) && DenialsKept(d, e, ttl, start, now)
    requires start <= now && until <= start + ttl
    requires k in c.values ==> !HasColon(c.values[k].sessionId)
    ensures LiveDenied(c, e, k, until, now)
  {
    hide HasColon;
  }

  lemma LiveDeniedFurther(c: Contents, d: Contents, e: Contents, keys: seq<string>, i: nat, until: real, ttl: real,
                          start: real, now: real)
    requires i < |keys| && start <= now && until <= start + ttl
    requires forall k :: k in c.values ==> !HasColon(c.values[k].sessionId)
    requires forall j :: 0 <= j < |keys| ==> HasColon(keys[j])
    requires forall j, k :: 0 <= j < k < |keys| ==> keys[j] != keys[k]
    requires EachLiveDenied(c, d, keys[..i], until, start) && EachKept(c, d, keys[i..], start)
    requires LiveDenied(d, e, keys[i], start + ttl, now) && OtherKeysKept(d, e, keys[i], now)
    requires DenialsKept(d, e, ttl, start, now)
    ensures EachLiveDenied(c, e, keys[..i + 1], until, now) && EachKept(c, e, keys[i + 1..], now)
  {
    hide HasColon, LiveDenied, KeptOrExpired, DenialsKept;
    var done, left := keys[..i + 1], keys[i + 1..];
    forall j | 0 <= j < |done| ensures LiveDenied(c, e, done[j], until, now) {
      if j < i {
        assert keys[..i][j] == keys[j];
        StaysDenied(c, d, e, keys[j], until, ttl, start, now);
      } else {
        assert keys[i..][0] == keys[i];
        RetiredDenied(c, d, e, keys[i], until, start + ttl, start, now);
      }
    }
    forall j | 0 <= j < |left| ensures KeptOrExpired(c, e, left[j], now) {
      assert keys[i..][j + 1] == keys[i + 1 + j] == left[j];
      KeptFurther(c, d, e, keys[i + 1 + j], start, now);
    }
  }

  lemma AllLiveDenied(c: Contents, d: Contents, userId: string, keys: seq<string>, until: real, t: real, now: real)
    requires EachLiveDenied(c, d, keys, until, now) && t <= now
    requires forall k :: k in c.expiry && c.expiry[k] >= t && SessionPrefix(userId) <= k ==> k in keys
    ensures UserLiveDenied(c, d, userId, until, now)
  {
    forall k | k in c.values && SessionPrefix(userId) <= k ensures LiveDenied(c, d, k, until, now) {
      if Live(c, k, now) {
        assert k in keys;
      }
    }
  }

  /** The user's first keys have been retired, the rest are as they were, and nobody else is affected. */
  ghost predicate Swept(c: Contents, d: Contents, registered: set<Registration>, userId: string, keys: seq<string>,
                        count: nat, ttl: real, start: real, now: real)
    requires count <= |keys|
  {
    && RestListed(d, userId, keys[count..]) && OthersKept(c, d, userId, now) && DenialsKept(c, d, ttl, start, now)
    && OnlyKnownDenied(c, d, registered, userId)
    && EachLiveDenied(c, d, keys[..count], start + ttl, now) && EachKept(c, d, keys[count..], now)
  }

  lemma SweepNone(c: Contents, registered: set<Registration>, userId: string, keys: seq<string>, ttl: real, start: real,
                  t: real)
    requires start <= t && forall k :: k in keys <==> k in Pruned(c, t).expiry && SessionPrefix(userId) <= k
    ensures Swept(c, Pruned(c, t), registered, userId, keys, 0, ttl, start, t)
  {
    hide Pruned, HasColon, OthersKept, DenialsKept, OnlyKnownDenied, KeptOrExpired, LiveDenied, SessionPrefix;
    assert keys[0..] == keys && keys[..0] == [];
    PruneKeepsOthers(c, userId, t);
    PruneKeepsEach(c, keys, t);
    PruneDeniesNone(c, t, registered, userId);
    StepsKeepDenials(c, "", Meta("", "", "", ""), ttl, start, t, t);
  }

  lemma SweepOne(c: Contents, d: Contents, e: Contents, registered: set<Registration>, userId: string,
                 keys: seq<string>, i: nat, ttl: real, start: real, mid: real, now: real)
    requires i < |keys| && start <= mid <= now
    requires Swept(c, d, registered, userId, keys, i, ttl, start, mid)
    requires forall k :: k in c.values ==> !HasColon(c.values[k].sessionId)
    requires forall k :: k in keys ==> SessionPrefix(userId) <= k
    requires forall j, k :: 0 <= j < k < |keys| ==> keys[j] != keys[k]
    requires LiveDenied(d, e, keys[i], mid + ttl, now) && OtherKeysKept(d, e, keys[i], now) && keys[i] !in e.expiry
    requires DenialsKept(d, e, ttl, mid, now) && OnlyKnownDenied(d, e, registered, userId)
    ensures Swept(c, e, registered, userId, keys, i + 1, ttl, start, now)
  {
    hide OthersKept, DenialsKept, OnlyKnownDenied, EachLiveDenied, EachKept, OtherKeysKept, LiveDenied, RestListed;
    hide HasColon, SessionPrefix;
    forall j | 0 <= j < |keys| ensures HasColon(keys[j]) {
      assert keys[j] in keys;
      PrefixHasColon(userId, keys[j]);
    }
    assert keys[i] in keys && keys[i..] == [keys[i]] + keys[i + 1..];
    RetiredOne(d, e, userId, keys[i], keys[i + 1..], now);
    OthersKeptFurther(c, d, e, userId, mid, now);
    DenialsKeptFurther(c, d, e, ttl, start, mid, now);
    OnlyKnownDeniedFurther(c, d, e, registered, userId);
    LiveDeniedFurther(c, d, e, keys, i, start + ttl, ttl, mid, now);
  }

  lemma SweepAll(c: Contents, d: Contents, registered: set<Registration>, userId: string, keys: seq<string>, ttl: real,
                 start: real, t: real, now: real)
    requires Swept(c, d, registered, userId, keys, |keys|, ttl, start, now) && t <= now
    requires forall k :: k in keys <==> k in Pruned(c, t).expiry && SessionPrefix(userId) <= k
    ensures forall k :: k in d.expiry ==> !(SessionPrefix(userId) <= k)
    ensures UserLiveDenied(c, d, userId, start + ttl, now) && OnlyKnownDenied(c, d, registered, userId)
    ensures OthersKept(c, d, userId, now) && DenialsKept(c, d, ttl, start, now)
  {
    hide OthersKept, DenialsKept, OnlyKnownDenied, SessionPrefix, LiveDenied, EachKept;
    assert keys[|keys|..] == [] && keys[..|keys|] == keys;
    AllLiveDenied(c, d, userId, keys, start + ttl, t, now);
  }

  ghost predicate SafelyRetired(c: Contents, e: Contents, registered: set<Registration>, ttl: real, key: string,
                                start: real, now: real) {
    && SessionInv(e, registered, ttl, now)
    && key !in e.expiry && key !in e.values
    && OtherKeysKept(c, e, key, now) && DenialsKept(c, e, ttl, start, now)
  }

  /** The value named a token: it is denied before the key goes. */
  lemma RetireByDenying(c: Contents, registered: set<Registration>, ttl: real, key: string, jti: string,
                        start: real, t: real, t2: real, now: real)
    requires SessionInv(c, registered, ttl, t) && HasColon(key) && !HasColon(jti) && start <= t <= t2 <= now
    requires Live(c, key, t) && key in c.values && c.values[key].sessionId == jti
    requires SessionInv(Added(c, jti, ttl, t2, now), registered, ttl, now)
    ensures LookedUp(c, key, t) == c
    ensures SafelyRetired(c, Removed(Added(c, jti, ttl, t2, now), key), registered, ttl, key, start, now)
  {
    hide SessionInv, HasColon, DenialsKept, OtherKeysKept, SessionKey, DeniedThrough, Pruned;
    var d := Added(c, jti, ttl, t2, now);
    forall r | r in registered && key == SessionKey(r.userId, r.jti) && now <= r.until
      ensures DeniedThrough(d, r.jti, r.until)
    {
      CoverAfterLookup(c, registered, ttl, key, t, r);
      DenialCovers(c, jti, ttl, t2, now, r.jti, r.until);
    }
    InvRemoved(d, registered, ttl, key, now);
    DenyingKeepsRest(c, key, jti, ttl, start, t2, now);
  }

  lemma DenialCovers(c: Contents, jti: string, ttl: real, t: real, now: real, other: string, until: real)
    requires jti == other || DeniedThrough(c, other, until)
    requires until <= t + ttl && now <= until
    ensures DeniedThrough(Added(c, jti, ttl, t, now), other, until)
  {
  }

  lemma DenyingKeepsRest(c: Contents, key: string, jti: string, ttl: real, start: real, t: real, now: real)
    requires HasColon(key) && !HasColon(jti) && start <= t <= now
    ensures OtherKeysKept(c, Removed(Added(c, jti, ttl, t, now), key), key, now)
    ensures DenialsKept(c, Removed(Added(c, jti, ttl, t, now), key), ttl, start, now)
  {
    var d := Added(c, jti, ttl, t, now);
    hide HasColon, DenialsKept;
    var none := Meta("", "", "", "");
    StepsKeepDenials(c, jti, none, ttl, start, t, now);
    StepsKeepDenials(d, key, none, ttl, now, now, now);
    DenialsKeptFurther(c, d, Removed(d, key), ttl, start, now, now);
  }

  /** The value named none, or the key had expired: it just goes. */
  lemma RetireAsIs(c: Contents, registered: set<Registration>, ttl: real, key: string, start: real, now: real)
    requires SessionInv(c, registered, ttl, now) && HasColon(key) && start <= now
    requires Live(c, key, now) && key in c.values ==> c.values[key].sessionId == ""
    ensures SafelyRetired(c, Removed(LookedUp(c, key, now), key), registered, ttl, key, start, now)
  {
    var d := LookedUp(c, key, now);
    forall r | r in registered && key == SessionKey(r.userId, r.jti) && now <= r.until
      ensures DeniedThrough(d, r.jti, r.until)
    {
      hide SessionInv, HasColon;
      CoverAfterLookup(c, registered, ttl, key, now, r);
    }
    InvLookedUp(c, registered, ttl, key, now);
    hide SessionInv, HasColon, DenialsKept, SessionKey, DeniedThrough;
    InvRemoved(d, registered, ttl, key, now);
    var none := Meta("", "", "", "");
    StepsKeepDenials(c, key, none, ttl, start, now, now);
    StepsKeepDenials(d, key, none, ttl, now, now, now);
    DenialsKeptFurther(c, d, Removed(d, key), ttl, start, now, now);
  }

  class AuthService {
    const refreshDays: nat
    const store: InMemoryTokenStore
    const clock: Clock
    ghost var registered: set<Registration>

    ghost predicate Valid()
      reads this, store, clock
    {
      SessionInv(store.Value(), registered, Lifetime(refreshDays), clock.now)
    }

    constructor (refreshDays: nat, store: InMemoryTokenStore, clock: Clock)
      requires store.Value() == Contents(map[], map[])
      ensures Valid() && this.refreshDays == refreshDays && this.store == store && this.clock == clock
      ensures registered == {}
    {
      this.refreshDays, this.store, this.clock, registered := refreshDays, store, clock, {};
    }

    /** Read the clock; whatever held before still holds. */
    method Now() returns (t: real)
      requires Valid()
      modifies clock
      ensures Valid() && old(clock.now) <= clock.now == t && store.Value() == old(store.Value())
    {
      t := clock.Read();
      InvLater(store.Value(), registered, Lifetime(refreshDays), old(clock.now), t);
    }

    /** The store's add for a deny entry: one reading dates it, a second one prunes. */
    method Deny(jti: Uuid)
      requires Valid()
      modifies store, clock
      ensures Valid() && old(clock.now) <= clock.now
      ensures exists t :: old(clock.now) <= t <= clock.now &&
                store.Value() == Added(old(store.Value()), jti, Lifetime(refreshDays), t, clock.now)
      ensures DenialsKept(old(store.Value()), store.Value(), Lifetime(refreshDays), old(clock.now), clock.now)
    {
      hide SessionInv, Lifetime, HasColon, DenialsKept;
      var ttl := Lifetime(refreshDays);
      var t := Now();
      ghost var c := store.Value();
      InvDenied(c, registered, ttl, jti, t);
      var later := clock.Read();
      ghost var d := c.(expiry := c.expiry[jti := t + ttl]);
      InvLater(d, registered, ttl, t, later);
      InvPruned(d, registered, ttl, later);
      store.Add(jti, ttl, t, later);
      StepsKeepDenials(c, jti, Meta("", "", "", ""), ttl, old(clock.now), t, later);
    }

    /** The session entry lasts the refresh lifetime from the moment it is made, whatever the token's own expiry. */
    method AddSession(userId: Uuid, jti: Uuid, ipAddress: string, userAgent: string)
      requires Valid() && jti != ""
      modifies this`registered, store, clock
      ensures Valid() && old(clock.now) <= clock.now
      ensures exists r :: registered == old(registered) + {r} && IsRegistration(r, userId, jti, Lifetime(refreshDays),
                                                                                old(clock.now), clock.now)
      ensures Describes(store.Value(), userId, jti, ipAddress, userAgent)
      ensures DenialsKept(old(store.Value()), store.Value(), Lifetime(refreshDays), old(clock.now), clock.now)
    {
      hide HasColon, SessionInv, Lifetime, DenialsKept, SessionKey, Pruned;
      var ttl, key, meta := Lifetime(refreshDays), SessionKey(userId, jti), Meta(jti, userId, ipAddress, userAgent);
      var t := Now();
      ghost var c, r := store.Value(), Registration(userId, jti, t + ttl);
      InvRegistered(c, registered, ttl, r, meta, t);
      var later := clock.Read();
      ghost var d := Contents(c.expiry[key := t + ttl], c.values[key := meta]);
      InvLater(d, registered + {r}, ttl, t, later);
      InvPruned(d, registered + {r}, ttl, later);
      AddedDescribes(c, userId, jti, ipAddress, userAgent, ttl, t, later);
      store.AddJson(key, meta, ttl, t, later);
      SessionKeyHasColon(userId, jti);
      StepsKeepDenials(c, key, meta, ttl, old(clock.now), t, later);
      registered := registered + {r};
      assert IsRegistration(r, userId, jti, ttl, old(clock.now), clock.now);
    }

    method RegisterSession(userId: Uuid, raw: Raw, ipAddress: string, userAgent: string, leeway: real)
      requires Valid()
      modifies this`registered, store, clock
      ensures Valid() && old(clock.now) <= clock.now
      ensures old(registered) <= registered
      ensures raw.Forged? ==> registered == old(registered)
      ensures forall r :: r in registered - old(registered) && raw.Signed? ==>
                IsRegistration(r, userId, raw.claims.jti, Lifetime(refreshDays), old(clock.now), clock.now)
      ensures raw.Signed? && raw.claims.jti != "" && clock.now < raw.claims.exp + leeway ==>
                RegisteredFrom(registered, userId, raw.claims.jti, old(clock.now) + Lifetime(refreshDays))
      ensures raw.Signed? && raw.claims.jti != "" && clock.now < raw.claims.exp + leeway ==>
                Describes(store.Value(), userId, raw.claims.jti, ipAddress, userAgent)
      ensures DenialsKept(old(store.Value()), store.Value(), Lifetime(refreshDays), old(clock.now), clock.now)
    {
      hide HasColon, SessionInv, Lifetime, DenialsKept;
      ghost var ttl, c := Lifetime(refreshDays), store.Value();
      var t0 := Now();
      StepsKeepDenials(c, "", Meta("", "", "", ""), ttl, old(clock.now), t0, t0);
      if !Verifies(raw, t0, leeway) || raw.claims.jti == "" { return; }
      AddSession(userId, raw.claims.jti, ipAddress, userAgent);
      DenialsKeptFurther(c, c, store.Value(), ttl, old(clock.now), t0, clock.now);
    }

    /** Deny the token behind one of the user's session keys, if it is still live, and drop the key. */
    method RetireKey(key: string, ghost userId: Uuid)
      requires Valid() && SessionPrefix(userId) <= key
      modifies store, clock
      ensures Valid() && old(clock.now) <= clock.now
      ensures key !in store.expiry && key !in store.values
      ensures OtherKeysKept(old(store.Value()), store.Value(), key, clock.now)
      ensures DenialsKept(old(store.Value()), store.Value(), Lifetime(refreshDays), old(clock.now), clock.now)
      ensures OnlyKnownDenied(old(store.Value()), store.Value(), registered, userId)
      ensures LiveDenied(old(store.Value()), store.Value(), key, old(clock.now) + Lifetime(refreshDays), clock.now)
    {
      var ttl := Lifetime(refreshDays);
      ghost var start := clock.now;
      var t := Now();
      ghost var c := store.Value();
      InvLookedUp(c, registered, ttl, key, t);
      PrefixHasColon(userId, key);
      hide SessionInv, Lifetime, HasColon, OtherKeysKept, DenialsKept, ValueNamesKey, OnlyKnownDenied, SessionPrefix;
      hide LiveDenied;
      var meta := store.GetJson(key, t);
      if meta.Some? && meta.value.sessionId != "" {
        ValueIsColonFree(c, registered, ttl, key, t);
        KnownOfUser(c, registered, userId, key, ttl, t);
        Deny(meta.value.sessionId);
        ghost var t2 :| t <= t2 <= clock.now && store.Value() == Added(c, meta.value.sessionId, ttl, t2, clock.now);
        RetireByDenying(c, registered, ttl, key, meta.value.sessionId, start, t, t2, clock.now);
        DeniesOnlyThis(c, key, meta.value.sessionId, ttl, t2, clock.now, registered, userId);
        LiveDeniedNow(c, key, ttl, start, t2, clock.now);
      } else {
        RetireAsIs(c, registered, ttl, key, start, t);
        RemovesOnly(c, key, t, registered, userId);
        NoLiveSession(c, Removed(LookedUp(c, key, t), key), key, start + ttl, t);
      }
      store.Remove(key);
    }

    /** First path: the token itself is presented for revocation. */
    method RevokeRefreshToken(raw: Raw, leeway: real)
      requires Valid()
      modifies store, clock
      ensures Valid() && old(clock.now) <= clock.now
      ensures raw.Signed? && raw.claims.jti != "" && clock.now < raw.claims.exp + leeway
              ==> Denies(store.Value(), raw.claims.jti, old(clock.now) + Lifetime(refreshDays), clock.now)
      ensures NothingElse(old(store.Value()), store.Value(), if raw.Signed? then {raw.claims.jti} else {})
      ensures DenialsKept(old(store.Value()), store.Value(), Lifetime(refreshDays), old(clock.now), clock.now)
    {
      hide DenialsKept, SessionInv, HasColon, Lifetime, NothingElse, Denies;
      var t := Now();
      ghost var c, ttl := store.Value(), Lifetime(refreshDays);
      StepsKeepDenials(c, "", Meta("", "", "", ""), Lifetime(refreshDays), old(clock.now), t, t);
      NothingNew(c, if raw.Signed? then {raw.claims.jti} else {});
      if Verifies(raw, t, leeway) && raw.claims.jti != "" {
        Deny(raw.claims.jti);
        ghost var t2 :| t <= t2 <= clock.now && store.Value() == Added(c, raw.claims.jti, ttl, t2, clock.now);
        OnlyThisIsNew(c, raw.claims.jti, ttl, old(clock.now), t2, clock.now);
        DenialsKeptFurther(c, c, store.Value(), Lifetime(refreshDays), old(clock.now), t, clock.now);
      }
    }

    /** Second path: one session by its id; a registered token is denied afterwards, its entry live or not. */
    method RevokeSession(userId: Uuid, sessionId: string) returns (revoked: bool)
      requires Valid()
      modifies store, clock
      ensures Valid() && old(clock.now) <= clock.now
      ensures revoked ==> Denies(store.Value(), sessionId, old(clock.now) + Lifetime(refreshDays), clock.now)
                          && SessionKey(userId, sessionId) !in store.expiry
      ensures !revoked ==> !Live(old(store.Value()), SessionKey(userId, sessionId), clock.now)
                           || SessionKey(userId, sessionId) !in old(store.values)
      ensures forall r :: r in registered && r.userId == userId && r.jti == sessionId
                ==> Denies(store.Value(), sessionId, r.until, clock.now)
      ensures OtherKeysKept(old(store.Value()), store.Value(), SessionKey(userId, sessionId), clock.now)
      ensures DenialsKept(old(store.Value()), store.Value(), Lifetime(refreshDays), old(clock.now), clock.now)
    {
      var key, ttl := SessionKey(userId, sessionId), Lifetime(refreshDays);
      SessionKeyHasColon(userId, sessionId);
      ghost var start := clock.now;
      UntilWithin(store.Value(), registered, ttl, start);
      var t := Now();
      ghost var c := store.Value();
      InvLookedUp(c, registered, ttl, key, t);
      hide SessionInv, Lifetime, HasColon, OtherKeysKept, DenialsKept, SessionKey;
      var meta := store.GetJson(key, t);
      if meta.None? {
        LookupKeepsRest(c, key, ttl, start, t);
        DeadSessionIsDenied(c, registered, ttl, userId, sessionId, t);
        return false;
      }
      ValueIsColonFree(c, registered, ttl, key, t);
      KeyInjective(userId, sessionId, meta.value.userId, meta.value.sessionId);
      Deny(sessionId);
      ghost var t2 :| t <= t2 <= clock.now && store.Value() == Added(c, sessionId, ttl, t2, clock.now);
      RetireByDenying(c, registered, ttl, key, sessionId, start, t, t2, clock.now);
      JustDenied(c, key, sessionId, ttl, start, t2, clock.now);
      store.Remove(key);
      return true;
    }

    /** Third path: every session of one user. */
    method RevokeAllSessions(userId: Uuid) returns (count: nat)
      requires Valid()
      modifies store, clock
      ensures Valid() && old(clock.now) <= clock.now
      ensures forall k :: k in store.expiry ==> !(SessionPrefix(userId) <= k)
      ensures AllDenied(store.Value(), registered, userId, clock.now)
      ensures AllRejected(store.Value(), registered, userId, clock.now)
      ensures OnlyKnownDenied(old(store.Value()), store.Value(), registered, userId)
      ensures UserLiveDenied(old(store.Value()), store.Value(), userId,
                             old(clock.now) + Lifetime(refreshDays), clock.now)
      ensures OthersKept(old(store.Value()), store.Value(), userId, clock.now)
      ensures exists t :: old(clock.now) <= t <= clock.now && count == |LiveKeysOf(old(store.Value()), userId, t)|
      ensures DenialsKept(old(store.Value()), store.Value(), Lifetime(refreshDays), old(clock.now), clock.now)
    {
      ghost var c, start, ttl := store.Value(), clock.now, Lifetime(refreshDays);
      SessionIdsColonFree(c, registered, ttl, start);
      hide SessionInv, Lifetime, AllDenied, AllRejected, OtherKeysKept, LiveKeysOf, Swept, LiveDenied, KeptOrExpired;
      hide OthersKept, DenialsKept, OnlyKnownDenied, UserLiveDenied, HasColon, Pruned, SessionPrefix;
      var t := Now();
      InvPruned(c, registered, ttl, t);
      var keys := store.KeysByPrefix(SessionPrefix(userId), t);
      CountKeys(c, userId, t, keys);
      SweepNone(c, registered, userId, keys, ttl, start, t);
      count := 0;
      while count < |keys|
        invariant count <= |keys| && Valid() && t <= clock.now
        invariant forall k :: k in keys ==> SessionPrefix(userId) <= k
        invariant Swept(c, store.Value(), registered, userId, keys, count, ttl, start, clock.now)
      {
        ghost var before, mid := store.Value(), clock.now;
        var k := keys[count];
        assert k in keys;
        RetireKey(k, userId);
        SweepOne(c, before, store.Value(), registered, userId, keys, count, ttl, start, mid, clock.now);
        count := count + 1;
      }
      SweepAll(c, store.Value(), registered, userId, keys, ttl, start, t, clock.now);
      NoSessionsAllDenied(store.Value(), registered, userId, ttl, clock.now);
      DeniedAreRejected(store.Value(), registered, userId, clock.now);
    }

    /** Look one of the user's keys up, relative to the contents c the listing started from. */
    method ReadSession(k: string, ghost c: Contents, ghost userId: Uuid, ghost t: real) returns (raw: Option<Meta>)
      requires Valid() && Aged(c, store.Value(), t, clock.now)
      requires SessionPrefix(userId) <= k
      modifies store, clock
      ensures Valid() && old(clock.now) <= clock.now && Aged(c, store.Value(), t, clock.now)
      ensures raw.Some? ==> LiveSessionOf(c, userId, raw.value, t)
      ensures k in c.values && Live(c, k, clock.now) ==> raw == Some(c.values[k])
      ensures DenialsKept(old(store.Value()), store.Value(), Lifetime(refreshDays), old(clock.now), clock.now)
    {
      hide SessionInv, Lifetime, Aged, HasColon, DenialsKept;
      ghost var d, start := store.Value(), clock.now;
      var now := Now();
      InvLookedUp(d, registered, Lifetime(refreshDays), k, now);
      AgedLookup(c, d, k, t, start, now);
      ListedOne(c, d, userId, k, t, start, now, registered, Lifetime(refreshDays));
      StepsKeepDenials(d, k, Meta("", "", "", ""), Lifetime(refreshDays), start, now, now);
      raw := store.GetJson(k, now);
    }

    /** The live sessions of one user: nothing invented, and none missed that is still live at the end. */
    method ListSessions(userId: Uuid) returns (sessions: seq<Meta>)
      requires Valid()
      modifies store, clock
      ensures Valid() && old(clock.now) <= clock.now
      ensures forall m :: m in sessions ==> LiveSessionOf(old(store.Value()), userId, m, old(clock.now))
      ensures NoneMissed(old(store.Value()), userId, sessions, clock.now)
      ensures DenialsKept(old(store.Value()), store.Value(), Lifetime(refreshDays), old(clock.now), clock.now)
    {
      hide SessionInv, Lifetime, Aged, HasColon, SessionPrefix, DenialsKept;
      ghost var c := store.Value();
      var t := Now();
      InvPruned(c, registered, Lifetime(refreshDays), t);
      PrunedIsAged(c, t);
      var keys := store.KeysByPrefix(SessionPrefix(userId), t);
      StepsKeepDenials(c, "", Meta("", "", "", ""), Lifetime(refreshDays), old(clock.now), t, t);
      sessions := [];
      for i := 0 to |keys|
        invariant Valid() && t <= clock.now && Aged(c, store.Value(), t, clock.now)
        invariant forall m :: m in sessions ==> LiveSessionOf(c, userId, m, t)
        invariant forall j :: 0 <= j < i ==> ListedIfLive(c, keys[j], sessions, clock.now)
        invariant DenialsKept(c, store.Value(), Lifetime(refreshDays), old(clock.now), clock.now)
      {
        ghost var before, start := store.Value(), clock.now;
        var k := keys[i];
        assert k in keys;
        var raw := ReadSession(k, c, userId, t);
        DenialsKeptFurther(c, before, store.Value(), Lifetime(refreshDays), old(clock.now), start, clock.now);
        if raw.Some? {
          sessions := sessions + [raw.value];
        }
      }
      AllKeysListed(c, userId, keys, sessions, t, clock.now);
    }

    /** Checking a presented token: one reading for the expiry, a later one for the deny list. */
    method CheckToken(raw: Raw, expected: Option<Kind>, leeway: real) returns (r: Decoded)
      requires Valid()
      modifies store, clock
      ensures Valid() && old(clock.now) <= clock.now
      ensures exists now :: old(clock.now) <= now <= clock.now &&
                r == Decode(raw, old(store.Value()), expected, leeway, now, clock.now)
      ensures r.Accepted? ==> raw == Signed(r.claims) && (expected.Some? ==> r.claims.kind == expected.value)
                              && old(clock.now) < r.claims.exp + leeway
                              && !IsDenied(old(store.Value()), r.claims.jti, clock.now)
      ensures NothingElse(old(store.Value()), store.Value(), {})
      ensures DenialsKept(old(store.Value()), store.Value(), Lifetime(refreshDays), old(clock.now), clock.now)
    {
      hide SessionInv, Lifetime, DenialsKept;
      var now := Now();
      var later := Now();
      ghost var c := store.Value();
      var key := if raw.Signed? then raw.claims.jti else "";
      StepsKeepDenials(c, key, Meta("", "", "", ""), Lifetime(refreshDays), old(clock.now), now, later);
      if raw.Signed? {
        InvLookedUp(c, registered, Lifetime(refreshDays), raw.claims.jti, later);
      }
      r := DecodeToken(raw, store, expected, leeway, now, later);
    }

    /** A login issues a refresh token and registers its session, which lasts at least as long as the token. */
    method Login(userId: Uuid, jti: Uuid, ipAddress: string, userAgent: string, leeway: real) returns (raw: Raw)
      requires Valid()
      modifies this`registered, store, clock
      ensures Valid() && old(clock.now) <= clock.now
      ensures IssuedWithin(raw, userId, jti, refreshDays, old(clock.now), clock.now)
      ensures jti != "" && clock.now < raw.claims.exp + leeway
              ==> RegisteredFrom(registered, userId, jti, raw.claims.exp)
                  && Describes(store.Value(), userId, jti, ipAddress, userAgent)
      ensures DenialsKept(old(store.Value()), store.Value(), Lifetime(refreshDays), old(clock.now), clock.now)
    {
      hide SessionInv, DenialsKept, HasColon, Lifetime;
      ghost var c := store.Value();
      var t := Now();
      StepsKeepDenials(c, "", Meta("", "", "", ""), Lifetime(refreshDays), old(clock.now), t, t);
      raw := Signed(RefreshClaims(userId, jti, t, refreshDays));
      RegisterSession(userId, raw, ipAddress, userAgent, leeway);
      DenialsKeptFurther(c, c, store.Value(), Lifetime(refreshDays), old(clock.now), t, clock.now);
    }

    /** A refresh checks the token, revokes it and issues a new one, for which no session is registered. */
    method Rotate(raw: Raw, active: bool, jti: Uuid, leeway: real) returns (issued: Option<Raw>)
      requires Valid()
      modifies store, clock
      ensures Valid() && old(clock.now) <= clock.now
      ensures issued.Some? ==> raw.Signed? && active && raw.claims.kind == Refresh
      ensures active && Refreshable(raw, old(store.Value()), old(clock.now)) && clock.now < raw.claims.exp + leeway
              ==> issued.Some?
      ensures issued.Some? ==> IssuedWithin(issued.value, raw.claims.sub, jti, refreshDays, old(clock.now), clock.now)
      ensures issued.Some? && raw.claims.jti != "" && clock.now < raw.claims.exp + leeway
              ==> Denies(store.Value(), raw.claims.jti, old(clock.now) + Lifetime(refreshDays), clock.now)
      ensures NothingElse(old(store.Value()), store.Value(), if raw.Signed? then {raw.claims.jti} else {})
      ensures DenialsKept(old(store.Value()), store.Value(), Lifetime(refreshDays), old(clock.now), clock.now)
    {
      hide SessionInv, DenialsKept, HasColon, Lifetime, Denies;
      ghost var c, ttl := store.Value(), Lifetime(refreshDays);
      var r := CheckToken(raw, Some(Refresh), leeway);
      if r.Unauthorized? || !active { return None; }
      ghost var d, mid := store.Value(), clock.now;
      RevokeRefreshToken(raw, leeway);
      ghost var e, now := store.Value(), clock.now;
      DenialsKeptFurther(c, d, e, ttl, old(clock.now), mid, now);
      LaterDenial(e, if raw.Signed? then raw.claims.jti else "", old(clock.now) + ttl, mid + ttl, now);
      var t := Now();
      StepsKeepDenials(e, "", Meta("", "", "", ""), ttl, now, t, t);
      DenialsKeptFurther(c, e, e, ttl, old(clock.now), now, t);
      LaterDenies(e, if raw.Signed? then raw.claims.jti else "", old(clock.now) + ttl, now, t);
      return Some(Signed(RefreshClaims(raw.claims.sub, jti, t, refreshDays)));
    }
  }

  // ------------------------------------------------------------ whole runs

  datatype Request =
    | LogIn(userId: Uuid, jti: Uuid, ipAddress: string, userAgent: string)
    | Check(raw: Raw, expected: Option<Kind>)
    | Renew(raw: Raw, active: bool, jti: Uuid)
    | LogOut(raw: Raw)
    | ListAll(userId: Uuid)
    | RevokeOne(userId: Uuid, sessionId: string)
    | RevokeAll(userId: Uuid)

  method ServeOne(service: AuthService, r: Request, leeway: real)
    requires service.Valid()
    modifies service`registered, service.store, service.clock
    ensures service.Valid() && old(service.clock.now) <= service.clock.now
    ensures DenialsKept(old(service.store.Value()), service.store.Value(), Lifetime(service.refreshDays),
                        old(service.clock.now), service.clock.now)
  {
    hide SessionInv, DenialsKept, HasColon, Lifetime;
    match r
    case LogIn(u, jti, ip, agent) => var _ := service.Login(u, jti, ip, agent, leeway);
    case Check(raw, expected) => var _ := service.CheckToken(raw, expected, leeway);
    case Renew(raw, active, jti) => var _ := service.Rotate(raw, active, jti, leeway);
    case LogOut(raw) => service.RevokeRefreshToken(raw, leeway);
    case ListAll(u) => var _ := service.ListSessions(u);
    case RevokeOne(u, id) => var _ := service.RevokeSession(u, id);
    case RevokeAll(u) => var _ := service.RevokeAllSessions(u);
  }

  /** Whatever requests the service then answers, in any order and at any pace, a denied token stays denied until the
      time it was denied through. */
  method Serve(service: AuthService, requests: seq<Request>, leeway: real)
    requires service.Valid()
    modifies service`registered, service.store, service.clock
    ensures service.Valid() && old(service.clock.now) <= service.clock.now
    ensures DenialsKept(old(service.store.Value()), service.store.Value(), Lifetime(service.refreshDays),
                        old(service.clock.now), service.clock.now)
  {
    hide SessionInv, DenialsKept, Lifetime;
    ghost var c, start, ttl := service.store.Value(), service.clock.now, Lifetime(service.refreshDays);
    StepsKeepDenials(c, "", Meta("", "", "", ""), ttl, start, start, start);
    for i := 0 to |requests|
      invariant service.Valid() && start <= service.clock.now
      invariant DenialsKept(c, service.store.Value(), ttl, start, service.clock.now)
    {
      ghost var before, mid := service.store.Value(), service.clock.now;
      ServeOne(service, requests[i], leeway);
      DenialsKeptFurther(c, before, service.store.Value(), ttl, start, mid, service.clock.now);
    }
  }

  // ------------------------------------------- revocation, traffic, check

  /** The three ways a refresh token is revoked. */
  datatype Revocation = ByToken(raw: Raw) | BySession(userId: Uuid, sessionId: string) | ByUser(userId: Uuid)

  /** Whether a revocation is meant for a token, and through when it will deny it. */
  ghost predicate Reaches(how: Revocation, claims: Claims, registered: set<Registration>, until: real, latest: real) {
    match how
    case ByToken(raw) => raw == Signed(claims) && until == latest
    case BySession(u, id) => id == claims.jti && Registration(u, claims.jti, until) in registered
    case ByUser(u) => Registration(u, claims.jti, until) in registered
  }

  /** Whether a session or user revocation finds the token's session still live at its end. */
  ghost predicate HadSession(how: Revocation, c: Contents, jti: string, now: real) {
    !how.ByToken? && var key := SessionKey(how.userId, jti); key in c.values && Live(c, key, now)
  }

  lemma SessionNamesToken(c: Contents, registered: set<Registration>, ttl: real, userId: Uuid, jti: Uuid, now: real)
    requires SessionInv(c, registered, ttl, now) && SessionKey(userId, jti) in c.values
    ensures c.values[SessionKey(userId, jti)].sessionId == jti
  {
    var key := SessionKey(userId, jti);
    ValueIsColonFree(c, registered, ttl, key, now);
    KeyInjective(userId, jti, c.values[key].userId, c.values[key].sessionId);
  }

  method Revoke(service: AuthService, how: Revocation, leeway: real, ghost claims: Claims, ghost until: real)
    requires service.Valid() && claims.jti != ""
    requires Reaches(how, claims, service.registered, until, service.clock.now + Lifetime(service.refreshDays))
    modifies service.store, service.clock
    ensures service.Valid() && old(service.clock.now) <= service.clock.now
    ensures until <= old(service.clock.now) + Lifetime(service.refreshDays)
    ensures (how.ByToken? && claims.exp + leeway <= service.clock.now)
            || Denies(service.store.Value(), claims.jti, until, service.clock.now)
    ensures HadSession(how, old(service.store.Value()), claims.jti, service.clock.now)
            ==> Denies(service.store.Value(), claims.jti, old(service.clock.now) + Lifetime(service.refreshDays),
                       service.clock.now)
  {
    ghost var c, ttl := service.store.Value(), Lifetime(service.refreshDays);
    if !how.ByToken? && SessionKey(how.userId, claims.jti) in c.values {
      SessionNamesToken(c, service.registered, ttl, how.userId, claims.jti, service.clock.now);
      assert SessionPrefix(how.userId) <= SessionKey(how.userId, claims.jti);
    }
    hide SessionInv, HasColon, Lifetime, OtherKeysKept, OthersKept, DenialsKept, AllRejected, OnlyKnownDenied;
    hide SessionKey, SessionPrefix, Denies;
    UntilWithin(c, service.registered, ttl, service.clock.now);
    match how
    case ByToken(raw) => service.RevokeRefreshToken(raw, leeway);
    case BySession(u, id) => var _ := service.RevokeSession(u, id);
    case ByUser(u) => var _ := service.RevokeAllSessions(u);
  }

  /** From this moment no decode accepts the token, whatever the leeway and however far its lookup trails its expiry
      check, as long as expiry, leeway and that lag end within the given time. */
  ghost predicate RejectedFrom(c: Contents, claims: Claims, until: real, now: real) {
    forall expected: Option<Kind>, leeway: real, at: real, later: real ::
      now <= at <= later && claims.exp + leeway + (later - at) <= until
      ==> Decode(Signed(claims), c, expected, leeway, at, later).Unauthorized?
  }

  lemma DeniedMeansRejected(c: Contents, claims: Claims, until: real, now: real)
    requires Denies(c, claims.jti, until, now) && claims.jti != ""
    ensures RejectedFrom(c, claims, until, now)
  {
    hide Denies, Decode;
    forall expected: Option<Kind>, leeway: real, at: real, later: real |
      now <= at <= later && claims.exp + leeway + (later - at) <= until
      ensures Decode(Signed(claims), c, expected, leeway, at, later).Unauthorized?
    {
      LaterDenies(c, claims.jti, until, now, later);
      DeniedIsRejected(c, claims, until, expected, leeway, later - at, at, later);
    }
  }

  /** A denial outlasts whatever keeps denials. */
  lemma DenialLasts(c: Contents, d: Contents, jti: Uuid, until: real, ttl: real, start: real, now: real)
    requires DenialsKept(c, d, ttl, start, now) && start <= now && until <= start + ttl
    ensures Denies(c, jti, until, start) ==> Denies(d, jti, until, now)
  {
    hide HasColon;
  }

  /** However many requests follow, and however late: a denied token is rejected from then on. */
  method DeniedStaysRejected(service: AuthService, requests: seq<Request>, leeway: real, ghost claims: Claims,
                             ghost until: real)
    requires service.Valid() && claims.jti != "" && until <= service.clock.now + Lifetime(service.refreshDays)
    requires Denies(service.store.Value(), claims.jti, until, service.clock.now)
    modifies service`registered, service.store, service.clock
    ensures service.Valid() && old(service.clock.now) <= service.clock.now
    ensures Denies(service.store.Value(), claims.jti, until, service.clock.now)
    ensures RejectedFrom(service.store.Value(), claims, until, service.clock.now)
  {
    hide SessionInv, HasColon, Lifetime, Denies, DenialsKept, RejectedFrom;
    ghost var c, start, ttl := service.store.Value(), service.clock.now, Lifetime(service.refreshDays);
    Serve(service, requests, leeway);
    DenialLasts(c, service.store.Value(), claims.jti, until, ttl, start, service.clock.now);
    DeniedMeansRejected(service.store.Value(), claims, until, service.clock.now);
  }

  /** A session live now was live before. */
  lemma HadSessionBefore(how: Revocation, c: Contents, jti: string, now: real, later: real)
    requires HadSession(how, c, jti, later) && now <= later
    ensures HadSession(how, c, jti, now)
  {
  }

  /**
   Revocation is permanent: revoked by any of the three paths, then after any
   requests in any order and at any pace, the token is rejected by a check and by
   every decode from then on, as far as the denial reaches.  It reaches through
   the time the registered session was made to last, or a full lifetime if the
   token itself was presented; and through a full lifetime too if the session has
   not run out in the meantime.  A presented token that had expired needs no
   denial.
   */
  method RevokedStaysRejected(service: AuthService, how: Revocation, requests: seq<Request>, expected: Option<Kind>,
                              leeway: real, claims: Claims, ghost until: real)
    returns (r: Decoded)
    requires service.Valid() && claims.jti != ""
    requires Reaches(how, claims, service.registered, until, service.clock.now + Lifetime(service.refreshDays))
    modifies service`registered, service.store, service.clock
    ensures service.Valid() && old(service.clock.now) <= service.clock.now
    ensures (how.ByToken? && claims.exp + leeway <= service.clock.now)
            || RejectedFrom(service.store.Value(), claims, until, service.clock.now)
    ensures service.clock.now <= until ==> r.Unauthorized?
    ensures HadSession(how, old(service.store.Value()), claims.jti, service.clock.now)
            ==> RejectedFrom(service.store.Value(), claims, old(service.clock.now) + Lifetime(service.refreshDays),
                             service.clock.now)
    ensures HadSession(how, old(service.store.Value()), claims.jti, service.clock.now)
            && service.clock.now <= old(service.clock.now) + Lifetime(service.refreshDays)
            ==> r.Unauthorized?
  {
    hide SessionInv, HasColon, Lifetime, Denies, Decode, Reaches, DenialsKept, HadSession, RejectedFrom;
    ghost var c0, start, ttl := service.store.Value(), service.clock.now, Lifetime(service.refreshDays);
    Revoke(service, how, leeway, claims, until);
    ghost var c, revoked := service.store.Value(), service.clock.now;
    Serve(service, requests, leeway);
    ghost var d, asked := service.store.Value(), service.clock.now;
    r := service.CheckToken(Signed(claims), expected, leeway);
    ghost var e, later := service.store.Value(), service.clock.now;
    ghost var now :| asked <= now <= later && r == Decode(Signed(claims), d, expected, leeway, now, later);
    AfterCheck(c, d, e, claims, until, ttl, revoked, asked, expected, leeway, now, later);
    AfterCheck(c, d, e, claims, start + ttl, ttl, revoked, asked, expected, leeway, now, later);
    if HadSession(how, c0, claims.jti, later) {
      HadSessionBefore(how, c0, claims.jti, revoked, later);
    }
  }

  /** What requests and then a check leave of a denial, and what the check answers. */
  lemma AfterCheck(c: Contents, d: Contents, e: Contents, claims: Claims, until: real, ttl: real, revoked: real,
                   asked: real, expected: Option<Kind>, leeway: real, now: real, later: real)
    requires claims.jti != "" && revoked <= asked <= now <= later && until <= revoked + ttl
    requires DenialsKept(c, d, ttl, revoked, asked) && DenialsKept(d, e, ttl, asked, later)
    ensures Denies(c, claims.jti, until, revoked) ==> RejectedFrom(e, claims, until, later)
    ensures (claims.exp + leeway <= revoked || Denies(c, claims.jti, until, revoked)) && later <= until
            ==> Decode(Signed(claims), d, expected, leeway, now, later).Unauthorized?
  {
    if Denies(c, claims.jti, until, revoked) {
      DenialLasts(c, d, claims.jti, until, ttl, revoked, asked);
      DenialLasts(d, e, claims.jti, until, ttl, asked, later);
      hide RejectedFrom, DenialsKept;
      DeniedMeansRejected(e, claims, until, later);
    }
  }

  // --------------------------------------------------------- who survives

  /**
   Which tokens a revocation of all of a user's sessions reaches: one that was
   registered for the user is rejected, by a check and by every decode from then
   on, as far as its session was made to last; one that was not, and had not been
   denied before, is judged as if nothing had been revoked.
   */
  method CheckAfterRevokeAll(service: AuthService, userId: Uuid, claims: Claims, expected: Option<Kind>, leeway: real)
    returns (r: Decoded)
    requires service.Valid() && claims.jti != ""
    modifies service.store, service.clock
    ensures service.Valid() && old(service.clock.now) <= service.clock.now
    ensures RegisteredFrom(service.registered, userId, claims.jti, service.clock.now) ==> r.Unauthorized?
    ensures forall q :: q in service.registered && q.userId == userId && q.jti == claims.jti
              ==> RejectedFrom(service.store.Value(), claims, q.until, service.clock.now)
    ensures claims.exp + leeway <= old(service.clock.now) ==> r == Unauthorized(InvalidOrExpired)
    ensures !Known(service.registered, userId, claims.jti) && claims.jti !in old(service.store.expiry)
            && service.clock.now < claims.exp + leeway
            ==> r == Decode(Signed(claims), Contents(map[], map[]), expected, leeway,
                            service.clock.now, service.clock.now)
  {
    UntilWithin(service.store.Value(), service.registered, Lifetime(service.refreshDays), service.clock.now);
    hide SessionInv, HasColon, Lifetime, OthersKept, DenialsKept, Known, LiveDenied, AllRejected, Denies, RejectedFrom;
    ghost var c, ttl := service.store.Value(), Lifetime(service.refreshDays);
    var _ := service.RevokeAllSessions(userId);
    ghost var d, asked := service.store.Value(), service.clock.now;
    r := service.CheckToken(Signed(claims), expected, leeway);
    ghost var e, later := service.store.Value(), service.clock.now;
    ghost var now :| asked <= now <= later && r == Decode(Signed(claims), d, expected, leeway, now, later);
    forall q | q in service.registered && q.userId == userId && q.jti == claims.jti
      ensures RejectedFrom(e, claims, q.until, later) && (later <= q.until ==> r.Unauthorized?)
    {
      DeniedThenChecked(d, e, claims, q.until, ttl, asked, expected, leeway, now, later);
    }
    if !Known(service.registered, userId, claims.jti) && claims.jti !in c.expiry {
      assert claims.jti !in d.expiry;
    }
  }

  lemma DeniedThenChecked(d: Contents, e: Contents, claims: Claims, until: real, ttl: real, asked: real,
                          expected: Option<Kind>, leeway: real, now: real, later: real)
    requires claims.jti != "" && asked <= now <= later && until <= asked + ttl
    requires Denies(d, claims.jti, until, asked) && DenialsKept(d, e, ttl, asked, later)
    ensures RejectedFrom(e, claims, until, later)
    ensures later <= until ==> Decode(Signed(claims), d, expected, leeway, now, later).Unauthorized?
  {
    DenialLasts(d, e, claims.jti, until, ttl, asked, later);
    hide RejectedFrom, DenialsKept;
    DeniedMeansRejected(e, claims, until, later);
  }

  /** A refreshed token has no session entry, so revoking all of its user's sessions leaves it accepted. */
  method RefreshedTokenSurvives(service: AuthService, raw: Raw, jti: Uuid, leeway: real)
    returns (issued: Option<Raw>, r: Decoded)
    requires service.Valid() && raw.Signed? && jti != "" && jti != raw.claims.jti
    requires jti !in service.store.expiry && !Known(service.registered, raw.claims.sub, jti)
    modifies service.store, service.clock
    ensures Refreshable(raw, old(service.store.Value()), old(service.clock.now))
            && service.clock.now < raw.claims.exp + leeway
            ==> issued.Some?
    ensures issued.Some? ==> issued.value.Signed? && issued.value.claims.sub == raw.claims.sub
    ensures issued.Some? && service.clock.now < issued.value.claims.exp + leeway ==> r == Accepted(issued.value.claims)
  {
    hide SessionInv, HasColon, Lifetime, Known, Refreshable, RejectedFrom;
    issued := service.Rotate(raw, true, jti, leeway);
    if issued.None? { return issued, Unauthorized(InvalidOrExpired); }
    r := CheckAfterRevokeAll(service, raw.claims.sub, issued.value.claims, Some(Refresh), leeway);
  }

  ghost function LiveKeysOf(c: Contents, userId: string, t: real): set<string> {
    set k | k in c.expiry && c.expiry[k] >= t && SessionPrefix(userId) <= k
  }

  lemma CountKeys(c: Contents, userId: string, t: real, keys: seq<string>)
    requires forall k :: k in keys <==> k in Pruned(c, t).expiry && SessionPrefix(userId) <= k
    requires forall i, j :: 0 <= i < j < |keys| ==> keys[i] != keys[j]
    ensures |keys| == |LiveKeysOf(c, userId, t)|
  {
    DistinctCount(keys);
    assert LiveKeysOf(c, userId, t) == set k | k in keys;
  }

  lemma {:induction false} DistinctCount(keys: seq<string>)
    requires forall i, j :: 0 <= i < j < |keys| ==> keys[i] != keys[j]
    ensures |set k | k in keys| == |keys|
  {
    if keys != [] {
      var init, last := keys[..|keys| - 1], keys[|keys| - 1];
      DistinctCount(init);
      assert (set k | k in keys) == (set k | k in init) + {last};
    }
  }

  lemma PrunedIsAged(c: Contents, now: real)
    ensures Aged(c, Pruned(c, now), now, now)
  {
  }

  /** Every remaining session key of the user is still in the given list. */
  ghost predicate RestListed(c: Contents, userId: string, keys: seq<string>) {
    forall k :: k in c.expiry && SessionPrefix(userId) <= k ==> k in keys
  }

  lemma RetiredOne(c: Contents, d: Contents, userId: string, key: string, rest: seq<string>, now: real)
    requires SessionPrefix(userId) <= key && RestListed(c, userId, [key] + rest)
    requires OtherKeysKept(c, d, key, now) && key !in d.expiry
    ensures RestListed(d, userId, rest) && OthersKept(c, d, userId, now)
  {
    forall k | k in d.expiry && SessionPrefix(userId) <= k ensures k in rest {
      PrefixHasColon(userId, k);
      assert KeptOrExpired(c, d, k, now);
    }
  }

  lemma PruneKeepsOthers(c: Contents, userId: string, now: real)
    ensures OthersKept(c, Pruned(c, now), userId, now)
  {
  }

  /** d is c some time later: nothing new, nothing changed, and nothing dropped that is still live. */
  ghost predicate Aged(c: Contents, d: Contents, t: real, now: real) {
    && (forall k :: k in d.expiry ==> k in c.expiry && d.expiry[k] == c.expiry[k] >= t)
    && (forall k :: k in d.values && k in d.expiry ==> k in c.values && d.values[k] == c.values[k])
    && (forall k :: k in c.values && Live(c, k, now) ==> k in d.expiry && k in d.values)
  }

  lemma AgedLookup(c: Contents, d: Contents, key: string, t: real, start: real, now: real)
    requires Aged(c, d, t, start) && start <= now
    ensures Aged(c, d, t, now) && Aged(c, LookedUp(d, key, now), t, now)
  {
  }

  ghost predicate ListedIfLive(c: Contents, k: string, sessions: seq<Meta>, now: real) {
    k in c.values && Live(c, k, now) ==> c.values[k] in sessions
  }

  lemma ListedOne(c: Contents, d: Contents, userId: Uuid, k: string, t: real, start: real, now: real,
                  registered: set<Registration>, ttl: real)
    requires Aged(c, d, t, start) && start <= now && SessionPrefix(userId) <= k
    requires SessionInv(d, registered, ttl, now)
    ensures Live(d, k, now) && k in d.values ==> LiveSessionOf(c, userId, d.values[k], t) && c.values[k] == d.values[k]
    ensures k in c.values && Live(c, k, now) ==> Live(d, k, now) && k in d.values && d.values[k] == c.values[k]
  {
    if Live(d, k, now) && k in d.values {
      var m := d.values[k];
      assert ValueNamesKey(k, m, registered);
      PrefixMatchesOwner(userId, m.userId, m.sessionId);
    }
  }

  lemma AllKeysListed(c: Contents, userId: string, keys: seq<string>, sessions: seq<Meta>, t: real, now: real)
    requires forall k :: k in c.expiry && c.expiry[k] >= t && SessionPrefix(userId) <= k ==> k in keys
    requires forall j :: 0 <= j < |keys| ==> ListedIfLive(c, keys[j], sessions, now)
    requires t <= now
    ensures NoneMissed(c, userId, sessions, now)
  {
    forall k | k in c.values && SessionPrefix(userId) <= k && Live(c, k, now) ensures c.values[k] in sessions {
      assert k in keys;
      var j :| 0 <= j < |keys| && keys[j] == k;
      assert ListedIfLive(c, keys[j], sessions, now);
    }
  }

  ghost predicate LiveSessionOf(c: Contents, userId: string, m: Meta, now: real) {
    var key := SessionKey(userId, m.sessionId);
    m.userId == userId && Live(c, key, now) && key in c.values && c.values[key] == m
  }

  ghost predicate NoneMissed(c: Contents, userId: string, sessions: seq<Meta>, now: real) {
    forall k :: k in c.values && SessionPrefix(userId) <= k && Live(c, k, now) ==> c.values[k] in sessions
  }

  /** Every token registered for the user is denied for as long as its session was made to last. */
  ghost predicate AllDenied(c: Contents, registered: set<Registration>, userId: string, now: real) {
    forall r: Registration :: r in registered && r.userId == userId ==> Denies(c, r.jti, r.until, now)
  }

  /** From this moment no decode accepts a token registered for the user, whatever the leeway and however far its lookup
      trails its expiry check, as long as the session was made to last that long. */
  ghost predicate AllRejected(c: Contents, registered: set<Registration>, userId: string, now: real) {
    forall r: Registration, claims: Claims, expected: Option<Kind>, leeway: real, at: real, later: real ::
      r in registered && r.userId == userId && claims.jti == r.jti && r.jti != ""
      && now <= at <= later && claims.exp + leeway + (later - at) <= r.until
      ==> Decode(Signed(claims), c, expected, leeway, at, later).Unauthorized?
  }

  lemma PrefixHasColon(userId: string, k: string)
    requires SessionPrefix(userId) <= k
    ensures HasColon(k)
  {
    assert k[7] == SessionPrefix(userId)[7] == ':';
  }

  lemma NoSessionsAllDenied(c: Contents, registered: set<Registration>, userId: string, ttl: real, now: real)
    requires SessionInv(c, registered, ttl, now)
    requires forall k :: k in c.expiry ==> !(SessionPrefix(userId) <= k)
    ensures AllDenied(c, registered, userId, now)
  {
    forall r: Registration | r in registered && r.userId == userId ensures Denies(c, r.jti, r.until, now) {
      assert Covered(c, r, now);
      assert SessionPrefix(userId) <= SessionKey(userId, r.jti);
    }
  }

  lemma DeniedAreRejected(c: Contents, registered: set<Registration>, userId: string, now: real)
    requires AllDenied(c, registered, userId, now)
    ensures AllRejected(c, registered, userId, now)
  {
    forall r: Registration, claims: Claims, expected: Option<Kind>, leeway: real, at: real, later: real |
      r in registered && r.userId == userId && claims.jti == r.jti && r.jti != ""
      && now <= at <= later && claims.exp + leeway + (later - at) <= r.until
      ensures Decode(Signed(claims), c, expected, leeway, at, later).Unauthorized?
    {
      assert Denies(c, r.jti, r.until, now);
    }
  }

  // ------------------------------------------------- what is not touched

  /** Of the entries without a colon only those of the user's registered tokens may be new or changed. */
  ghost predicate OnlyKnownDenied(c: Contents, d: Contents, registered: set<Registration>, userId: string) {
    forall jti :: !HasColon(jti) && jti in d.expiry && !Known(registered, userId, jti)
      ==> jti in c.expiry && d.expiry[jti] == c.expiry[jti]
  }

  /** No entry is new except for these keys, and no value is. */
  ghost predicate NothingElse(c: Contents, d: Contents, keys: set<string>) {
    && (forall k :: k in d.expiry ==> k in c.expiry || k in keys)
    && (forall k :: k in d.values ==> k in c.values && d.values[k] == c.values[k])
  }

  lemma NothingNew(c: Contents, keys: set<string>)
    ensures NothingElse(c, c, keys)
  {
  }

  lemma OnlyThisIsNew(c: Contents, jti: string, ttl: real, start: real, t: real, now: real)
    requires start <= t <= now
    ensures NothingElse(c, Added(c, jti, ttl, t, now), {jti})
    ensures Denies(Added(c, jti, ttl, t, now), jti, start + ttl, now)
  {
  }

  lemma OnlyKnownDeniedFurther(c: Contents, d: Contents, e: Contents, registered: set<Registration>, userId: string)
    requires OnlyKnownDenied(c, d, registered, userId) && OnlyKnownDenied(d, e, registered, userId)
    ensures OnlyKnownDenied(c, e, registered, userId)
  {
    hide HasColon, Known;
  }

  lemma PruneDeniesNone(c: Contents, now: real, registered: set<Registration>, userId: string)
    ensures OnlyKnownDenied(c, Pruned(c, now), registered, userId)
  {
    hide HasColon, Known;
  }

  lemma DeniesOnlyThis(c: Contents, key: string, jti: string, ttl: real, t: real, now: real,
                       registered: set<Registration>,
                       userId: string)
    requires Known(registered, userId, jti)
    ensures OnlyKnownDenied(c, Removed(Added(c, jti, ttl, t, now), key), registered, userId)
  {
    hide HasColon, Known;
  }

  lemma RemovesOnly(c: Contents, key: string, now: real, registered: set<Registration>, userId: string)
    ensures OnlyKnownDenied(c, Removed(LookedUp(c, key, now), key), registered, userId)
  {
    hide HasColon, Known;
  }

  /** A session value under one of the user's keys names a token registered for that user. */
  lemma KnownOfUser(c: Contents, registered: set<Registration>, userId: Uuid, key: string, ttl: real, now: real)
    requires SessionInv(c, registered, ttl, now) && key in c.values && SessionPrefix(userId) <= key
    ensures Known(registered, userId, c.values[key].sessionId)
  {
    ValueIsColonFree(c, registered, ttl, key, now);
    PrefixMatchesOwner(userId, c.values[key].userId, c.values[key].sessionId);
  }

  lemma UntilWithin(c: Contents, registered: set<Registration>, ttl: real, now: real)
    requires SessionInv(c, registered, ttl, now)
    ensures forall r :: r in registered ==> r.until <= now + ttl
  {
  }

  /** A registered token without a live session entry is denied already, or its time is up. */
  lemma DeadSessionIsDenied(c: Contents, registered: set<Registration>, ttl: real, userId: Uuid, sessionId: string,
                            now: real)
    requires SessionInv(c, registered, ttl, now)
    requires var key := SessionKey(userId, sessionId); !Live(c, key, now) || key !in c.values
    ensures forall r :: r in registered && r.userId == userId && r.jti == sessionId
              ==> Denies(LookedUp(c, SessionKey(userId, sessionId), now), sessionId, r.until, now)
  {
    SessionKeyHasColon(userId, sessionId);
    forall r | r in registered && r.userId == userId && r.jti == sessionId
      ensures Denies(LookedUp(c, SessionKey(userId, sessionId), now), sessionId, r.until, now)
    {
      assert Covered(c, r, now);
    }
  }

  lemma LaterDenial(c: Contents, jti: string, until: real, further: real, now: real)
    requires until <= further
    ensures Denies(c, jti, further, now) ==> Denies(c, jti, until, now)
  {
  }

  lemma LaterDenies(c: Contents, jti: string, until: real, now: real, later: real)
    requires now <= later
    ensures Denies(c, jti, until, now) ==> Denies(c, jti, until, later)
  {
  }
}
