/** The whole compressor: its stages and passes, and what they never touch. */
module Compression {
  import opened Compressor
  import opened Messages
  import opened Wrappers
  import Laws = TruncationLaws

  // ---------------------------------------------------- tool result caps

  function Decimal(n: nat): string {
    if n < 10 then [DIGITS[n]] else Decimal(n / 10) + [DIGITS[n % 10]]
  }

  const DIGITS := "0123456789"

  function Marker(cut: nat): string {
    "\n... [truncated " + Decimal(cut) + " chars]"
  }

  function Cut(t: string, cap: nat): (u: string)
    requires |t| > cap
    ensures |u| >= cap
  {
    t[..cap] + Marker(|t| - cap)
  }

  /** Only the text of a tool message over the cap changes. */
  function Capped(m: Message, cap: nat): Message {
    if m.Tool? && m.content.Text? && |m.content.text| > cap then Tool(Text(Cut(m.content.text, cap)), m.callId) else m
  }

  function CapAll(ms: seq<Message>, cap: nat): seq<Message> {
    seq(|ms|, i requires 0 <= i < |ms| => Capped(ms[i], cap))
  }

  method TruncateToolResults(ms: seq<Message>, maxChars: nat) returns (result: seq<Message>)
    ensures result == CapAll(ms, maxChars)
  {
    result := [];
    for i := 0 to |ms|
      invariant |result| == i
      invariant forall k :: 0 <= k < i ==> result[k] == Capped(ms[k], maxChars)
    {
      var m := ms[i];
      if m.Tool? && m.content.Text? && |m.content.text| > maxChars {
        var truncated := m.content.text[..maxChars] + Marker(|m.content.text| - maxChars);
        result := result + [Tool(Text(truncated), m.callId)];
      } else {
        result := result + [m];
      }
    }
  }

  lemma {:induction false} DecimalLength(n: nat)
    requires n > 0
    ensures 1 <= |Decimal(n)| <= n
    ensures n >= 10 ==> |Decimal(n)| >= 2
  {
    if n >= 10 {
      DecimalLength(n / 10);
    }
  }

  /** One cap: the kind and call id stay, at least the first cap characters stay, the length is bounded and the
      text never grows by more than the fixed part of the marker. */
  lemma CapBounds(m: Message, cap: nat)
    requires m.Tool? && m.content.Text?
    ensures var t, u := m.content.text, Capped(m, cap).content;
            && Capped(m, cap).Tool? && Capped(m, cap).callId == m.callId && u.Text?
            && (|t| <= cap ==> u.text == t)
            && (|t| > cap ==> u.text[..cap] == t[..cap] && |u.text| == cap + 23 + |Decimal(|t| - cap)|)
            && |u.text| <= |t| + 23
  {
    hide Decimal, Cut;
    if |m.content.text| > cap {
      CutBounds(m.content.text, cap);
    }
  }

  lemma CutBounds(t: string, cap: nat)
    requires |t| > cap
    ensures Cut(t, cap)[..cap] == t[..cap]
    ensures |Cut(t, cap)| == cap + 23 + |Decimal(|t| - cap)| <= |t| + 23
  {
    hide Decimal, Marker;
    DecimalLength(|t| - cap);
    MarkerLength(|t| - cap);
  }

  lemma MarkerLength(cut: nat)
    ensures |Marker(cut)| == 23 + |Decimal(cut)|
  {
    hide Decimal;
    assert |"\n... [truncated "| == 16 && |" chars]"| == 7;
  }

  /** Successive caps applied to one message. */
  function CappedBy(m: Message, caps: seq<nat>): Message
    decreases |caps|
  {
    if caps == [] then m else CappedBy(Capped(m, caps[0]), caps[1..])
  }

  // ---------------------------------------------------------------- stages

  /** Stage 1: only a leading system message is replaced; condense stands for the line filter. */
  function Condensed(ms: seq<Message>, condense: Content -> string): seq<Message> {
    if ms == [] || !ms[0].System? then ms
    else [System(Text(condense(ms[0].content)))] + ms[1..]
  }

  function BaseStages(ms: seq<Message>, config: Config, iteration: int): seq<Message> {
    var s1 := if iteration > 1 then Condensed(ms, config.condense) else ms;
    CapAll(Truncated(s1, config.maxHistory), config.maxToolChars)
  }

  datatype Config = Config(maxHistory: int, maxToolChars: nat, condense: Content -> string)

  function Progressive(ms: seq<Message>, target: int): seq<Message> {
    if Estimate(ms) <= target then ms
    else
      var pass2 := CapAll(Truncated(ms, 1), 2500);
      if Estimate(pass2) <= target then pass2
      else CapAll(Truncated(pass2, 0), 1500)
  }

  function Compressed(ms: seq<Message>, config: Config, iteration: int, target: Option<int>): seq<Message> {
    if target.Some? && 2 * Estimate(ms) < target.value then ms
    else
      var base := BaseStages(ms, config, iteration);
      if target.Some? then Progressive(base, target.value) else base
  }

  method ProgressiveCompress(ms: seq<Message>, target: int) returns (result: seq<Message>)
    ensures result == Progressive(ms, target)
  {
    var est := EstimateTokens(ms);
    if est <= target { return ms; }
    result := TruncateHistory(ms, 1);
    result := TruncateToolResults(result, 2500);
    est := EstimateTokens(result);
    if est <= target { return; }
    result := TruncateHistory(result, 0);
    result := TruncateToolResults(result, 1500);
  }

  method Compress(ms: seq<Message>, config: Config, iteration: int, target: Option<int>)
    returns (result: seq<Message>)
    ensures result == Compressed(ms, config, iteration, target)
  {
    if target.Some? {
      var est := EstimateTokens(ms);
      if 2 * est < target.value { return ms; }
    }
    result := ms;
    if iteration > 1 {
      result := Condensed(result, config.condense);
    }
    result := TruncateHistory(result, config.maxHistory);
    result := TruncateToolResults(result, config.maxToolChars);
    if target.Some? {
      result := ProgressiveCompress(result, target.value);
    }
  }

  // ------------------------------------------------ what every pass carries

  ghost predicate SameKind(m: Message, n: Message) {
    m.System? == n.System? && m.Human? == n.Human? && m.AI? == n.AI? && m.Tool? == n.Tool?
  }

  ghost predicate SameKinds(ms: seq<Message>, ns: seq<Message>) {
    |ms| == |ns| && forall i :: 0 <= i < |ms| ==> SameKind(ms[i], ns[i])
  }

  lemma {:induction false} SameKindsLastHuman(ms: seq<Message>, ns: seq<Message>, n: nat)
    requires SameKinds(ms, ns) && n <= |ms|
    ensures LastHuman(ms, n) == LastHuman(ns, n)
  {
    if n > 0 {
      SameKindsLastHuman(ms, ns, n - 1);
    }
  }

  lemma SameKindsToolAfter(ms: seq<Message>, ns: seq<Message>, i: int)
    requires SameKinds(ms, ns)
    ensures ToolAfter(ms, i) == ToolAfter(ns, i)
  {
  }

  lemma SameKindsSameBoundary(ms: seq<Message>, ns: seq<Message>)
    requires SameKinds(ms, ns)
    ensures Boundary(ms) == Boundary(ns)
  {
    hide LastHuman, ToolAfter;
    var last := LastHuman(ms, |ms|);
    SameKindsLastHuman(ms, ns, |ms|);
    SameKindsToolAfter(ms, ns, last);
    if last > 0 {
      SameKindsLastHuman(ms, ns, last);
      SameKindsToolAfter(ms, ns, LastHuman(ms, last));
    }
  }

  /** The current request: everything from the boundary on. */
  function Request(ms: seq<Message>): seq<Message> {
    ms[Boundary(ms)..]
  }

  /** A request message changed by nothing but the caps; a system message at the very front may be condensed. */
  ghost predicate CarriedOver(i: nat, m: Message, k: Message, caps: seq<nat>) {
    if i == 0 && m.System? then k.System? else k == CappedBy(m, caps)
  }

  /** The current request of ms is the current request of r, message for message and in order. */
  ghost predicate Carries(ms: seq<Message>, r: seq<Message>, caps: seq<nat>) {
    && |Request(r)| == |Request(ms)|
    && forall i: nat :: i < |Request(ms)| ==> CarriedOver(i, Request(ms)[i], Request(r)[i], caps)
  }

  lemma {:induction false} CappedByAppend(m: Message, caps: seq<nat>, cap: nat)
    ensures CappedBy(m, caps + [cap]) == Capped(CappedBy(m, caps), cap)
    decreases |caps|
  {
    if caps == [] {
      assert [cap][1..] == [];
    } else {
      assert (caps + [cap])[1..] == caps[1..] + [cap];
      CappedByAppend(Capped(m, caps[0]), caps[1..], cap);
    }
  }

  /** History truncation leaves the current request exactly as it was. */
  lemma TruncateKeepsRequest(r: seq<Message>, n: int)
    ensures Request(Truncated(r, n)) == Request(r)
  {
    if Boundary(r) > 0 {
      hide Truncated, Boundary, Leading, CutAt;
      var p, c := Laws.TruncatedIsWithout(r, n);
      TailOfWithout(r, p, c, Boundary(r));
    } else {
      hide Boundary;
    }
  }

  lemma TailOfWithout(r: seq<Message>, p: nat, c: nat, b: nat)
    requires p <= c <= b <= |r|
    ensures |Without(r, p, c)| == |r| - (c - p) && Without(r, p, c)[b - (c - p)..] == r[b..]
  {
  }

  lemma CapKeepsKinds(r: seq<Message>, cap: nat)
    ensures Request(CapAll(r, cap)) == CapAll(Request(r), cap)
  {
    var next := CapAll(r, cap);
    assert SameKinds(r, next);
    SameKindsSameBoundary(r, next);
    hide Boundary, Capped;
  }

  lemma CapCarries(ms: seq<Message>, r: seq<Message>, caps: seq<nat>, cap: nat)
    requires Carries(ms, r, caps)
    ensures Carries(ms, CapAll(r, cap), caps + [cap])
  {
    CapKeepsKinds(r, cap);
    hide Request, Marker;
    forall i: nat | i < |Request(ms)|
      ensures CarriedOver(i, Request(ms)[i], CapAll(Request(r), cap)[i], caps + [cap])
    {
      assert CarriedOver(i, Request(ms)[i], Request(r)[i], caps);
      CappedByAppend(Request(ms)[i], caps, cap);
    }
  }

  lemma EmptyCaps()
    ensures forall m :: CappedBy(m, []) == m
  {
  }

  lemma CondenseKeepsTail(ms: seq<Message>, condense: Content -> string, b: nat)
    requires b <= |ms|
    ensures var r := Condensed(ms, condense);
            && |r| == |ms|
            && forall i: nat :: i < |ms[b..]| ==>
                 r[b..][i] == ms[b..][i] || (i == 0 == b && ms[0].System? && r[0].System?)
  {
  }

  lemma CondenseCarries(ms: seq<Message>, condense: Content -> string)
    ensures Carries(ms, Condensed(ms, condense), [])
  {
    var r := Condensed(ms, condense);
    assert SameKinds(ms, r);
    SameKindsSameBoundary(ms, r);
    BoundaryFacts(ms);
    hide Boundary, SameKinds, CappedBy;
    EmptyCaps();
    CondenseKeepsTail(ms, condense, Boundary(ms));
    hide Condensed;
  }

  lemma CarriesItself(ms: seq<Message>)
    ensures Carries(ms, ms, [])
  {
  }

  lemma BaseStagesCarry(ms: seq<Message>, config: Config, iteration: int)
    ensures Carries(ms, BaseStages(ms, config, iteration), [config.maxToolChars])
  {
    var s1 := if iteration > 1 then Condensed(ms, config.condense) else ms;
    hide Request, Condensed, Truncated, CapAll, CarriedOver;
    CondenseCarries(ms, config.condense);
    CarriesItself(ms);
    TruncateKeepsRequest(s1, config.maxHistory);
    CapCarries(ms, Truncated(s1, config.maxHistory), [], config.maxToolChars);
    assert [] + [config.maxToolChars] == [config.maxToolChars];
  }

  /** The caps some compression path applies, in order. */
  ghost predicate CapsOfSomePath(caps: seq<nat>, first: nat) {
    caps in {[], [first], [first, 2500], [first, 2500, 1500]}
  }

  function PassTwo(base: seq<Message>): seq<Message> {
    CapAll(Truncated(base, 1), 2500)
  }

  /** The caps a call applies. */
  function PathCaps(ms: seq<Message>, config: Config, iteration: int, target: Option<int>): seq<nat> {
    var base, first := BaseStages(ms, config, iteration), config.maxToolChars;
    if target.None? then [first]
    else if 2 * Estimate(ms) < target.value then []
    else if Estimate(base) <= target.value then [first]
    else if Estimate(PassTwo(base)) <= target.value then [first, 2500]
    else [first, 2500, 1500]
  }

  /** Through all stages and passes the current request survives, in order, with only tool text capped. */
  lemma CompressKeepsRequest(ms: seq<Message>, config: Config, iteration: int, target: Option<int>)
    returns (caps: seq<nat>)
    ensures CapsOfSomePath(caps, config.maxToolChars) && caps == PathCaps(ms, config, iteration, target)
    ensures Carries(ms, Compressed(ms, config, iteration, target), caps)
  {
    var first := config.maxToolChars;
    hide Request, CarriedOver, BaseStages, Truncated, CapAll, Estimate;
    CarriesItself(ms);
    if target.Some? && 2 * Estimate(ms) < target.value {
      return [];
    }
    var base := BaseStages(ms, config, iteration);
    BaseStagesCarry(ms, config, iteration);
    if target.None? || Estimate(base) <= target.value {
      return [first];
    }
    TruncateKeepsRequest(base, 1);
    CapCarries(ms, Truncated(base, 1), [first], 2500);
    var pass2 := CapAll(Truncated(base, 1), 2500);
    assert [first] + [2500] == [first, 2500];
    if Estimate(pass2) <= target.value {
      return [first, 2500];
    }
    TruncateKeepsRequest(pass2, 0);
    CapCarries(ms, Truncated(pass2, 0), [first, 2500], 1500);
    assert [first, 2500] + [1500] == [first, 2500, 1500];
    return [first, 2500, 1500];
  }

  /** A capped message keeps its kind and call id, and only tool text differs at all. */
  lemma {:induction false} CappedByKeepsIdentity(m: Message, caps: seq<nat>)
    ensures SameKind(m, CappedBy(m, caps))
    ensures m.Tool? ==> CappedBy(m, caps).callId == m.callId
    ensures !m.Tool? || m.content.Blocks? ==> CappedBy(m, caps) == m
    decreases |caps|
  {
    if caps != [] {
      CappedByKeepsIdentity(Capped(m, caps[0]), caps[1..]);
    }
  }

  // -------------------------------------------- what the stages and passes do

  /** Nothing but system messages before the request. */
  ghost predicate NoHistory(ms: seq<Message>) {
    SystemPrefix(ms, Boundary(ms))
  }

  lemma CapKeepsNoHistory(ms: seq<Message>, cap: nat)
    requires NoHistory(ms)
    ensures NoHistory(CapAll(ms, cap))
  {
    assert SameKinds(ms, CapAll(ms, cap)) by { hide Cut; }
    SameKindsSameBoundary(ms, CapAll(ms, cap));
    hide Boundary, Capped;
  }

  lemma NoTurnsNoHistory(ms: seq<Message>)
    ensures NoHistory(Truncated(ms, 0))
  {
    if Boundary(ms) > 0 {
      hide Truncated, Boundary, Leading;
      var p, c := Laws.TruncatedIsWithout(ms, 0);
      assert CutAt(ms[p..Boundary(ms)], 0) == Boundary(ms) - p;
      hide CutAt;
      var cut := Without(ms, p, c);
      assert forall i :: 0 <= i < p ==> cut[i] == ms[i];
    }
  }

  /**
   With a target, the result meets it, unless all three passes were taken; and
   then there is no history left, only the system prefix and the request, and
   every tool text has been through the last cap.  Well under the target nothing
   is done at all.
   */
  lemma CompressMeetsTargetOrDropsHistory(ms: seq<Message>, config: Config, iteration: int, target: int)
    ensures var r := Compressed(ms, config, iteration, Some(target));
            || Estimate(r) <= target
            || (PathCaps(ms, config, iteration, Some(target)) == [config.maxToolChars, 2500, 1500]
                && NoHistory(r) && exists last :: r == CapAll(last, 1500))
    ensures 2 * Estimate(ms) < target ==> Compressed(ms, config, iteration, Some(target)) == ms
  {
    hide BaseStages, Truncated, Estimate, NoHistory, Capped;
    var base := BaseStages(ms, config, iteration);
    if 2 * Estimate(ms) < target {
      assert Estimate(ms) <= target;
    } else if Estimate(base) > target && Estimate(PassTwo(base)) > target {
      var last := Truncated(PassTwo(base), 0);
      NoTurnsNoHistory(PassTwo(base));
      CapKeepsNoHistory(last, 1500);
      assert Compressed(ms, config, iteration, Some(target)) == CapAll(last, 1500);
    }
  }

  lemma {:induction false} SameKindsTurns(h: seq<Message>, k: seq<Message>)
    requires SameKinds(h, k)
    ensures |Turns(h)| == |Turns(k)|
  {
    if h != [] {
      SameKindsTurns(h[1..], k[1..]);
    }
  }

  lemma {:induction false} SameKindsLeading(ms: seq<Message>, ns: seq<Message>, b: nat)
    requires SameKinds(ms, ns) && b <= |ms|
    ensures Leading(ms, b) == Leading(ns, b)
  {
    if b > 0 && ms[0].System? {
      SameKindsLeading(ms[1..], ns[1..], b - 1);
    }
  }

  /** Between the system prefix of ms and the request of r stand as many turns as in the history of ms, or n if
      there were more. */
  ghost predicate KeepsTurns(ms: seq<Message>, r: seq<Message>, n: int) {
    var p, b := Leading(ms, Boundary(ms)), Boundary(ms);
    b > 0 ==>
      && p <= Boundary(r) <= |r|
      && |Turns(r[p..Boundary(r)])| == Laws.Min(|Turns(ms[p..b])|, if n <= 0 then 0 else n)
  }

  lemma CapKeepsTurns(ms: seq<Message>, cap: nat, p: nat)
    requires p <= Boundary(ms)
    ensures var r := CapAll(ms, cap);
            Boundary(r) == Boundary(ms) <= |r| && |Turns(r[p..Boundary(r)])| == |Turns(ms[p..Boundary(ms)])|
  {
    var r := CapAll(ms, cap);
    assert SameKinds(ms, r) by { hide Cut; }
    SameKindsSameBoundary(ms, r);
    hide Boundary, Turns, CapAll;
    SameKindsTurns(ms[p..Boundary(ms)], r[p..Boundary(r)]);
  }

  lemma StageKeepsTurns(ms: seq<Message>, n: int, cap: nat)
    ensures KeepsTurns(ms, CapAll(Truncated(ms, n), cap), n)
  {
    hide Truncated, Boundary, Leading, Turns, CapAll;
    if Boundary(ms) > 0 {
      Laws.TruncatedKeepsLastTurns(ms, n);
      CapKeepsTurns(Truncated(ms, n), cap, Leading(ms, Boundary(ms)));
    }
  }

  lemma SameKindsKeepTurns(ms: seq<Message>, ns: seq<Message>, r: seq<Message>, n: int)
    requires SameKinds(ms, ns) && KeepsTurns(ns, r, n)
    ensures KeepsTurns(ms, r, n)
  {
    SameKindsSameBoundary(ms, ns);
    SameKindsLeading(ms, ns, Boundary(ms));
    hide Boundary, Leading, Turns;
    var p, b := Leading(ms, Boundary(ms)), Boundary(ms);
    SameKindsTurns(ms[p..b], ns[p..b]);
  }

  /** How many passes were taken, and what each leaves of the history: the configured number of turns, then one; and
      after a third pass there is none. */
  lemma CompressKeepsLastTurns(ms: seq<Message>, config: Config, iteration: int, target: Option<int>)
    ensures var r, passes := Compressed(ms, config, iteration, target), |PathCaps(ms, config, iteration, target)|;
            && (passes == 1 ==> KeepsTurns(ms, r, config.maxHistory))
            && (passes == 2 ==> exists base :: KeepsTurns(ms, base, config.maxHistory) && KeepsTurns(base, r, 1))
            && (passes == 3 ==> NoHistory(r))
  {
    hide Truncated, CapAll, Estimate, NoHistory, KeepsTurns;
    var s1 := if iteration > 1 then Condensed(ms, config.condense) else ms;
    var base := BaseStages(ms, config, iteration);
    StageKeepsTurns(s1, config.maxHistory, config.maxToolChars);
    SameKindsKeepTurns(ms, s1, base, config.maxHistory);
    StageKeepsTurns(base, 1, 2500);
    NoTurnsNoHistory(PassTwo(base));
    CapKeepsNoHistory(Truncated(PassTwo(base), 0), 1500);
  }

  lemma StagesKeepFirst(ms: seq<Message>, n: int, cap: nat)
    requires ms != [] && ms[0].System?
    ensures var r := CapAll(Truncated(ms, n), cap); r != [] && r[0] == ms[0]
  {
    if Boundary(ms) > 0 {
      assert Leading(ms, Boundary(ms)) > 0;
      hide Truncated, Boundary, Leading, CutAt;
      var p, c := Laws.TruncatedIsWithout(ms, n);
      assert Without(ms, p, c)[0] == ms[0];
    }
  }

  /** A leading system prompt is condensed from the second iteration on, never on the first. */
  lemma PromptCondensedFromSecondIteration(ms: seq<Message>, config: Config, iteration: int, target: Option<int>)
    requires ms != [] && ms[0].System? && (target.Some? ==> target.value <= 2 * Estimate(ms))
    ensures var r := Compressed(ms, config, iteration, target);
            r != [] && r[0] == if iteration > 1 then System(Text(config.condense(ms[0].content))) else ms[0]
  {
    hide Truncated, CapAll, Estimate;
    var s1 := if iteration > 1 then Condensed(ms, config.condense) else ms;
    StagesKeepFirst(s1, config.maxHistory, config.maxToolChars);
    var base := BaseStages(ms, config, iteration);
    StagesKeepFirst(base, 1, 2500);
    StagesKeepFirst(PassTwo(base), 0, 1500);
  }

  // -------------------------------------------------------- what a cut says

  function Number(digits: string): nat {
    if digits == "" then 0
    else
      var c := digits[|digits| - 1];
      10 * Number(digits[..|digits| - 1]) + if '0' <= c <= '9' then (c - '0') as nat else 0
  }

  /** The printed number is the number. */
  lemma {:induction false} DecimalIsNumber(n: nat)
    ensures Number(Decimal(n)) == n
  {
    DigitIs(n % 10);
    if n >= 10 {
      DecimalIsNumber(n / 10);
      assert Decimal(n)[..|Decimal(n / 10)|] == Decimal(n / 10);
    } else {
      assert Decimal(n)[..0] == "";
    }
  }

  lemma DigitIs(d: nat)
    requires d < 10
    ensures '0' <= DIGITS[d] <= '9' && (DIGITS[d] - '0') as nat == d
  {
    assert DIGITS[0] == '0' && DIGITS[1] == '1' && DIGITS[2] == '2' && DIGITS[3] == '3' && DIGITS[4] == '4';
    assert DIGITS[5] == '5' && DIGITS[6] == '6' && DIGITS[7] == '7' && DIGITS[8] == '8' && DIGITS[9] == '9';
  }

  /** A cut result ends by saying how many characters were cut. */
  lemma CutSaysHowMuch(t: string, cap: nat)
    requires |t| > cap
    ensures exists digits :: Number(digits) == |t| - cap
                             && Cut(t, cap) == t[..cap] + ("\n... [truncated " + digits + " chars]")
  {
    DecimalIsNumber(|t| - cap);
    hide Number, Decimal;
  }

  // ------------------------------------------- tool results keep their caller

  ghost predicate WellPaired(ms: seq<Message>) {
    Laws.Paired(ms) && Laws.NoToolBeforeBoundary(ms)
  }

  ghost predicate SameCalls(m: Message, n: Message) {
    SameKind(m, n) && (m.AI? ==> m.calls == n.calls) && (m.Tool? ==> m.callId == n.callId)
  }

  lemma SameCallsKeepPairing(ms: seq<Message>, ns: seq<Message>)
    requires |ms| == |ns| && forall i :: 0 <= i < |ms| ==> SameCalls(ms[i], ns[i])
    requires WellPaired(ms)
    ensures WellPaired(ns)
  {
    assert SameKinds(ms, ns);
    SameKindsSameBoundary(ms, ns);
    hide Boundary;
    forall j: nat | j < |ns| && ns[j].Tool? ensures exists i: nat :: i < j && Laws.CalledBy(ns, j, i) {
      var i: nat :| i < j && Laws.CalledBy(ms, j, i);
      assert Laws.CalledBy(ns, j, i);
    }
  }

  lemma TruncateKeepsPairing(ms: seq<Message>, n: int)
    requires WellPaired(ms)
    ensures WellPaired(Truncated(ms, n))
  {
    if Boundary(ms) > 0 {
      hide Truncated, Laws.Paired, Boundary, Without;
      var p, c := Laws.TruncatedIsWithout(ms, n);
      Laws.PairedWithout(ms, p, c);
      NoToolWithout(ms, p, c);
    }
  }

  lemma NoToolWithout(ms: seq<Message>, p: nat, c: nat)
    requires Laws.NoToolBeforeBoundary(ms) && p <= c <= Boundary(ms)
    requires Boundary(Without(ms, p, c)) == Boundary(ms) - (c - p)
    ensures Laws.NoToolBeforeBoundary(Without(ms, p, c))
  {
    hide Boundary;
    var cut := Without(ms, p, c);
    forall j | 0 <= j < Boundary(cut) ensures !cut[j].Tool? {
      assert cut[j] == if j < p then ms[j] else ms[j + (c - p)];
    }
  }

  lemma CapKeepsPairing(ms: seq<Message>, cap: nat)
    requires WellPaired(ms)
    ensures WellPaired(CapAll(ms, cap))
  {
    hide WellPaired;
    SameCallsKeepPairing(ms, CapAll(ms, cap));
  }

  lemma CondenseKeepsPairing(ms: seq<Message>, condense: Content -> string)
    requires WellPaired(ms)
    ensures WellPaired(Condensed(ms, condense))
  {
    hide WellPaired;
    SameCallsKeepPairing(ms, Condensed(ms, condense));
  }

  lemma StagesKeepPairing(ms: seq<Message>, config: Config, iteration: int)
    requires WellPaired(ms)
    ensures WellPaired(BaseStages(ms, config, iteration))
  {
    hide WellPaired, Truncated, CapAll, Condensed;
    CondenseKeepsPairing(ms, config.condense);
    var s1 := if iteration > 1 then Condensed(ms, config.condense) else ms;
    TruncateKeepsPairing(s1, config.maxHistory);
    CapKeepsPairing(Truncated(s1, config.maxHistory), config.maxToolChars);
  }

  /** If no tool message precedes the boundary, every tool message any path keeps still follows its caller. */
  lemma CompressKeepsPairing(ms: seq<Message>, config: Config, iteration: int, target: Option<int>)
    requires WellPaired(ms)
    ensures WellPaired(Compressed(ms, config, iteration, target))
  {
    hide WellPaired, Truncated, CapAll, Estimate, BaseStages;
    StagesKeepPairing(ms, config, iteration);
    var base := BaseStages(ms, config, iteration);
    TruncateKeepsPairing(base, 1);
    CapKeepsPairing(Truncated(base, 1), 2500);
    var pass2 := CapAll(Truncated(base, 1), 2500);
    TruncateKeepsPairing(pass2, 0);
    CapKeepsPairing(Truncated(pass2, 0), 1500);
  }

  // ------------------------------------------------- size over all passes

  lemma {:induction false} TotalCharsConcat(a: seq<Message>, b: seq<Message>)
    ensures TotalChars(a + b) == TotalChars(a) + TotalChars(b)
  {
    if a == [] {
      assert a + b == b;
    } else {
      assert (a + b)[1..] == a[1..] + b;
      TotalCharsConcat(a[1..], b);
    }
  }

  lemma EstimateIsMonotone(a: seq<Message>, b: seq<Message>)
    requires TotalChars(a) <= TotalChars(b)
    ensures Estimate(a) <= Estimate(b)
  {
    hide TotalChars;
  }

  lemma DropMiddle(ms: seq<Message>, p: nat, c: nat)
    requires p <= c <= |ms|
    ensures TotalChars(ms[..p] + ms[c..]) <= TotalChars(ms)
  {
    hide TotalChars;
    assert ms == ms[..p] + (ms[p..c] + ms[c..]);
    TotalCharsConcat(ms[..p], ms[p..c] + ms[c..]);
    TotalCharsConcat(ms[p..c], ms[c..]);
    TotalCharsConcat(ms[..p], ms[c..]);
  }

  /** Dropping history never raises the estimate, whatever the number of turns. */
  lemma TruncateNeverRaisesEstimate(ms: seq<Message>, n: int)
    ensures TotalChars(Truncated(ms, n)) <= TotalChars(ms)
    ensures Estimate(Truncated(ms, n)) <= Estimate(ms)
  {
    hide TotalChars, Estimate, Boundary;
    if Boundary(ms) > 0 {
      hide Truncated;
      var p, c := Laws.TruncatedIsWithout(ms, n);
      DropMiddle(ms, p, c);
      EstimateIsMonotone(Truncated(ms, n), ms);
    }
  }

  // ------------------------------------------ growth of a single tool result

  lemma {:induction false} DecimalShort(n: nat)
    ensures |Decimal(n)| <= 2 + n / 100
  {
    if n >= 100 {
      DecimalShort(n / 10);
    }
  }

  function TextLength(m: Message): nat {
    if m.content.Text? then |m.content.text| else 0
  }

  lemma CapLength(m: Message, cap: nat)
    requires m.Tool? && m.content.Text?
    ensures Capped(m, cap).Tool? && Capped(m, cap).content.Text?
    ensures TextLength(m) <= cap ==> Capped(m, cap) == m
    ensures TextLength(m) > cap ==>
              var cut := TextLength(m) - cap;
              && cap + 23 < TextLength(Capped(m, cap)) <= cap + 23 + cut
              && (cut >= 10 ==> cap + 24 < TextLength(Capped(m, cap)))
              && TextLength(Capped(m, cap)) <= cap + 25 + cut / 100
  {
    CapBounds(m, cap);
    if TextLength(m) > cap {
      DecimalLength(TextLength(m) - cap);
      DecimalShort(TextLength(m) - cap);
    }
  }

  lemma CappedByUnfolds(m: Message, first: nat)
    ensures CappedBy(m, []) == m
    ensures CappedBy(m, [first]) == Capped(m, first)
    ensures CappedBy(m, [first, 2500]) == Capped(Capped(m, first), 2500)
    ensures CappedBy(m, [first, 2500, 1500]) == Capped(Capped(Capped(m, first), 2500), 1500)
  {
    assert [] + [first] == [first] && [first] + [2500] == [first, 2500];
    assert [first, 2500] + [1500] == [first, 2500, 1500];
    CappedByAppend(m, [], first);
    CappedByAppend(m, [first], 2500);
    CappedByAppend(m, [first, 2500], 1500);
  }

  /** A first cap so close under a later one that its own marker pushes the text over that cap. */
  predicate MarkersStack(first: nat) {
    1476 <= first <= 1500 || 2476 <= first <= 2500
  }

  ghost predicate GrowsAtMost23(m: Message, caps: seq<nat>) {
    m.Tool? && m.content.Text? ==> TextLength(CappedBy(m, caps)) <= TextLength(m) + 23
  }

  lemma PathGrowth(m: Message, caps: seq<nat>, first: nat)
    requires !MarkersStack(first) && CapsOfSomePath(caps, first)
    ensures GrowsAtMost23(m, caps)
  {
    if m.Tool? && m.content.Text? {
      var m1 := Capped(m, first);
      var m2 := Capped(m1, 2500);
      CapLength(m, first);
      CapLength(m1, 2500);
      CapLength(m2, 1500);
      CapBounds(m, first);
      CapBounds(m1, 2500);
      CapBounds(m2, 1500);
      CappedByUnfolds(m, first);
      hide Capped, CappedBy;
    }
  }

  lemma StackedMarkersGrowMore(first: nat) returns (m: Message)
    requires MarkersStack(first)
    ensures m.Tool? && m.content.Text?
    ensures TextLength(Capped(m, first)) > 8 && TextLength(Capped(Capped(m, first), 2500)) <= 2530
    ensures !GrowsAtMost23(m, if first <= 1500 then [first, 2500, 1500] else [first, 2500])
  {
    var over := if first == 1476 || first == 2476 then 10 else 1;
    m := Tool(Text(seq(first + over, i => 'x')), "");
    CappedByUnfolds(m, first);
    CapBounds(m, first);
    assert |Decimal(1)| == 1 && |Decimal(10)| == |Decimal(1)| + 1;
    var m1 := Capped(m, first);
    CapLength(m1, 2500);
    CapLength(m1, 1500);
    hide Capped, CappedBy;
    assert TextLength(m1) == first + 23 + if over == 1 then 1 else 2;
  }

  // ------------------------------------------------- growth over whole calls

  /** No tool result of the current request comes out more than 23 characters longer than it went in. */
  ghost predicate NoResultGrows(ms: seq<Message>, config: Config, iteration: int, target: Option<int>) {
    var sent := Request(Compressed(ms, config, iteration, target));
    forall i :: 0 <= i < |Request(ms)| && i < |sent| && Request(ms)[i].Tool? && Request(ms)[i].content.Text?
      ==> TextLength(sent[i]) <= TextLength(Request(ms)[i]) + 23
  }

  lemma NoStackNoGrowth(ms: seq<Message>, config: Config, iteration: int, target: Option<int>)
    requires !MarkersStack(config.maxToolChars)
    ensures NoResultGrows(ms, config, iteration, target)
  {
    hide Request, Compressed, PathCaps, CappedBy, CapsOfSomePath, MarkersStack;
    var caps := CompressKeepsRequest(ms, config, iteration, target);
    var sent := Request(Compressed(ms, config, iteration, target));
    forall i | 0 <= i < |Request(ms)| && i < |sent| && Request(ms)[i].Tool? && Request(ms)[i].content.Text?
      ensures TextLength(sent[i]) <= TextLength(Request(ms)[i]) + 23
    {
      assert CarriedOver(i, Request(ms)[i], sent[i], caps);
      PathGrowth(Request(ms)[i], caps, config.maxToolChars);
    }
  }

  /** Two turns of history, a human message and one tool result. */
  function TwoTurns(long: Content, m: Message): seq<Message> {
    [AI(long, []), AI(Text(""), []), Human(Text("")), m]
  }

  lemma TwoTurnsBoundary(long: Content, m: Message)
    requires m.Tool?
    ensures Boundary(TwoTurns(long, m)) == 2
  {
    var ms := TwoTurns(long, m);
    LastHumanIs(ms, 4, 2);
    hide LastHuman;
    assert ToolAfter(ms, 2) by { assert ms[3].Tool?; }
  }

  lemma TwoTurnsAre(a: Message, b: Message)
    requires a.AI? && b.AI?
    ensures Turns([a, b]) == [[a], [b]] && Flatten([[a], [b]]) == [a, b] && Flatten([[b]]) == [b]
  {
    NoTurns();
    OneTurn(b, []);
    OneTurn(a, [b]);
    hide Turns;
    assert [b] + [] == [b] && [a] + [b] == [a, b];
    assert [[b]][1..] == [] && [[a], [b]][1..] == [[b]];
  }

  lemma TwoTurnsTruncated(long: Content, m: Message)
    requires m.Tool?
    ensures var ms := TwoTurns(long, m); Truncated(ms, 2) == ms && Truncated(ms, 1) == ms[1..]
  {
    var ms := TwoTurns(long, m);
    TwoTurnsBoundary(long, m);
    TwoTurnsAre(ms[0], ms[1]);
    assert Leading(ms, 2) == 0;
    hide Boundary, Turns, Flatten, Leading;
    assert ms[0..2] == [ms[0], ms[1]];
    assert [] + [ms[0], ms[1]] + ms[2..] == ms && [] + [ms[1]] + ms[2..] == ms[1..];
  }

  lemma TwoTurnsChars(long: Content, m: Message)
    requires m.Tool?
    ensures TotalChars(TwoTurns(long, m)) == Chars(AI(long, [])) + Chars(m)
    ensures TotalChars(TwoTurns(long, m)[1..]) == Chars(m)
  {
    var ms := TwoTurns(long, m);
    assert ms[1..] == [ms[1], ms[2], ms[3]] && ms[2..] == [ms[2], ms[3]] && ms[3..] == [ms[3]] && ms[4..] == [];
    assert ms[1..][1..] == ms[2..] && ms[2..][1..] == ms[3..] && ms[3..][1..] == [];
    assert TotalChars(ms[3..]) == Chars(m);
    assert Chars(ms[1]) == 0 == Chars(ms[2]);
    assert TotalChars(ms[1..]) == TotalChars(ms[2..]) == TotalChars(ms[3..]);
  }

  lemma TwoTurnsCapped(long: Content, m: Message, cap: nat)
    ensures CapAll(TwoTurns(long, m), cap) == TwoTurns(long, Capped(m, cap))
    ensures CapAll(TwoTurns(long, m)[1..], cap) == TwoTurns(long, Capped(m, cap))[1..]
  {
    hide Marker;
  }

  const LONG: nat := 4000

  lemma TwoTurnsBase(long: Content, m: Message, config: Config)
    requires m.Tool? && config.maxHistory == 2
    ensures BaseStages(TwoTurns(long, m), config, 1) == TwoTurns(long, Capped(m, config.maxToolChars))
  {
    TwoTurnsTruncated(long, m);
    TwoTurnsCapped(long, m, config.maxToolChars);
    hide Capped, Truncated, CapAll, TwoTurns;
  }

  lemma TwoTurnsPassTwo(long: Content, m: Message)
    requires m.Tool?
    ensures PassTwo(TwoTurns(long, m)) == TwoTurns(long, Capped(m, 2500))[1..]
  {
    TwoTurnsTruncated(long, m);
    TwoTurnsCapped(long, m, 2500);
    hide Capped, Truncated, CapAll, TwoTurns;
  }

  /** Dropping the long turn makes up for the markers. */
  lemma TwoTurnsEstimates(long: Content, m: Message, m1: Message, m2: Message)
    requires m.Tool? && m1.Tool? && m2.Tool? && m1.content.Text? && m2.content.Text?
    requires long.Text? && |long.text| == LONG && 8 < TextLength(m1) && 8 < TextLength(m2) <= 2530
    ensures 0 < Estimate(TwoTurns(long, m2)[1..]) < Estimate(TwoTurns(long, m1))
    ensures Estimate(TwoTurns(long, m2)[1..]) <= 2 * Estimate(TwoTurns(long, m))
  {
    TwoTurnsChars(long, m);
    TwoTurnsChars(long, m1);
    TwoTurnsChars(long, m2);
    hide TwoTurns, TotalChars;
  }

  lemma LaterPasses(ms: seq<Message>, config: Config, iteration: int, target: int)
    requires target <= 2 * Estimate(ms) && target < Estimate(BaseStages(ms, config, iteration))
    ensures var first := config.maxToolChars;
            PathCaps(ms, config, iteration, Some(target))
            == if Estimate(PassTwo(BaseStages(ms, config, iteration))) <= target then [first, 2500]
               else [first, 2500, 1500]
  {
    hide Estimate, BaseStages, PassTwo;
  }

  /** Passes two and three are reached, or only pass two, according to the target. */
  lemma TwoTurnsPath(m: Message, first: nat, config: Config) returns (ms: seq<Message>, target: Option<int>)
    requires m.Tool? && m.content.Text? && config.maxHistory == 2 && config.maxToolChars == first
    requires TextLength(Capped(m, first)) > 8 && 8 < TextLength(Capped(Capped(m, first), 2500)) <= 2530
    ensures Request(ms) == [Human(Text("")), m]
    ensures PathCaps(ms, config, 1, target) == if first <= 1500 then [first, 2500, 1500] else [first, 2500]
  {
    var long := Text(seq(LONG, i => 'x'));
    var m1 := Capped(m, first);
    var m2 := Capped(m1, 2500);
    ms := TwoTurns(long, m);
    TwoTurnsBoundary(long, m);
    assert ms[2..] == [Human(Text("")), m];
    hide Boundary, Cut;
    assert m1.Tool? && m2.Tool? && m1.content.Text? && m2.content.Text?;
    assert Request(ms) == [Human(Text("")), m];
    hide Capped, Request, TwoTurns, BaseStages, PassTwo, Estimate, TextLength, PathCaps;
    TwoTurnsBase(long, m, config);
    TwoTurnsPassTwo(long, m1);
    TwoTurnsEstimates(long, m, m1, m2);
    target := Some(if first <= 1500 then 0 else Estimate(TwoTurns(long, m2)[1..]));
    LaterPasses(ms, config, 1, target.value);
  }

  lemma StackedCallGrows(first: nat) returns (ms: seq<Message>, config: Config, target: Option<int>)
    requires MarkersStack(first)
    ensures config.maxToolChars == first && !NoResultGrows(ms, config, 1, target)
  {
    config := Config(2, first, _ => "");
    var m := StackedMarkersGrowMore(first);
    CapLength(Capped(m, first), 2500);
    ms, target := TwoTurnsPath(m, first, config);
    var caps := CompressKeepsRequest(ms, config, 1, target);
    hide Capped, CappedBy, PathCaps, Compressed, Request;
    assert CarriedOver(1, Request(ms)[1], Request(Compressed(ms, config, 1, target))[1], caps);
  }

  /** No call lengthens a tool result of the request by more than 23 characters if and only if the configured cap
      avoids those two ranges; the default 4000 does. */
  lemma CompressGrowthIff(first: nat)
    ensures (forall ms, config: Config, iteration, target ::
               config.maxToolChars == first ==> NoResultGrows(ms, config, iteration, target))
            <==> !MarkersStack(first)
  {
    hide NoResultGrows;
    if MarkersStack(first) {
      var ms, config, target := StackedCallGrows(first);
    } else {
      forall ms, config: Config, iteration, target | config.maxToolChars == first
        ensures NoResultGrows(ms, config, iteration, target)
      {
        NoStackNoGrowth(ms, config, iteration, target);
      }
    }
  }
}
