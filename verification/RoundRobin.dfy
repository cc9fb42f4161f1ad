/** The round-robin pool: which order each call returns, and how fair the leads are. */
module RoundRobin {

  /** The pool's models starting at the counter's position and wrapping around. */
  function Rotation(models: seq<string>, counter: nat): seq<string> {
    if models == [] then []
    else
      var idx := Mod(counter, |models|);
      models[idx..] + models[..idx]
  }

  class RoundRobinPool {
    const models: seq<string>
    var counter: nat

    constructor (models: seq<string>)
      ensures this.models == models && counter == 0
    {
      this.models := models;
      counter := 0;
    }

    /** An empty pool returns nothing and does not move its counter. */
    method OrderedModels() returns (order: seq<string>)
      modifies this`counter
      ensures order == Rotation(models, old(counter))
      ensures counter == if models == [] then old(counter) else old(counter) + 1
    {
      var n := |models|;
      if n == 0 { return []; }
      var idx := Mod(counter, n);
      counter := counter + 1;
      hide Mod;
      forall i: nat | i < n
        ensures 0 <= Mod(idx + i, n) < n && Rotation(models, old(counter))[i] == models[Mod(idx + i, n)]
      {
        WrapsOnce(idx, i, n);
      }
      order := seq(n, i requires 0 <= i < n => models[Mod(idx + i, n)]);
    }
  }

  /** Position i of an order holds the model i places after the counter's, wrapping around. */
  lemma RotationAt(models: seq<string>, counter: nat, i: nat)
    requires i < |models|
    ensures |Rotation(models, counter)| == |models|
    ensures Rotation(models, counter)[i] == models[(counter + i) % |models|]
  {
    var n := |models|;
    WrapsOnce(Mod(counter, n), i, n);
    ModShift(counter, i, n);
    assert Mod(counter + i, n) == (counter + i) % n;
    hide Mod;
  }

  // ---------------------------------------------------------- arithmetic

  lemma DivModUnique(x: int, n: int, q: int, r: int)
    requires 0 <= r < n && x == q * n + r
    ensures x / n == q && x % n == r
  {
    var d := x / n - q;
    assert d * n == (x / n) * n - q * n == r - x % n;
    assert d == 0 by {
      assert d >= 1 ==> d * n >= n;
      assert d <= -1 ==> d * n <= -n;
    }
  }

  function Div(x: int, n: nat): int
    requires n > 0
  {
    x / n
  }

  function Mod(x: int, n: nat): int
    requires n > 0
  {
    x % n
  }

  lemma NextDivMod(k: nat, n: nat)
    requires n > 0
    ensures 0 <= Mod(k, n) < n
    ensures Mod(k, n) == n - 1 ==> Div(k + 1, n) == Div(k, n) + 1 && Mod(k + 1, n) == 0
    ensures Mod(k, n) != n - 1 ==> Div(k + 1, n) == Div(k, n) && Mod(k + 1, n) == Mod(k, n) + 1
  {
    var q, r := k / n, k % n;
    if r == n - 1 {
      assert (q + 1) * n == q * n + n;
      DivModUnique(k + 1, n, q + 1, 0);
    } else {
      DivModUnique(k + 1, n, q, r + 1);
    }
  }

  lemma ModShift(x: nat, i: nat, n: nat)
    requires n > 0
    ensures Mod(x + i, n) == Mod(Mod(x, n) + i, n)
  {
    var r := x % n;
    assert x == x / n * n + r && r + i == (r + i) / n * n + (r + i) % n;
    DivModUnique(x + i, n, x / n + (r + i) / n, (r + i) % n);
  }

  lemma CeilDiv(k: nat, n: nat)
    requires n > 0
    ensures Div(k + n - 1, n) == Div(k, n) + if Mod(k, n) == 0 then 0 else 1
  {
    var q, r := k / n, k % n;
    if r == 0 {
      DivModUnique(k + n - 1, n, q, n - 1);
    } else {
      assert (q + 1) * n == q * n + n;
      DivModUnique(k + n - 1, n, q + 1, r - 1);
    }
  }

  lemma WrapsOnce(idx: nat, i: nat, n: nat)
    requires idx < n && i < n
    ensures Mod(idx + i, n) == if idx + i < n then idx + i else idx + i - n
  {
    if idx + i < n {
      DivModUnique(idx + i, n, 0, idx + i);
    } else {
      DivModUnique(idx + i, n, 1, idx + i - n);
    }
  }

  /** Call number k made from counter start leads with position p exactly when k is p's offset modulo n. */
  lemma LeadsAtOffset(start: nat, k: nat, n: nat, p: nat)
    requires p < n
    ensures Mod(start + k, n) == p <==> Mod(k, n) == Mod(p - start, n)
  {
    var q, r := (p - start) / n, (p - start) % n;
    var kq, kr := k / n, k % n;
    if kr == r {
      assert (kq - q) * n == kq * n - q * n;
      DivModUnique(start + k, n, kq - q, p);
    } else if (start + k) % n == p {
      var m := (start + k) / n;
      assert (kq - m) * n == kq * n - m * n;
      DivModUnique(p - start, n, kq - m, kr);
    }
  }

  // ------------------------------------------------------------ fairness

  /** How often position p leads over k successive calls from counter start. */
  function Leads(start: nat, k: nat, n: nat, p: nat): nat
    requires n > 0
  {
    if k == 0 then 0
    else Leads(start, k - 1, n, p) + if Mod(start + (k - 1), n) == p then 1 else 0
  }

  /** The exact share: every full round once, plus once more if the unfinished round reached p. */
  lemma {:induction false} LeadsExactly(start: nat, k: nat, n: nat, p: nat)
    requires p < n
    ensures Leads(start, k, n, p) == Div(k, n) + if Mod(p - start, n) < Mod(k, n) then 1 else 0
  {
    if k == 0 {
      DivModUnique(0, n, 0, 0);
    } else {
      hide Div, Mod;
      LeadsExactly(start, k - 1, n, p);
      LeadsAtOffset(start, k - 1, n, p);
      NextDivMod(k - 1, n);
      OffsetInRange(p - start, n);
    }
  }

  lemma OffsetInRange(x: int, n: nat)
    requires n > 0
    ensures 0 <= Mod(x, n) < n
  {
  }

  /** Hence floor(k/n) or ceil(k/n). */
  lemma LeadsAreFair(start: nat, k: nat, n: nat, p: nat)
    requires p < n
    ensures Div(k, n) <= Leads(start, k, n, p) <= Div(k + n - 1, n)
  {
    hide Div, Mod, Leads;
    LeadsExactly(start, k, n, p);
    CeilDiv(k, n);
    OffsetInRange(k, n);
    OffsetInRange(p - start, n);
  }

  /** Every order is a rotation: the same models, each as often as configured, led by the counter's position. */
  lemma RotationIsPermutation(models: seq<string>, counter: nat)
    ensures multiset(Rotation(models, counter)) == multiset(models)
    ensures models != [] ==> Rotation(models, counter)[0] == models[Mod(counter, |models|)]
  {
    if models != [] {
      var idx := Mod(counter, |models|);
      assert models == models[..idx] + models[idx..];
    }
  }
}
