/** The mortgage arithmetic of RealEstate over exact reals: the balance after k level
    payments in closed form, and full amortisation after exactly n payments. */
module Amortization {
  import opened Numeric
  import opened Assets

  /** The balance after `k` amortising ticks from balance `d`, each charging interest
      `d*i` and taking the level payment `p`. */
  function DebtAfter(i: real, p: real, d: real, k: nat): real
  {
    if k == 0 then d else DebtAfter(i, p, d, k - 1) * (1.0 + i) - p
  }

  /** One tick first, then `m` more, is `m + 1` ticks. */
  lemma {:induction false} DebtAfterShift(i: real, p: real, d: real, m: nat)
    ensures DebtAfter(i, p, DebtAfter(i, p, d, 1), m) == DebtAfter(i, p, d, m + 1)
  {
    if m > 0 {
      DebtAfterShift(i, p, d, m - 1);
    }
  }

  /** Closed form of the balance, multiplied through by `i`:
      `i * DebtAfter(k) == i*d*(1+i)^k - p*((1+i)^k - 1)`. */
  lemma {:induction false} DebtClosedFormScaled(i: real, p: real, d: real, k: nat)
    ensures DebtAfter(i, p, d, k) * i == d * Pow(1.0 + i, k) * i - p * (Pow(1.0 + i, k) - 1.0)
  {
    if k > 0 {
      DebtClosedFormScaled(i, p, d, k - 1);
      ScaledStep(i, p, d, DebtAfter(i, p, d, k - 1), DebtAfter(i, p, d, k),
                 Pow(1.0 + i, k - 1), Pow(1.0 + i, k));
    }
  }

  /** The algebra of one tick of the scaled closed form: balance `x` becomes `y` and
      the growth factor `g` becomes `h`. */
  lemma ScaledStep(i: real, p: real, d: real, x: real, y: real, g: real, h: real)
    requires x * i == d * g * i - p * (g - 1.0)
    requires y == x * (1.0 + i) - p && h == (1.0 + i) * g
    ensures y * i == d * h * i - p * (h - 1.0)
  {
    calc {
      y * i;
      (x * i) * (1.0 + i) - p * i;
      (d * g * i - p * (g - 1.0)) * (1.0 + i) - p * i;
      d * ((1.0 + i) * g) * i - p * ((g - 1.0) * (1.0 + i) + i);
      { assert (g - 1.0) * (1.0 + i) + i == (1.0 + i) * g - 1.0; }
      d * h * i - p * (h - 1.0);
    }
  }

  /** Closed form of the balance: `d*(1+i)^k - p*((1+i)^k - 1)/i`. */
  lemma DebtClosedForm(i: real, p: real, d: real, k: nat)
    requires i != 0.0
    ensures DebtAfter(i, p, d, k) == d * Pow(1.0 + i, k) - p * (Pow(1.0 + i, k) - 1.0) / i
  {
    DebtClosedFormScaled(i, p, d, k);
    DivideOut(i, p, d, DebtAfter(i, p, d, k), Pow(1.0 + i, k));
  }

  /** Dividing the scaled closed form through by `i`. */
  lemma DivideOut(i: real, p: real, d: real, x: real, g: real)
    requires i != 0.0 && x * i == d * g * i - p * (g - 1.0)
    ensures x == d * g - p * (g - 1.0) / i
  {
    assert x * i == (d * g - p * (g - 1.0) / i) * i;
  }

  lemma {:induction false} PowOne(k: nat)
    ensures Pow(1.0, k) == 1.0
  {
    if k > 0 {
      PowOne(k - 1);
    }
  }

  /** The algebra of the annuity: a payment `p` with `p*(g-1) == m*i*g` clears
      principal `m` grown by the factor `g`. */
  lemma AnnuityClears(m: real, i: real, g: real, p: real)
    requires i != 0.0 && g != 1.0
    requires p * (g - 1.0) == m * i * g
    ensures m * g - p * (g - 1.0) / i == 0.0
  {
    assert p * (g - 1.0) / i == (m * g) * i / i;
  }

  /** The annuity identity behind the payment formula: starting from the original
      amount, the balance is exactly zero after the `n`-th payment. */
  lemma FullAmortization(c: RealEstateConfig)
    requires Derivable(c) && 0 <= Payments(c)
    ensures Rate(c) != 0.0
    ensures DebtAfter(Rate(c), Payment(c), c.mortgageAmt, Payments(c)) == 0.0
  {
    var i, n, m, p := Rate(c), Payments(c), c.mortgageAmt, Payment(c);
    var g := Pow(1.0 + i, n);
    PowOne(n);
    assert IntPow(1.0 + i, n) == g != 1.0;
    assert i != 0.0;
    assert p * (g - 1.0) == m * i * g;
    DebtClosedForm(i, p, m, n);
    AnnuityClears(m, i, g, p);
  }

  /** How many of the next `k` ticks of an asset now at `age` still take a payment:
      those whose new age is at most `n`. */
  function AmortisingTicks(age: int, k: nat, n: int): (r: nat)
    ensures r <= k
    ensures age + k <= n ==> r == k
    ensures n <= age ==> r == 0
  {
    if n <= age then 0 else MinInt(k, n - age)
  }

  /** Whatever returns are drawn, the balance after a run of ticks is the balance after
      the payments that fall within the term; later ticks leave it alone. */
  lemma {:induction false} RunDebt(t: LoanTerms, s: AssetState, samples: seq<real>)
    ensures Run(t, s, samples).debtVal ==
      DebtAfter(t.i, t.p, s.debtVal, AmortisingTicks(s.age, |samples|, t.n))
    decreases |samples|
  {
    if samples != [] {
      var s' := Advance(t, s, samples[0]).0;
      assert Run(t, s, samples) == Run(t, s', samples[1..]);
      RunDebt(t, s', samples[1..]);
      var m := AmortisingTicks(s'.age, |samples| - 1, t.n);
      if s.age < t.n {
        assert s'.debtVal == DebtAfter(t.i, t.p, s.debtVal, 1);
        assert AmortisingTicks(s.age, |samples|, t.n) == m + 1;
        DebtAfterShift(t.i, t.p, s.debtVal, m);
      } else {
        assert s'.debtVal == s.debtVal;
        assert m == 0 && AmortisingTicks(s.age, |samples|, t.n) == 0;
      }
    }
  }

  /** A RealEstate built without a balance override owes nothing once it has ticked
      at least `n` times, whatever returns its property value has drawn. */
  lemma PaidOff(c: RealEstateConfig, samples: seq<real>)
    requires Derivable(c) && 0 <= Payments(c)
    requires RemainingBalance(c) == c.mortgageAmt
    requires Payments(c) <= |samples|
    ensures Run(TermsOf(c), InitialState(c), samples).debtVal == 0.0
  {
    RunDebt(TermsOf(c), InitialState(c), samples);
    FullAmortization(c);
  }
}
