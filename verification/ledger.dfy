/** What a replication of `simulate` computes, stated per asset and for the cash balance:
    each asset ticks through its own returns in its own order, the running balance is the
    initial cash plus every mortgage payment due so far, and so whether a run goes insolvent
    depends on neither the returns drawn nor the replication. */
module Ledger {
  import opened Numeric
  import opened Assets
  import opened Amortization
  import opened Schedule
  import opened Simulation

  /** The returns asset `a` draws in replication `r` for its first `k` ticks. */
  function AssetDraws(draw: (int, int, int) -> real, r: int, a: int, k: nat): (d: seq<real>)
    ensures |d| == k
  {
    seq(k, t => draw(r, a, t))
  }

  lemma AssetDrawsSnoc(draw: (int, int, int) -> real, r: int, a: int, k: nat)
    ensures AssetDraws(draw, r, a, k + 1) == AssetDraws(draw, r, a, k) + [draw(r, a, k)]
  {
    var d, e := AssetDraws(draw, r, a, k + 1), AssetDraws(draw, r, a, k) + [draw(r, a, k)];
    forall t | 0 <= t < k + 1
      ensures d[t] == e[t]
    {
    }
  }

  /** A run followed by one more tick is the longer run. */
  lemma {:induction false} RunSnoc(t: LoanTerms, s: AssetState, xs: seq<real>, x: real)
    ensures Run(t, s, xs + [x]) == Advance(t, Run(t, s, xs), x).0
    decreases |xs|
  {
    if xs == [] {
      assert (xs + [x])[1..] == [];
    } else {
      assert (xs + [x])[1..] == xs[1..] + [x];
      RunSnoc(t, Advance(t, s, xs[0]).0, xs[1..], x);
    }
  }

  /** How many of the first `j` steps of the schedule belong to asset `a`. */
  function Count(sched: seq<Entry>, j: int, a: int): nat
    requires 0 <= j <= |sched|
  {
    if j == 0 then 0 else Count(sched, j - 1, a) + (if sched[j - 1].asset == a then 1 else 0)
  }

  /** The count is the number of the asset's own entries among the first `j` steps. */
  lemma {:induction false} CountIsOfAsset(sched: seq<Entry>, j: int, a: int)
    requires 0 <= j <= |sched|
    ensures Count(sched, j, a) == |OfAsset(sched[..j], a)|
  {
    if j > 0 {
      CountIsOfAsset(sched, j - 1, a);
      assert sched[..j] == sched[..j - 1] + [sched[j - 1]];
      OfAssetAppend(sched[..j - 1], [sched[j - 1]], a);
      assert [sched[j - 1]][1..] == [];
    }
  }

  /** After `j` steps of a replication, every asset is in the state its own run reaches on
      the returns drawn for its own ticks: how the other assets' ticks interleave with its
      own does not matter. */
  lemma {:induction false} AfterState(pf: Portfolio, sched: seq<Entry>, draw: (int, int, int) -> real,
                                      r: int, j: int, a: int)
    requires Configured(pf) && InRange(sched, |pf.assets|) && 0 <= j <= |sched| && 0 <= a < |pf.assets|
    ensures After(pf, sched, draw, r, j).states[a] ==
      Run(TermsOf(pf.assets[a]), InitialState(pf.assets[a]), AssetDraws(draw, r, a, Count(sched, j, a)))
    ensures After(pf, sched, draw, r, j).states[a].age == Count(sched, j, a)
  {
    var t, s0 := TermsOf(pf.assets[a]), InitialState(pf.assets[a]);
    if j == 0 {
      assert sched[..0] == [];
    } else {
      AfterState(pf, sched, draw, r, j - 1, a);
      var k := Count(sched, j - 1, a);
      if sched[j - 1].asset == a {
        AssetDrawsSnoc(draw, r, a, k);
        RunSnoc(t, s0, AssetDraws(draw, r, a, k), draw(r, a, k));
      }
    }
  }

  /** Step `j` of a replication records tick number `tick + 1` of its asset's own run: the
      tick is fed the return drawn for local tick `tick`, and the asset value written to the
      grid is the value after `tick + 1` of the asset's own returns. */
  lemma OwnTick(pf: Portfolio, totalDays: int, draw: (int, int, int) -> real, r: int, j: int)
    requires Configured(pf) && 0 <= j < |SchedOf(pf, totalDays)|
    requires 0 < pf.assets[SchedOf(pf, totalDays)[j].asset].freq
    ensures var e := SchedOf(pf, totalDays)[j];
      var t := TermsOf(pf.assets[e.asset]);
      var s0 := InitialState(pf.assets[e.asset]);
      Output(pf, SchedOf(pf, totalDays), draw, r, j) ==
        Advance(t, Run(t, s0, AssetDraws(draw, r, e.asset, e.tick)), draw(r, e.asset, e.tick)).1 &&
      Output(pf, SchedOf(pf, totalDays), draw, r, j).assetVal ==
        Run(t, s0, AssetDraws(draw, r, e.asset, e.tick + 1)).assetVal
  {
    var sched := SchedOf(pf, totalDays);
    var e := sched[j];
    var t, s0 := TermsOf(pf.assets[e.asset]), InitialState(pf.assets[e.asset]);
    assert Freqs(pf)[e.asset] == pf.assets[e.asset].freq;
    TickIsCount(Freqs(pf), totalDays, j);
    CountIsOfAsset(sched, j, e.asset);
    assert e.tick == Count(sched, j, e.asset);
    AfterState(pf, sched, draw, r, j, e.asset);
    AssetDrawsSnoc(draw, r, e.asset, e.tick);
    RunSnoc(t, s0, AssetDraws(draw, r, e.asset, e.tick), draw(r, e.asset, e.tick));
  }

  /** A mortgage taken from its original amount shows a zero debt in every row from its
      `n`-th tick on, whatever returns its property drew. */
  lemma DebtPaidOffInGrid(pf: Portfolio, totalDays: int, draw: (int, int, int) -> real, r: int, j: int)
    requires Configured(pf) && 0 <= j < |SchedOf(pf, totalDays)|
    requires var c := pf.assets[SchedOf(pf, totalDays)[j].asset];
      0 < c.freq && RemainingBalance(c) == c.mortgageAmt &&
      0 <= Payments(c) <= SchedOf(pf, totalDays)[j].tick + 1
    ensures Output(pf, SchedOf(pf, totalDays), draw, r, j).debt == 0.0
  {
    var e := SchedOf(pf, totalDays)[j];
    var c := pf.assets[e.asset];
    var t, s0 := TermsOf(c), InitialState(c);
    OwnTick(pf, totalDays, draw, r, j);
    var before := AssetDraws(draw, r, e.asset, e.tick);
    RunSnoc(t, s0, before, draw(r, e.asset, e.tick));
    AssetDrawsSnoc(draw, r, e.asset, e.tick);
    PaidOff(c, AssetDraws(draw, r, e.asset, e.tick + 1));
  }

  /** The mortgage payments the first `m` assets have made in the first `j` steps: each
      asset pays `p` on each of its ticks up to its `n`-th. */
  function PaymentsDue(pf: Portfolio, sched: seq<Entry>, j: int, m: int): real
    requires Configured(pf) && 0 <= j <= |sched| && 0 <= m <= |pf.assets|
  {
    if m == 0 then 0.0
    else
      PaymentsDue(pf, sched, j, m - 1) + Paid(pf.assets[m - 1], Count(sched, j, m - 1))
  }

  /** What an asset has paid after its first `k` ticks. */
  function Paid(c: RealEstateConfig, k: nat): real
    requires Derivable(c)
  {
    Payment(c) * AmortisingTicks(0, k, Payments(c)) as real
  }

  /** Tick `k + 1` pays `p` exactly when it is within the term. */
  lemma PaidStep(c: RealEstateConfig, k: nat)
    requires Derivable(c)
    ensures Paid(c, k + 1) == Paid(c, k) + (if k + 1 <= Payments(c) then Payment(c) else 0.0)
  {
    var x := AmortisingTicks(0, k, Payments(c));
    if k + 1 <= Payments(c) {
      assert AmortisingTicks(0, k + 1, Payments(c)) == x + 1;
      assert Payment(c) * (x + 1) as real == Payment(c) * x as real + Payment(c);
    } else {
      assert AmortisingTicks(0, k + 1, Payments(c)) == x;
    }
  }

  /** One schedule step adds its asset's payment to what is due if the tick is within the
      mortgage term, and nothing otherwise. */
  lemma {:induction false} PaymentsDueStep(pf: Portfolio, sched: seq<Entry>, j: int, m: int)
    requires Configured(pf) && InRange(sched, |pf.assets|) && 0 <= j < |sched| && 0 <= m <= |pf.assets|
    ensures PaymentsDue(pf, sched, j + 1, m) ==
      PaymentsDue(pf, sched, j, m) + (if sched[j].asset < m then StepDue(pf, sched, j) else 0.0)
  {
    if m > 0 {
      PaymentsDueStep(pf, sched, j, m - 1);
      if sched[j].asset == m - 1 {
        PaidStep(pf.assets[m - 1], Count(sched, j, m - 1));
      }
    }
  }

  /** The payment step `j` makes: `p` when its tick is within its asset's term. */
  function StepDue(pf: Portfolio, sched: seq<Entry>, j: int): real
    requires Configured(pf) && InRange(sched, |pf.assets|) && 0 <= j < |sched|
  {
    var c := pf.assets[sched[j].asset];
    if Count(sched, j, sched[j].asset) + 1 <= Payments(c) then Payment(c) else 0.0
  }

  /** Step `j` adds to the balance exactly the payment it makes. */
  lemma CashStep(pf: Portfolio, sched: seq<Entry>, draw: (int, int, int) -> real, r: int, j: int)
    requires Configured(pf) && InRange(sched, |pf.assets|) && 0 <= j < |sched|
    ensures After(pf, sched, draw, r, j + 1).cash == After(pf, sched, draw, r, j).cash + StepDue(pf, sched, j)
  {
    var a := sched[j].asset;
    var s := After(pf, sched, draw, r, j).states[a];
    var tick := Advance(TermsOf(pf.assets[a]), s, draw(r, a, s.age)).1;
    assert After(pf, sched, draw, r, j + 1).cash == After(pf, sched, draw, r, j).cash + tick.cashflow;
    AfterState(pf, sched, draw, r, j, a);
  }

  /** The running balance after `j` steps is the initial cash plus every payment due so far:
      the payment is added as a positive cash flow, and the returns drawn play no part. */
  lemma {:induction false} CashIsPaymentsDue(pf: Portfolio, sched: seq<Entry>, draw: (int, int, int) -> real,
                                             r: int, j: int)
    requires Configured(pf) && InRange(sched, |pf.assets|) && 0 <= j <= |sched|
    ensures After(pf, sched, draw, r, j).cash == pf.cashInit + PaymentsDue(pf, sched, j, |pf.assets|)
  {
    if j == 0 {
      CashStart(pf, sched, draw, r);
    } else {
      CashIsPaymentsDue(pf, sched, draw, r, j - 1);
      CashDueStep(pf, sched, draw, r, j - 1);
    }
  }

  /** Before the first step the balance is the initial cash and nothing is due. */
  lemma CashStart(pf: Portfolio, sched: seq<Entry>, draw: (int, int, int) -> real, r: int)
    requires Configured(pf) && InRange(sched, |pf.assets|)
    ensures After(pf, sched, draw, r, 0).cash == pf.cashInit + PaymentsDue(pf, sched, 0, |pf.assets|)
  {
    ZeroDue(pf, sched, |pf.assets|);
  }

  /** The balance and the payments due grow by the same amount at step `j`. */
  lemma CashDueStep(pf: Portfolio, sched: seq<Entry>, draw: (int, int, int) -> real, r: int, j: int)
    requires Configured(pf) && InRange(sched, |pf.assets|) && 0 <= j < |sched|
    requires After(pf, sched, draw, r, j).cash == pf.cashInit + PaymentsDue(pf, sched, j, |pf.assets|)
    ensures After(pf, sched, draw, r, j + 1).cash == pf.cashInit + PaymentsDue(pf, sched, j + 1, |pf.assets|)
  {
    CashStep(pf, sched, draw, r, j);
    assert sched[j].asset < |pf.assets|;
    PaymentsDueStep(pf, sched, j, |pf.assets|);
  }

  /** Before the first step nothing is due. */
  lemma {:induction false} ZeroDue(pf: Portfolio, sched: seq<Entry>, m: int)
    requires Configured(pf) && 0 <= m <= |pf.assets|
    ensures PaymentsDue(pf, sched, 0, m) == 0.0
  {
    if m > 0 {
      ZeroDue(pf, sched, m - 1);
      assert sched[..0] == [];
    }
  }

  /** Two replications, with any two ways of drawing returns, hold the same balance after
      the same number of steps. */
  lemma CashIndependentOfReturns(pf: Portfolio, sched: seq<Entry>, draw1: (int, int, int) -> real,
                                 draw2: (int, int, int) -> real, r1: int, r2: int, j: int)
    requires Configured(pf) && InRange(sched, |pf.assets|) && 0 <= j <= |sched|
    ensures After(pf, sched, draw1, r1, j).cash == After(pf, sched, draw2, r2, j).cash
  {
    CashIsPaymentsDue(pf, sched, draw1, r1, j);
    CashIsPaymentsDue(pf, sched, draw2, r2, j);
  }

  /** Whether `simulate` stops on a non-positive balance does not depend on the returns
      drawn nor on how many replications are asked for: either every replication stays
      solvent or the first one already fails. */
  lemma SolvencyIndependentOfReturns(pf: Portfolio, sched: seq<Entry>, draw1: (int, int, int) -> real,
                                     draw2: (int, int, int) -> real, n1: int, n2: int)
    requires Configured(pf) && InRange(sched, |pf.assets|) && 0 < n1 && 0 < n2
    ensures Solvent(pf, sched, draw1, n1) <==> Solvent(pf, sched, draw2, n2)
  {
    if Solvent(pf, sched, draw1, n1) {
      SolventEverywhere(pf, sched, draw1, draw2, n2);
    }
    if Solvent(pf, sched, draw2, n2) {
      SolventEverywhere(pf, sched, draw2, draw1, n1);
    }
  }

  /** A first replication that stays solvent makes every replication solvent. */
  lemma SolventEverywhere(pf: Portfolio, sched: seq<Entry>, draw1: (int, int, int) -> real,
                          draw2: (int, int, int) -> real, n: int)
    requires Configured(pf) && InRange(sched, |pf.assets|)
    requires SolventUpTo(pf, sched, draw1, 0, |sched|)
    ensures Solvent(pf, sched, draw2, n)
  {
    forall r | 0 <= r < n
      ensures SolventUpTo(pf, sched, draw2, r, |sched|)
    {
      forall jj | 0 < jj <= |sched|
        ensures 0.0 < After(pf, sched, draw2, r, jj).cash
      {
        CashIndependentOfReturns(pf, sched, draw1, draw2, 0, r, jj);
      }
    }
  }

  /** When `simulate` returns, every balance it recorded is strictly positive. */
  lemma RecordedCashPositive(pf: Portfolio, sched: seq<Entry>, lens: seq<int>, draw: (int, int, int) -> real,
                             grid: map<string, array2<real>>, replications: int, r: int, j: int)
    requires Configured(pf) && InRange(sched, |pf.assets|) && |lens| == |pf.assets|
    requires Solvent(pf, sched, draw, replications)
    requires 0 <= r < replications && 0 <= j < |sched|
    requires RowHolds(pf, sched, lens, draw, grid, r, j)
    ensures var e := sched[j];
      var g := grid[pf.assets[e.asset].name];
      0.0 < g[RowIndex(r, lens[e.asset], e.tick), 4]
  {
    assert SolventUpTo(pf, sched, draw, r, |sched|);
  }
}
