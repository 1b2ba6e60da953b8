/** The Portfolio engine: construction checks, and `simulate`, which replays the merged
    schedule once per replication with fresh assets, keeps a running cash balance, records
    every step in a per-asset grid, and aborts on the first non-positive balance. */
module Simulation {
  import opened Wrappers
  import opened Numeric
  import opened Assets
  import opened Amortization
  import opened Schedule

  /** A constructed Portfolio: the asset configurations in declaration order and the
      initial cash. Its fields never change after construction. */
  datatype Portfolio = Portfolio(assets: seq<RealEstateConfig>, cashInit: real)

  /** The dynamic type of the `assets` argument. */
  datatype AssetsArg =
    | AssetList(items: seq<RealEstateConfig>)
    | AssetTuple(items: seq<RealEstateConfig>)
    | OtherAssets

  /** The dynamic type of the `cash_init` argument (a bool is neither int nor float here). */
  datatype CashArg = IntCash(whole: int) | FloatCash(amount: real) | OtherCash

  datatype InitError = AssetsNotSequence | CashNotNumeric

  /** Why `simulate` raises: a negative grid size (numpy's ValueError), an asset
      constructor's failed assertion, or the running cash reaching zero or below. */
  datatype SimError = NegativeDimensions | BadConfig(error: ConfigError) | Insolvent

  /** `Portfolio.__init__`: assets must be a list or a tuple, initial cash an int or a float. */
  function NewPortfolio(assets: AssetsArg, cashInit: CashArg): (r: Result<Portfolio, InitError>)
    ensures r.Success? <==> !assets.OtherAssets? && !cashInit.OtherCash?
    ensures assets.OtherAssets? ==> r == Failure(AssetsNotSequence)
    ensures !assets.OtherAssets? && cashInit.OtherCash? ==> r == Failure(CashNotNumeric)
    ensures r.Success? ==> r.value.assets == assets.items
    ensures r.Success? && cashInit.IntCash? ==> r.value.cashInit == cashInit.whole as real
    ensures r.Success? && cashInit.FloatCash? ==> r.value.cashInit == cashInit.amount
  {
    if assets.OtherAssets? then Failure(AssetsNotSequence)
    else match cashInit
      case OtherCash => Failure(CashNotNumeric)
      case IntCash(w) => Success(Portfolio(assets.items, w as real))
      case FloatCash(x) => Success(Portfolio(assets.items, x))
  }

  function Freqs(pf: Portfolio): (r: seq<int>)
    ensures |r| == |pf.assets|
  {
    seq(|pf.assets|, k requires 0 <= k < |pf.assets| => pf.assets[k].freq)
  }

  /** What `simulate` needs of its portfolio: no zero frequency, a computable payment for
      every configuration that passes validation, and distinct asset names. */
  predicate Runnable(pf: Portfolio)
  {
    NonZero(Freqs(pf)) &&
    (forall k :: 0 <= k < |pf.assets| ==> CheckReturns(pf.assets[k]) == None ==> Derivable(pf.assets[k])) &&
    (forall k1, k2 :: 0 <= k1 < k2 < |pf.assets| ==> pf.assets[k1].name != pf.assets[k2].name)
  }

  /** The first configuration the constructor rejects, in declaration order. */
  function FirstConfigError(cs: seq<RealEstateConfig>): (r: Option<ConfigError>)
    ensures r == None <==> forall k :: 0 <= k < |cs| ==> CheckReturns(cs[k]) == None
    ensures r.Some? ==> exists k :: 0 <= k < |cs| && CheckReturns(cs[k]) == r &&
                                     forall i :: 0 <= i < k ==> CheckReturns(cs[i]) == None
  {
    if cs == [] then None
    else if CheckReturns(cs[0]).Some? then CheckReturns(cs[0])
    else
      var r := FirstConfigError(cs[1..]);
      assert forall k :: 0 < k < |cs| ==> cs[k] == cs[1..][k - 1];
      r
  }

  /** Every asset can be built. */
  predicate Configured(pf: Portfolio)
  {
    Runnable(pf) && forall k :: 0 <= k < |pf.assets| ==> CheckReturns(pf.assets[k]) == None
  }

  /** The schedule refers only to the portfolio's assets. */
  predicate InRange(sched: seq<Entry>, n: int)
  {
    forall j :: 0 <= j < |sched| ==> 0 <= sched[j].asset < n
  }

  /** The merged schedule of a portfolio, which refers only to its assets and keeps every
      tick inside its asset's count. */
  function SchedOf(pf: Portfolio, totalDays: int): (s: seq<Entry>)
    requires NonZero(Freqs(pf))
    ensures s == Merged(Freqs(pf), totalDays)
    ensures InRange(s, |pf.assets|)
    ensures forall j :: 0 <= j < |s| ==> 0 <= s[j].tick < Lengths(Freqs(pf), totalDays)[s[j].asset]
  {
    MergedInRange(pf, Merged(Freqs(pf), totalDays), totalDays);
    Merged(Freqs(pf), totalDays)
  }

  /** The state of one replication: every asset's state, and the running cash. */
  datatype RunState = RunState(states: seq<AssetState>, cash: real)

  function Start(pf: Portfolio): (st: RunState)
    ensures |st.states| == |pf.assets| && st.cash == pf.cashInit
  {
    RunState(seq(|pf.assets|, k requires 0 <= k < |pf.assets| => InitialState(pf.assets[k])), pf.cashInit)
  }

  /** One schedule step of replication `r` on asset `a`: it ticks with the return drawn for
      its current age and its cash flow is added to the balance. */
  function Step(pf: Portfolio, draw: (int, int, int) -> real, r: int, a: int, st: RunState): (res: (RunState, Tick))
    requires Configured(pf) && 0 <= a < |pf.assets| && |st.states| == |pf.assets|
    ensures |res.0.states| == |pf.assets|
  {
    var s := st.states[a];
    var (s', tick) := Advance(TermsOf(pf.assets[a]), s, draw(r, a, s.age));
    (RunState(st.states[a := s'], st.cash + tick.cashflow), tick)
  }

  /** The state of replication `r` after its first `j` schedule steps. */
  function After(pf: Portfolio, sched: seq<Entry>, draw: (int, int, int) -> real, r: int, j: int): (st: RunState)
    requires Configured(pf) && InRange(sched, |pf.assets|) && 0 <= j <= |sched|
    ensures |st.states| == |pf.assets|
    decreases j
  {
    if j == 0 then Start(pf)
    else Step(pf, draw, r, sched[j - 1].asset, After(pf, sched, draw, r, j - 1)).0
  }

  /** What step `j` of replication `r` returns from its asset's tick. */
  function Output(pf: Portfolio, sched: seq<Entry>, draw: (int, int, int) -> real, r: int, j: int): Tick
    requires Configured(pf) && InRange(sched, |pf.assets|) && 0 <= j < |sched|
  {
    Step(pf, draw, r, sched[j].asset, After(pf, sched, draw, r, j)).1
  }

  /** The balance stays strictly positive through the first `j` steps of replication `r`. */
  ghost predicate SolventUpTo(pf: Portfolio, sched: seq<Entry>, draw: (int, int, int) -> real, r: int, j: int)
    requires Configured(pf) && InRange(sched, |pf.assets|) && 0 <= j <= |sched|
  {
    forall jj :: 0 < jj <= j ==> 0.0 < After(pf, sched, draw, r, jj).cash
  }

  lemma SolventExtend(pf: Portfolio, sched: seq<Entry>, draw: (int, int, int) -> real, r: int, j: int)
    requires Configured(pf) && InRange(sched, |pf.assets|) && 0 <= j < |sched|
    requires SolventUpTo(pf, sched, draw, r, j) && 0.0 < After(pf, sched, draw, r, j + 1).cash
    ensures SolventUpTo(pf, sched, draw, r, j + 1)
  {
  }

  lemma InsolventAt(pf: Portfolio, sched: seq<Entry>, draw: (int, int, int) -> real, r: int, j: int)
    requires Configured(pf) && InRange(sched, |pf.assets|) && 0 < j <= |sched|
    requires After(pf, sched, draw, r, j).cash <= 0.0
    ensures !SolventUpTo(pf, sched, draw, r, |sched|)
  {
  }

  /** Every balance of the first `replications` replications is strictly positive. */
  ghost predicate Solvent(pf: Portfolio, sched: seq<Entry>, draw: (int, int, int) -> real, replications: int)
    requires Configured(pf) && InRange(sched, |pf.assets|)
  {
    forall r :: 0 <= r < replications ==> SolventUpTo(pf, sched, draw, r, |sched|)
  }

  /** Row `t` of replication `r` in a grid whose replications are `len` rows apart. */
  function RowIndex(r: int, len: int, t: int): int
  {
    r * len + t
  }

  /** Every (replication, tick) pair has its own row, inside the grid. */
  lemma RowIndexInGrid(r: int, t: int, len: int, replications: int)
    requires 0 <= r < replications && 0 <= t < len
    ensures 0 <= RowIndex(r, len, t) < len * replications
  {
    assert r * len + t < r * len + len == (r + 1) * len <= replications * len;
  }

  /** Distinct (replication, tick) pairs never share a row. */
  lemma RowIndexInjective(r1: int, t1: int, r2: int, t2: int, len: int)
    requires 0 <= t1 < len && 0 <= t2 < len
    ensures RowIndex(r1, len, t1) == RowIndex(r2, len, t2) <==> r1 == r2 && t1 == t2
  {
    var d := r1 - r2;
    assert RowIndex(r1, len, t1) - RowIndex(r2, len, t2) == d * len + (t1 - t2);
    MultipleOf(d, len);
  }

  /** A multiple of a positive `len` is zero or at least `len` away from zero. */
  lemma MultipleOf(d: int, len: int)
    requires 0 < len
    ensures d == 0 || len <= d * len || d * len <= -len
  {
    if 0 < d {
      AtLeastOnce(d, len);
    } else if d < 0 {
      AtLeastOnce(-d, len);
      assert (-d) * len == -(d * len);
    }
  }

  lemma {:induction false} AtLeastOnce(d: int, len: int)
    requires 0 < d && 0 < len
    ensures len <= d * len
  {
    if 1 < d {
      AtLeastOnce(d - 1, len);
      assert d * len == (d - 1) * len + len;
    }
  }

  /** The grid holds one fresh `rows x 5` array per asset name, rows being the asset's
      event count times the number of replications. */
  predicate GridShape(pf: Portfolio, lens: seq<int>, replications: int, grid: map<string, array2<real>>)
  {
    |lens| == |pf.assets| &&
    grid.Keys == (set k | 0 <= k < |pf.assets| :: pf.assets[k].name) &&
    (forall k :: 0 <= k < |pf.assets| ==>
      grid[pf.assets[k].name].Length0 == lens[k] * replications &&
      grid[pf.assets[k].name].Length1 == 5) &&
    (forall k1, k2 :: 0 <= k1 < k2 < |pf.assets| ==> grid[pf.assets[k1].name] != grid[pf.assets[k2].name])
  }

  /** Step `j` of replication `r` is recorded in its asset's grid at row
      `r*len + local_tick`: the replication, the elapsed day, the asset value, the debt
      and the running cash after the step. */
  ghost predicate RowHolds(pf: Portfolio, sched: seq<Entry>, lens: seq<int>, draw: (int, int, int) -> real,
                           grid: map<string, array2<real>>, r: int, j: int)
    requires Configured(pf) && InRange(sched, |pf.assets|) && 0 <= j < |sched| && |lens| == |pf.assets|
    reads grid.Values
  {
    var e := sched[j];
    var name := pf.assets[e.asset].name;
    var row := RowIndex(r, lens[e.asset], e.tick);
    var out := Output(pf, sched, draw, r, j);
    name in grid &&
    0 <= row < grid[name].Length0 && grid[name].Length1 == 5 &&
    grid[name][row, 0] == r as real &&
    grid[name][row, 1] == e.day &&
    grid[name][row, 2] == out.assetVal &&
    grid[name][row, 3] == out.debt &&
    grid[name][row, 4] == After(pf, sched, draw, r, j + 1).cash
  }

  /** Every step of the replications before `r`, and the first `j` steps of replication
      `r`, are recorded. */
  ghost predicate Recorded(pf: Portfolio, sched: seq<Entry>, lens: seq<int>, draw: (int, int, int) -> real,
                           grid: map<string, array2<real>>, r: int, j: int)
    requires Configured(pf) && InRange(sched, |pf.assets|) && |lens| == |pf.assets|
    reads grid.Values
  {
    forall rr, jj :: 0 <= rr && 0 <= jj < |sched| && (rr < r || (rr == r && jj < j)) ==>
      RowHolds(pf, sched, lens, draw, grid, rr, jj)
  }

  /** A completed replication is the same as the start of the next one. */
  lemma RecordedNext(pf: Portfolio, sched: seq<Entry>, lens: seq<int>, draw: (int, int, int) -> real,
                     grid: map<string, array2<real>>, r: int)
    requires Configured(pf) && InRange(sched, |pf.assets|) && |lens| == |pf.assets|
    requires Recorded(pf, sched, lens, draw, grid, r, |sched|)
    ensures Recorded(pf, sched, lens, draw, grid, r + 1, 0)
  {
  }

  /** `[asset(**params) for asset, params in self.assets]`: a fresh, distinct RealEstate per
      configuration, or the first configuration error. */
  method Instantiate(assets: seq<RealEstateConfig>) returns (res: Result<seq<RealEstate>, ConfigError>)
    requires forall k :: 0 <= k < |assets| ==> CheckReturns(assets[k]) == None ==> Derivable(assets[k])
    ensures res.Failure? <==> FirstConfigError(assets).Some?
    ensures res.Failure? ==> FirstConfigError(assets) == Some(res.error)
    ensures res.Success? ==> |res.value| == |assets|
    ensures res.Success? ==> forall k :: 0 <= k < |assets| ==>
      fresh(res.value[k]) && res.value[k].BuiltFrom(assets[k])
    ensures res.Success? ==> forall k1, k2 :: 0 <= k1 < k2 < |assets| ==> res.value[k1] != res.value[k2]
  {
    var entities: seq<RealEstate> := [];
    for k := 0 to |assets|
      invariant |entities| == k
      invariant forall i :: 0 <= i < k ==> CheckReturns(assets[i]) == None
      invariant forall i :: 0 <= i < k ==> fresh(entities[i]) && entities[i].BuiltFrom(assets[i])
      invariant forall i1, i2 :: 0 <= i1 < i2 < k ==> entities[i1] != entities[i2]
    {
      var made := RealEstate.Create(assets[k]);
      if made.Failure? {
        return Failure(made.error);
      }
      entities := entities + [made.value];
    }
    return Success(entities);
  }

  /** The grids of the first `k` assets have their shape and are distinct arrays. */
  ghost predicate ShapedUpTo(pf: Portfolio, lens: seq<int>, replications: int, grid: map<string, array2<real>>, k: int)
    requires |lens| == |pf.assets| && 0 <= k <= |pf.assets|
    requires forall i :: 0 <= i < k ==> pf.assets[i].name in grid
  {
    (forall i :: 0 <= i < k ==>
      grid[pf.assets[i].name].Length0 == lens[i] * replications &&
      grid[pf.assets[i].name].Length1 == 5) &&
    (forall i1, i2 :: 0 <= i1 < i2 < k ==> grid[pf.assets[i1].name] != grid[pf.assets[i2].name])
  }

  /** Adding the next asset's grid, an array none of the earlier assets has, extends the
      shape by one asset and keeps the earlier grids. */
  lemma GridStep(pf: Portfolio, lens: seq<int>, replications: int, grid: map<string, array2<real>>, k: int,
                 g: array2<real>)
    requires |lens| == |pf.assets| && 0 <= k < |pf.assets|
    requires forall k1, k2 :: 0 <= k1 < k2 < |pf.assets| ==> pf.assets[k1].name != pf.assets[k2].name
    requires grid.Keys == set i | 0 <= i < k :: pf.assets[i].name
    requires ShapedUpTo(pf, lens, replications, grid, k)
    requires g.Length0 == lens[k] * replications && g.Length1 == 5
    requires forall i :: 0 <= i < k ==> grid[pf.assets[i].name] != g
    ensures var grid' := grid[pf.assets[k].name := g];
      grid'.Keys == (set i | 0 <= i < k + 1 :: pf.assets[i].name) &&
      ShapedUpTo(pf, lens, replications, grid', k + 1) &&
      forall i :: 0 <= i < k ==> grid'[pf.assets[i].name] == grid[pf.assets[i].name]
  {
    var grid' := grid[pf.assets[k].name := g];
    forall i | 0 <= i < k
      ensures grid'[pf.assets[i].name] == grid[pf.assets[i].name]
    {
      assert pf.assets[i].name != pf.assets[k].name;
    }
  }

  /** Every cell of `g` is zero, as `np.zeros` leaves it. */
  ghost predicate AllZero(g: array2<real>)
    reads g
  {
    forall i, c :: 0 <= i < g.Length0 && 0 <= c < g.Length1 ==> g[i, c] == 0.0
  }

  /** The arrays of the assets present in the grid are all zeros. */
  ghost predicate Zeroed(pf: Portfolio, grid: map<string, array2<real>>)
    reads grid.Values
  {
    forall k :: 0 <= k < |pf.assets| && pf.assets[k].name in grid ==> AllZero(grid[pf.assets[k].name])
  }

  /** The arrays of the first `k` assets are all zeros. */
  ghost predicate ZeroedUpTo(pf: Portfolio, grid: map<string, array2<real>>, k: int)
    requires 0 <= k <= |pf.assets|
    requires forall i :: 0 <= i < k ==> pf.assets[i].name in grid
    reads grid.Values
  {
    forall i :: 0 <= i < k ==> AllZero(grid[pf.assets[i].name])
  }

  /** Adding a zero array for the next asset keeps the grid zeroed. */
  lemma ZeroStep(pf: Portfolio, grid: map<string, array2<real>>, k: int, g: array2<real>)
    requires 0 <= k < |pf.assets|
    requires forall k1, k2 :: 0 <= k1 < k2 < |pf.assets| ==> pf.assets[k1].name != pf.assets[k2].name
    requires forall i :: 0 <= i < k ==> pf.assets[i].name in grid
    requires ZeroedUpTo(pf, grid, k) && AllZero(g)
    ensures ZeroedUpTo(pf, grid[pf.assets[k].name := g], k + 1)
  {
    var grid' := grid[pf.assets[k].name := g];
    forall i | 0 <= i < k
      ensures AllZero(grid'[pf.assets[i].name])
    {
      assert pf.assets[i].name != pf.assets[k].name;
    }
  }

  /** Storing `g` under a name adds `g` to the arrays of the grid and nothing else. */
  lemma UpdateValues(grid: map<string, array2<real>>, name: string, g: array2<real>)
    ensures grid[name := g].Values <= grid.Values + {g}
  {
    forall v | v in grid[name := g].Values
      ensures v in grid.Values + {g}
    {
      var key :| key in grid[name := g] && grid[name := g][key] == v;
      if key != name {
        assert grid[key] == v;
      }
    }
  }

  /** Every grid has a row count numpy accepts. */
  predicate Allocatable(lens: seq<int>, replications: int)
  {
    forall k :: 0 <= k < |lens| ==> 0 <= lens[k] * replications
  }

  /** The grid after the allocation loop has handled the first `k` assets: their names are
      its keys, their row counts were accepted, and their arrays have their shape, are
      distinct and are all zeros. */
  ghost predicate Building(pf: Portfolio, lens: seq<int>, replications: int, grid: map<string, array2<real>>, k: int)
    requires |lens| == |pf.assets| && 0 <= k <= |pf.assets|
    reads grid.Values
  {
    grid.Keys == (set i | 0 <= i < k :: pf.assets[i].name) &&
    (forall i :: 0 <= i < k ==> 0 <= lens[i] * replications) &&
    ShapedUpTo(pf, lens, replications, grid, k) &&
    ZeroedUpTo(pf, grid, k)
  }

  /** One more zero array of the right shape, not yet in the grid, extends the loop's work
      by one asset. */
  lemma BuildStep(pf: Portfolio, lens: seq<int>, replications: int, grid: map<string, array2<real>>, k: int,
                  g: array2<real>)
    requires |lens| == |pf.assets| && 0 <= k < |pf.assets|
    requires forall k1, k2 :: 0 <= k1 < k2 < |pf.assets| ==> pf.assets[k1].name != pf.assets[k2].name
    requires Building(pf, lens, replications, grid, k)
    requires 0 <= lens[k] * replications && g.Length0 == lens[k] * replications && g.Length1 == 5
    requires AllZero(g) && g !in grid.Values
    ensures Building(pf, lens, replications, grid[pf.assets[k].name := g], k + 1)
    ensures grid[pf.assets[k].name := g].Values <= grid.Values + {g}
  {
    forall i | 0 <= i < k
      ensures grid[pf.assets[i].name] != g
    {
      assert grid[pf.assets[i].name] in grid.Values;
    }
    GridStep(pf, lens, replications, grid, k, g);
    ZeroStep(pf, grid, k, g);
    UpdateValues(grid, pf.assets[k].name, g);
  }

  /** When the loop has handled every asset, the grid has its shape and is all zeros, and
      every row count was accepted. */
  lemma BuildDone(pf: Portfolio, lens: seq<int>, replications: int, grid: map<string, array2<real>>)
    requires |lens| == |pf.assets|
    requires Building(pf, lens, replications, grid, |pf.assets|)
    ensures GridShape(pf, lens, replications, grid) && Zeroed(pf, grid) && Allocatable(lens, replications)
  {
  }

  /** How `simulate` ends, in the order its failures can happen: a grid of negative size
      before any replication, then (from the first replication on) a rejected
      configuration, then the first balance that is not positive. */
  ghost function Outcome(pf: Portfolio, totalDays: int, replications: int, draw: (int, int, int) -> real)
    : Option<SimError>
    requires Runnable(pf)
  {
    if !Allocatable(Lengths(Freqs(pf), totalDays), replications) then Some(NegativeDimensions)
    else if replications <= 0 then None
    else if FirstConfigError(pf.assets).Some? then Some(BadConfig(FirstConfigError(pf.assets).value))
    else if Solvent(pf, SchedOf(pf, totalDays), draw, replications) then None
    else Some(Insolvent)
  }

  /** The grids of `simulate`: one zero `rows x 5` array per asset, allocated in declaration
      order; numpy refuses a negative row count. */
  method AllocateGrid(pf: Portfolio, lens: seq<int>, replications: int)
    returns (res: Option<map<string, array2<real>>>)
    requires |lens| == |pf.assets|
    requires forall k1, k2 :: 0 <= k1 < k2 < |pf.assets| ==> pf.assets[k1].name != pf.assets[k2].name
    ensures res.None? <==> !Allocatable(lens, replications)
    ensures res.Some? ==> GridShape(pf, lens, replications, res.value)
    ensures res.Some? ==> forall g :: g in res.value.Values ==> fresh(g)
    ensures res.Some? ==> Zeroed(pf, res.value)
  {
    var grid: map<string, array2<real>> := map[];
    for k := 0 to |pf.assets|
      invariant Building(pf, lens, replications, grid, k)
      invariant forall g :: g in grid.Values ==> fresh(g)
    {
      var rows := lens[k] * replications;
      if rows < 0 {
        return None;
      }
      var g := new real[rows, 5]((_, _) => 0.0);
      BuildStep(pf, lens, replications, grid, k, g);
      grid := grid[pf.assets[k].name := g];
    }
    BuildDone(pf, lens, replications, grid);
    return Some(grid);
  }

  /** Step `j` of replication `r` writes its row; every row recorded before it keeps its
      contents, because other assets own other arrays and the same asset's other steps
      own other rows. */
  method RecordStep(pf: Portfolio, sched: seq<Entry>, lens: seq<int>, draw: (int, int, int) -> real,
                    grid: map<string, array2<real>>, replications: int, r: int, j: int,
                    out: Tick, cash: real)
    requires Configured(pf) && InRange(sched, |pf.assets|) && GridShape(pf, lens, replications, grid)
    requires forall jj :: 0 <= jj < |sched| ==> 0 <= sched[jj].tick < lens[sched[jj].asset]
    requires forall j1, j2 :: 0 <= j1 < j2 < |sched| && sched[j1].asset == sched[j2].asset ==>
      sched[j1].tick != sched[j2].tick
    requires 0 <= r < replications && 0 <= j < |sched|
    requires out == Output(pf, sched, draw, r, j) && cash == After(pf, sched, draw, r, j + 1).cash
    requires Recorded(pf, sched, lens, draw, grid, r, j)
    modifies grid.Values
    ensures Recorded(pf, sched, lens, draw, grid, r, j + 1)
  {
    var a := sched[j].asset;
    var g := grid[pf.assets[a].name];
    RowIndexInGrid(r, sched[j].tick, lens[a], replications);
    var idx := RowIndex(r, lens[a], sched[j].tick);
    RecordRow(g, idx, r as real, sched[j].day, out.assetVal, out.debt, cash);
    forall rr, jj | 0 <= rr && 0 <= jj < |sched| && (rr < r || (rr == r && jj < j))
      ensures RowHolds(pf, sched, lens, draw, grid, rr, jj)
    {
      assert old(RowHolds(pf, sched, lens, draw, grid, rr, jj));
      OtherCell(pf, sched, lens, grid, replications, r, j, rr, jj);
    }
  }

  /** A row recorded before step `j` of replication `r` lies in another array, or in the
      same array at another row index. */
  lemma OtherCell(pf: Portfolio, sched: seq<Entry>, lens: seq<int>, grid: map<string, array2<real>>,
                  replications: int, r: int, j: int, rr: int, jj: int)
    requires InRange(sched, |pf.assets|) && GridShape(pf, lens, replications, grid)
    requires forall j1 :: 0 <= j1 < |sched| ==> 0 <= sched[j1].tick < lens[sched[j1].asset]
    requires forall j1, j2 :: 0 <= j1 < j2 < |sched| && sched[j1].asset == sched[j2].asset ==>
      sched[j1].tick != sched[j2].tick
    requires 0 <= j < |sched| && 0 <= rr && 0 <= jj < |sched| && (rr < r || (rr == r && jj < j))
    ensures var a, b := sched[j].asset, sched[jj].asset;
      grid[pf.assets[b].name] != grid[pf.assets[a].name] ||
      RowIndex(rr, lens[b], sched[jj].tick) != RowIndex(r, lens[a], sched[j].tick)
  {
    var a, b := sched[j].asset, sched[jj].asset;
    if a == b {
      RowIndexInjective(rr, sched[jj].tick, r, sched[j].tick, lens[a]);
    } else if a < b {
      assert grid[pf.assets[a].name] != grid[pf.assets[b].name];
    } else {
      assert grid[pf.assets[b].name] != grid[pf.assets[a].name];
    }
  }

  /** The objects of a replication hold the model state after its first `j` steps. */
  ghost predicate Mirrors(pf: Portfolio, sched: seq<Entry>, draw: (int, int, int) -> real, r: int, j: int,
                          entities: seq<RealEstate>)
    requires Configured(pf) && InRange(sched, |pf.assets|) && 0 <= j <= |sched| && |entities| == |pf.assets|
    reads set k | 0 <= k < |entities| :: entities[k]
  {
    forall k :: 0 <= k < |pf.assets| ==> entities[k].State() == After(pf, sched, draw, r, j).states[k]
  }

  /** Step `j` of replication `r`: the scheduled asset ticks with the return drawn for its
      age, its cash flow is added to the balance and the step is recorded. */
  method TickStep(pf: Portfolio, sched: seq<Entry>, lens: seq<int>, draw: (int, int, int) -> real,
                  grid: map<string, array2<real>>, replications: int, r: int, j: int,
                  entities: seq<RealEstate>, cash: real)
    returns (cash': real)
    requires Configured(pf) && InRange(sched, |pf.assets|) && GridShape(pf, lens, replications, grid)
    requires forall jj :: 0 <= jj < |sched| ==> 0 <= sched[jj].tick < lens[sched[jj].asset]
    requires forall j1, j2 :: 0 <= j1 < j2 < |sched| && sched[j1].asset == sched[j2].asset ==>
      sched[j1].tick != sched[j2].tick
    requires 0 <= r < replications && 0 <= j < |sched|
    requires |entities| == |pf.assets|
    requires forall k :: 0 <= k < |pf.assets| ==>
      entities[k].Valid() && entities[k].Terms() == TermsOf(pf.assets[k])
    requires forall k1, k2 :: 0 <= k1 < k2 < |entities| ==> entities[k1] != entities[k2]
    requires cash == After(pf, sched, draw, r, j).cash
    requires Mirrors(pf, sched, draw, r, j, entities)
    requires Recorded(pf, sched, lens, draw, grid, r, j)
    modifies entities[sched[j].asset], grid.Values
    ensures cash' == After(pf, sched, draw, r, j + 1).cash
    ensures Mirrors(pf, sched, draw, r, j + 1, entities)
    ensures Recorded(pf, sched, lens, draw, grid, r, j + 1)
  {
    var a := sched[j].asset;
    var entity := entities[a];
    ghost var before := After(pf, sched, draw, r, j);
    ghost var sample := draw(r, a, before.states[a].age);
    var assetVal, debtVal, cashflow := entity.NextIter(draw(r, a, entity.age));
    ghost var after := Advance(TermsOf(pf.assets[a]), before.states[a], sample);
    assert After(pf, sched, draw, r, j + 1) == RunState(before.states[a := after.0], before.cash + after.1.cashflow);
    assert Tick(assetVal, debtVal, cashflow) == after.1 == Output(pf, sched, draw, r, j);
    cash' := cash + cashflow;
    RecordStep(pf, sched, lens, draw, grid, replications, r, j, Tick(assetVal, debtVal, cashflow), cash');
  }

  /** The steps of one replication on its fresh assets: every schedule step is ticked and
      recorded until the balance is no longer positive. */
  method RunSteps(pf: Portfolio, sched: seq<Entry>, lens: seq<int>, draw: (int, int, int) -> real,
                  grid: map<string, array2<real>>, replications: int, r: int, entities: seq<RealEstate>)
    returns (outcome: Option<SimError>)
    requires Configured(pf) && InRange(sched, |pf.assets|) && GridShape(pf, lens, replications, grid)
    requires forall jj :: 0 <= jj < |sched| ==> 0 <= sched[jj].tick < lens[sched[jj].asset]
    requires forall j1, j2 :: 0 <= j1 < j2 < |sched| && sched[j1].asset == sched[j2].asset ==>
      sched[j1].tick != sched[j2].tick
    requires 0 <= r < replications
    requires |entities| == |pf.assets|
    requires forall k :: 0 <= k < |pf.assets| ==>
      entities[k].Valid() && entities[k].Terms() == TermsOf(pf.assets[k]) &&
      entities[k].State() == InitialState(pf.assets[k])
    requires forall k1, k2 :: 0 <= k1 < k2 < |entities| ==> entities[k1] != entities[k2]
    requires Recorded(pf, sched, lens, draw, grid, r, 0)
    modifies set k | 0 <= k < |entities| :: entities[k]
    modifies grid.Values
    ensures outcome == None <==> SolventUpTo(pf, sched, draw, r, |sched|)
    ensures outcome != None ==> outcome == Some(Insolvent)
    ensures outcome == None ==> Recorded(pf, sched, lens, draw, grid, r + 1, 0)
  {
    var cash := pf.cashInit;
    for j := 0 to |sched|
      invariant cash == After(pf, sched, draw, r, j).cash
      invariant Mirrors(pf, sched, draw, r, j, entities)
      invariant Recorded(pf, sched, lens, draw, grid, r, j)
      invariant SolventUpTo(pf, sched, draw, r, j)
    {
      cash := TickStep(pf, sched, lens, draw, grid, replications, r, j, entities, cash);
      if cash <= 0.0 {
        InsolventAt(pf, sched, draw, r, j + 1);
        return Some(Insolvent);
      }
      SolventExtend(pf, sched, draw, r, j);
    }
    RecordedNext(pf, sched, lens, draw, grid, r);
    return None;
  }

  /** One replication: fresh assets, the running balance from the initial cash, and every
      schedule step ticked and recorded until the balance is no longer positive. */
  method RunReplication(pf: Portfolio, sched: seq<Entry>, lens: seq<int>, draw: (int, int, int) -> real,
                        grid: map<string, array2<real>>, replications: int, r: int)
    returns (outcome: Option<SimError>)
    requires Runnable(pf) && InRange(sched, |pf.assets|) && GridShape(pf, lens, replications, grid)
    requires forall jj :: 0 <= jj < |sched| ==> 0 <= sched[jj].tick < lens[sched[jj].asset]
    requires forall j1, j2 :: 0 <= j1 < j2 < |sched| && sched[j1].asset == sched[j2].asset ==>
      sched[j1].tick != sched[j2].tick
    requires 0 <= r < replications
    requires Configured(pf) ==> Recorded(pf, sched, lens, draw, grid, r, 0)
    modifies grid.Values
    ensures FirstConfigError(pf.assets).Some? ==> outcome == Some(BadConfig(FirstConfigError(pf.assets).value))
    ensures FirstConfigError(pf.assets) == None ==>
      Configured(pf) &&
      (outcome == None <==> SolventUpTo(pf, sched, draw, r, |sched|)) &&
      (outcome != None ==> outcome == Some(Insolvent))
    ensures outcome == None ==> Configured(pf) && Recorded(pf, sched, lens, draw, grid, r + 1, 0)
  {
    var made := Instantiate(pf.assets);
    if made.Failure? {
      return Some(BadConfig(made.error));
    }
    assert Configured(pf);
    outcome := RunSteps(pf, sched, lens, draw, grid, replications, r, made.value);
  }

  /** `simulate`: builds the merged schedule and one zero grid per asset, then runs every
      replication on fresh assets; a grid of negative size, a rejected configuration and a
      non-positive running balance each abort the whole call. */
  method Simulate(pf: Portfolio, years: real, months: real, days: real, replications: int,
                  draw: (int, int, int) -> real)
    returns (res: Result<map<string, array2<real>>, SimError>)
    requires Runnable(pf)
    ensures res.Failure? <==> Outcome(pf, TotalDays(days, months, years), replications, draw).Some?
    ensures res.Failure? ==> res.error == Outcome(pf, TotalDays(days, months, years), replications, draw).value
    ensures res.Success? ==>
      GridShape(pf, Lengths(Freqs(pf), TotalDays(days, months, years)), replications, res.value) &&
      forall g :: g in res.value.Values ==> fresh(g)
    ensures res.Success? && replications <= 0 ==> Zeroed(pf, res.value)
    ensures res.Success? && 0 < replications ==>
      Configured(pf) &&
      var totalDays := TotalDays(days, months, years);
      forall r, j :: 0 <= r < replications && 0 <= j < |SchedOf(pf, totalDays)| ==>
        RowHolds(pf, SchedOf(pf, totalDays), Lengths(Freqs(pf), totalDays), draw, res.value, r, j)
  {
    var sched, schedLengths := Plan(pf, years, months, days);
    var grids := AllocateGrid(pf, schedLengths, replications);
    if grids.None? {
      return Failure(NegativeDimensions);
    }
    var grid := grids.value;
    var outcome := Replicate(pf, sched, schedLengths, draw, grid, replications);
    if outcome.Some? {
      return Failure(outcome.value);
    }
    if 0 < replications {
      RecordedAll(pf, sched, schedLengths, draw, grid, replications);
    }
    return Success(grid);
  }

  /** The schedule `simulate` follows, from `get_sched` over the assets' parameters. */
  method Plan(pf: Portfolio, years: real, months: real, days: real) returns (sched: seq<Entry>, lens: seq<int>)
    requires NonZero(Freqs(pf))
    ensures sched == SchedOf(pf, TotalDays(days, months, years))
    ensures lens == Lengths(Freqs(pf), TotalDays(days, months, years)) && |lens| == |pf.assets|
    ensures InRange(sched, |pf.assets|)
    ensures forall jj :: 0 <= jj < |sched| ==> 0 <= sched[jj].tick < lens[sched[jj].asset]
    ensures forall j1, j2 :: 0 <= j1 < j2 < |sched| && sched[j1].asset == sched[j2].asset ==>
      sched[j1].tick != sched[j2].tick
  {
    var totalDays := TotalDays(days, months, years);
    sched, lens := GetSched(Freqs(pf), years, months, days);
    assert sched == SchedOf(pf, totalDays);
    forall j1, j2 | 0 <= j1 < j2 < |sched| && sched[j1].asset == sched[j2].asset
      ensures sched[j1].tick != sched[j2].tick
    {
      SameAssetDistinctTicks(Freqs(pf), totalDays, j1, j2);
    }
  }

  /** The replication loop of `simulate`: the first failing replication aborts the rest. */
  method Replicate(pf: Portfolio, sched: seq<Entry>, lens: seq<int>, draw: (int, int, int) -> real,
                   grid: map<string, array2<real>>, replications: int)
    returns (outcome: Option<SimError>)
    requires Runnable(pf) && InRange(sched, |pf.assets|) && GridShape(pf, lens, replications, grid)
    requires forall jj :: 0 <= jj < |sched| ==> 0 <= sched[jj].tick < lens[sched[jj].asset]
    requires forall j1, j2 :: 0 <= j1 < j2 < |sched| && sched[j1].asset == sched[j2].asset ==>
      sched[j1].tick != sched[j2].tick
    modifies grid.Values
    ensures replications <= 0 ==> outcome == None && unchanged(grid.Values)
    ensures 0 < replications && FirstConfigError(pf.assets).Some? ==>
      outcome == Some(BadConfig(FirstConfigError(pf.assets).value))
    ensures 0 < replications && FirstConfigError(pf.assets) == None ==>
      Configured(pf) &&
      (outcome == None <==> Solvent(pf, sched, draw, replications)) &&
      (outcome != None ==> outcome == Some(Insolvent))
    ensures 0 < replications && outcome == None ==>
      Configured(pf) && Recorded(pf, sched, lens, draw, grid, replications, 0)
  {
    var r := 0;
    while r < replications
      invariant 0 < r ==> r <= replications && Configured(pf)
      invariant 0 < r ==> Recorded(pf, sched, lens, draw, grid, r, 0)
      invariant 0 < r ==> forall rr :: 0 <= rr < r ==> SolventUpTo(pf, sched, draw, rr, |sched|)
      invariant r == 0 ==> unchanged(grid.Values)
    {
      outcome := RunReplication(pf, sched, lens, draw, grid, replications, r);
      if outcome.Some? {
        return;
      }
      r := r + 1;
    }
    return None;
  }

  /** A grid recorded through every replication holds every step of every replication. */
  lemma RecordedAll(pf: Portfolio, sched: seq<Entry>, lens: seq<int>, draw: (int, int, int) -> real,
                    grid: map<string, array2<real>>, replications: int)
    requires Configured(pf) && InRange(sched, |pf.assets|) && |lens| == |pf.assets|
    requires Recorded(pf, sched, lens, draw, grid, replications, 0)
    ensures forall r, j :: 0 <= r < replications && 0 <= j < |sched| ==> RowHolds(pf, sched, lens, draw, grid, r, j)
  {
  }

  /** One row of a grid: `[r, elapsed_day, asset_val, debt_val, cash]`; no other row changes. */
  method RecordRow(g: array2<real>, row: int, rep: real, day: real, assetVal: real, debt: real, cash: real)
    requires 0 <= row < g.Length0 && g.Length1 == 5
    modifies g
    ensures g[row, 0] == rep && g[row, 1] == day && g[row, 2] == assetVal
    ensures g[row, 3] == debt && g[row, 4] == cash
    ensures forall i, c :: 0 <= i < g.Length0 && 0 <= c < g.Length1 && i != row ==> g[i, c] == old(g[i, c])
  {
    g[row, 0] := rep;
    g[row, 1] := day;
    g[row, 2], g[row, 3] := assetVal, debt;
    g[row, 4] := cash;
  }

  /** The merged schedule of a portfolio refers only to its assets, with ticks inside each
      asset's count, and one asset's events never share a tick. */
  lemma MergedInRange(pf: Portfolio, sched: seq<Entry>, totalDays: int)
    requires NonZero(Freqs(pf)) && sched == Merged(Freqs(pf), totalDays)
    ensures InRange(sched, |pf.assets|)
    ensures forall j :: 0 <= j < |sched| ==> 0 <= sched[j].tick < Lengths(Freqs(pf), totalDays)[sched[j].asset]
  {
    MergedPlaced(Freqs(pf), totalDays);
    forall j | 0 <= j < |sched|
      ensures 0 <= sched[j].asset < |pf.assets|
      ensures 0 <= sched[j].tick < Lengths(Freqs(pf), totalDays)[sched[j].asset]
    {
      assert sched[j] in sched;
      assert Placed(Freqs(pf), totalDays, sched[j]);
    }
  }
}
