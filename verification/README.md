# FinancialTwin portfolio simulation, modelled in Dafny

FinancialTwin simulates a portfolio of financial assets over a horizon given in years,
months and days. A `Portfolio` holds its assets as (asset class, keyword parameters)
pairs and an initial cash balance. Its `simulate` call does four things:

- It builds one merged event schedule: each asset ticks every `360/freq` days, and all
  ticks are ordered by (elapsed day, asset index).
- It allocates one `rows x 5` grid per asset name.
- It runs the schedule once per replication on freshly built assets. Each step ticks one
  asset, adds the tick's cash flow to a running balance and writes
  `[replication, elapsed day, asset value, debt, cash]` into the asset's grid row
  `r * sched_length + local_tick`.
- It aborts with an error as soon as the balance is zero or below.

The asset modelled is `RealEstate`. It is a property whose value grows by a sampled return
each tick. It carries a level-payment mortgage: while payments remain, each tick splits the
payment `p = m*i*(1+i)^n / ((1+i)^n - 1)` into interest and principal.

The project has seven modules:

- `Wrappers`: `Option` and `Result`.
- `Numeric`: Python's `int()` truncation and powers over exact reals.
- `Assets`: the `RealEstate` configuration, its validation, the derived loan terms, and the
  class with its in-place `NextIter`. That method is specified by the pure tick function
  `Advance`, and `Run` folds `Advance` over a sequence of returns.
- `Amortization`: the balance after `k` payments in closed form, full amortisation after
  exactly `n` payments, and debt after any run of ticks.
- `Schedule`: `get_total_days`, `get_num_events` and `get_sched`. It covers the merged
  schedule's completeness, distinctness, ordering and uniqueness, and the fact that, for a
  positive frequency, every asset's events keep their own order.
- `Simulation`: `Portfolio.__init__`, a function since the portfolio never changes after
  construction, and `simulate`, written as methods over arrays and fresh `RealEstate`
  objects. They are specified by the ghost function `After`, the state
  of a replication after `j` steps, and by `Outcome`, which says how the call ends.
- `Ledger`: what a replication computes, seen per asset and for the cash balance.
  - Every asset runs through its own returns regardless of how its ticks interleave with
    the others'.
  - The balance is the initial cash plus every mortgage payment made so far.
  - So solvency does not depend on the returns drawn or on the replication.

The random returns are not drawn inside the model. `get_return` becomes a parameter
`draw(r, a, t)`: the return that asset `a` draws in replication `r` when `t` of its ticks
have already happened in that replication (its age before the tick). For a positive
frequency `t` is also the local tick being run.
It is an arbitrary total function, so every property holds for every possible sequence of
draws.

## Model

| member | source | states |
|---|---|---|
| Simulation.NewPortfolio | portfolio.py:6-11 | The constructor succeeds exactly when the assets are a list or a tuple and the initial cash is an int or a float. A non-sequence is rejected first, then non-numeric cash; on success the portfolio keeps the assets and the cash value. |
| Schedule.TotalDays | portfolio.py:18-19 | The horizon is `days + 30*(months + 12*years)` truncated toward zero: it lies within one day below a non-negative total and within one day above a negative one. |
| Schedule.GetNumEvents | portfolio.py:13-16 | The tick length times the frequency is 360 days. For a positive frequency and a non-negative horizon, the event count is the largest number of whole ticks that fit in the horizon; for a negative horizon it is not positive. |
| Schedule.NumEventsBounds | portfolio.py:14-15 | Truncating `total_days / day_len` brackets the horizon between `count` and `count + 1` ticks. |
| Schedule.GetSched | portfolio.py:21-29 | The returned schedule is every asset's events merged and sorted by (elapsed day, asset index), and the lengths are each asset's event count, in asset order. |
| Schedule.SortEntries | portfolio.py:29 | Sorting yields a list ordered by the key that holds exactly the same events, as a multiset. |
| Schedule.InsertSorted | portfolio.py:29 | Inserting an event into an ordered list keeps it ordered. |
| Schedule.UnmergedPlaced | portfolio.py:25-28 | Every event built by the per-asset loop has a known asset, a local tick below that asset's count and the day `(tick+1)*day_len`. |
| Schedule.UnmergedComplete | portfolio.py:25-28 | Every local tick `0 .. count-1` of every asset is among the events built by the loop. |
| Schedule.UnmergedDistinct | portfolio.py:25-28 | The loop lists no event twice, and it builds as many events as the counts add up to, a negative count adding nothing (its `range` is empty). |
| Schedule.MergedPlaced | portfolio.py:21-29 | Every event of the merged schedule belongs to a known asset, at a tick within its count and at that tick's day. |
| Schedule.MergedComplete | portfolio.py:21-29 | Every tick of every asset occurs in the merged schedule. |
| Schedule.MergedDistinct | portfolio.py:21-29 | The merged schedule lists no event twice, and its length is the sum of the event counts, a negative count adding nothing. |
| Schedule.SameAssetDistinctTicks | portfolio.py:28-29 | Two events of one asset never share a local tick, so no two steps of a replication write the same grid row. |
| Schedule.TickOfDay | portfolio.py:28 | Distinct ticks of one asset fall on distinct days. |
| Schedule.SortedPermutationUnique | portfolio.py:29 | When no two events share a key, any two key-ordered arrangements of the same events are equal. |
| Schedule.MergedUniqueKeys | portfolio.py:28-29 | In the merged schedule, an event's (day, asset) key determines the event. |
| Schedule.MergedIsTheSortedOrder | portfolio.py:29 | Any ordering of the events by (elapsed day, asset index) is the merged schedule, so the result does not depend on the sorting algorithm or on its stability. |
| Schedule.OfAssetSort | portfolio.py:29 | Picking one asset's events out of a sorted list gives the same list as sorting that asset's events. |
| Schedule.OfAssetInsert | portfolio.py:29 | Picking one asset's events commutes with inserting into an ordered list. |
| Schedule.OfAssetUnmerged | portfolio.py:25-28 | Picking one asset's events from the loop's output leaves exactly that asset's block of ticks. |
| Schedule.AssetEntriesSorted | portfolio.py:28 | With a positive tick length, one asset's own ticks are already in key order. |
| Schedule.MergedPerAsset | portfolio.py:21-29 | For an asset with a positive frequency, its events in the merged schedule are its ticks `0, 1, ..., count-1`, in that order. |
| Schedule.TickIsCount | portfolio.py:28-29 | For an asset with a positive frequency, an event's local tick equals the number of that asset's events that come before it in the merged schedule. |
| Assets.CheckReturns | assets.py:19-22 | A configuration is accepted exactly when its returns type is "normal" and its parameters hold "std" and "mean". Otherwise the error is the first failing assertion, in the constructor's order: unsupported type, missing std, missing mean. |
| Assets.RemainingBalance | assets.py:24 | An absent or zero override of the outstanding balance falls back to the original mortgage amount; any other override is used as given. |
| Assets.AnnuityPayment | assets.py:30-32 | The payment satisfies the annuity equation `p*((1+i)^n - 1) == m*i*(1+i)^n`. |
| Assets.InitialState | assets.py:23-26 | A new asset has age 0, the initial property value, and the remaining balance as its debt. |
| Assets.Advance | assets.py:34-43 | One tick raises the age by one and multiplies the value by `1 + sample`. While the new age is within the `n` payments, it takes one payment `p` off the debt after adding `i` interest and returns the debt floored at zero and the cash flow `p`. Past the term, the debt is untouched and the tick returns zero debt and zero cash flow. |
| Assets.RealEstate.constructor | assets.py:18-32 | A validated configuration yields an object whose derived `i = rate/freq`, `n = term*freq` and `p` are those of its configuration, at age 0 with the initial value and the remaining balance as debt. |
| Assets.RealEstate.Create | assets.py:18-32 | Construction fails exactly when the returns check fails, with that check's error. Otherwise it gives a fresh, valid object in the configuration's initial state. |
| Assets.RealEstate.NextIter | assets.py:34-43 | The object's new state and the returned (value, debt, cash flow) are those of `Advance` on its old state. The debt returned is never negative. Within the term the debt drops by `p - debt*i` and `p` is paid; past it nothing changes but age and value. |
| Amortization.DebtAfterShift | assets.py:37-40 | One amortising tick followed by `m` more is `m + 1` ticks. |
| Amortization.DebtClosedFormScaled | assets.py:37-40 | After `k` payments, `i` times the balance is `i*d*(1+i)^k - p*((1+i)^k - 1)`. |
| Amortization.DebtClosedForm | assets.py:37-40 | For a nonzero rate, the balance after `k` payments is `d*(1+i)^k - p*((1+i)^k - 1)/i`. |
| Amortization.FullAmortization | assets.py:27-32 | With a non-negative number of payments, the rate is nonzero and the payment formula clears the original amount exactly after the `n`-th payment. |
| Amortization.AmortisingTicks | assets.py:37 | Of the next `k` ticks, at most `k` take a payment: all of them when the term extends past them, none once the age has reached `n`. |
| Amortization.RunDebt | assets.py:34-43 | Whatever returns are drawn, the debt after a run of ticks equals the balance after only the payments that fall within the term. |
| Amortization.PaidOff | assets.py:24-43 | An asset built without a balance override owes exactly zero once it has ticked at least `n` times, whatever its returns. |
| Simulation.FirstConfigError | portfolio.py:38 | Building the assets fails exactly when some configuration fails its check, and the error reported is that of the first such configuration. |
| Simulation.SchedOf | portfolio.py:32 | The schedule `simulate` follows refers only to the portfolio's assets, and every tick lies inside its asset's count. |
| Simulation.RowIndexInGrid | portfolio.py:35-42 | Every (replication, tick) pair lands on a row inside the `sched_length * replications` rows. |
| Simulation.RowIndexInjective | portfolio.py:42 | Two (replication, tick) pairs share a row exactly when they are the same pair. |
| Simulation.OtherCell | portfolio.py:40-47 | A row recorded earlier lies in another asset's array, or at another row of the same array. |
| Simulation.GridStep | portfolio.py:34-35 | Adding the next asset's array extends the grid's keys and shapes by that asset and keeps the earlier arrays. |
| Simulation.AllocateGrid | portfolio.py:33-35 | Allocation fails exactly when some asset's row count `sched_length * replications` is negative. Otherwise every asset name has its own fresh array of that many rows and 5 columns, every cell is zero, and no two assets share an array. |
| Simulation.Instantiate | portfolio.py:38 | Building the assets fails exactly when some configuration is rejected, with the first rejection. Otherwise the objects are fresh and pairwise distinct, one per configuration, each with that configuration's name, terms and initial state. |
| Simulation.RecordRow | portfolio.py:43-47 | One row receives replication, day, value, debt and cash, and every other row of the array is unchanged. |
| Simulation.RecordStep | portfolio.py:42-47 | Step `j` of replication `r` is recorded, and every row recorded before it still holds its contents. |
| Simulation.TickStep | portfolio.py:40-47 | After step `j`, the objects are in the model state after `j+1` steps, the balance is the model balance, and every step so far is recorded. |
| Simulation.RunSteps | portfolio.py:39-49 | A replication completes exactly when its balance stays strictly positive through every step; otherwise it ends with the insolvency error. A completed replication has recorded all its steps. |
| Simulation.RunReplication | portfolio.py:37-49 | A rejected configuration aborts the replication with that error. Otherwise the replication completes exactly when it stays solvent, and then all its steps are recorded. |
| Simulation.Replicate | portfolio.py:36-49 | No replication means no error and no grid cell written. Otherwise the first rejected configuration is reported, and with valid configurations the loop completes exactly when every replication stays solvent. |
| Simulation.Plan | portfolio.py:32 | The schedule and lengths are those of `get_sched` on the assets' frequencies. Every tick lies inside its asset's count, and one asset's events never share a tick. |
| Simulation.Simulate | portfolio.py:31-50 | The call fails exactly when `Outcome` names an error, and with that error: a negative grid size, then a rejected configuration, then a non-positive balance. On success the grid has one correctly shaped fresh array per asset. With no replication to run, every cell is still zero. Otherwise every step of every replication is recorded in its asset's row `r*len + tick`. |
| Simulation.MergedInRange | portfolio.py:32 | The merged schedule of a portfolio refers only to its assets, with every tick inside its asset's count. |
| Ledger.RunSnoc | assets.py:34-43 | A run followed by one more tick is the longer run. |
| Ledger.CountIsOfAsset | portfolio.py:39-42 | The running count of an asset's steps equals the number of its events among the first `j` steps. |
| Ledger.AfterState | portfolio.py:38-41 | After `j` steps, each asset is in the state its own run reaches on the returns of its own ticks, and its age is the number of its own steps so far; the other assets' interleaving plays no part. |
| Ledger.OwnTick | portfolio.py:41-45 | Step `j` records tick `tick + 1` of its asset's own run. The value written is the value after `tick + 1` of that asset's own returns. |
| Ledger.DebtPaidOffInGrid | portfolio.py:45 | A mortgage without a balance override shows zero debt in every grid row from its `n`-th tick on, in every replication and for any returns. |
| Ledger.PaidStep | assets.py:37-41 | An asset's `(k+1)`-th tick pays `p` exactly when it is within the term. |
| Ledger.PaymentsDueStep | portfolio.py:41-46 | A schedule step adds its asset's payment to what is due when its tick is within the term, and nothing otherwise. |
| Ledger.CashStep | portfolio.py:46 | Each step adds to the balance exactly the payment that step makes. |
| Ledger.CashIsPaymentsDue | portfolio.py:37-46 | After `j` steps the balance is the initial cash plus every mortgage payment made so far: the returns drawn play no part. |
| Ledger.CashIndependentOfReturns | portfolio.py:37-46 | Any two replications, with any two ways of drawing returns, hold the same balance after the same number of steps. |
| Ledger.SolventEverywhere | portfolio.py:36-49 | A first replication that never goes insolvent means no replication does. |
| Ledger.SolvencyIndependentOfReturns | portfolio.py:36-49 | Whether `simulate` raises for a non-positive balance depends neither on the returns drawn nor on the number of replications. |
| Ledger.RecordedCashPositive | portfolio.py:46-49 | When `simulate` returns, every cash value recorded in the grids is strictly positive. |

## Left out

- Only `RealEstate` is modelled as an asset. The `CashFlow` asset class that the
  portfolio's demo block uses is not part of this model. Asset classes in general have no
  common interface here, so a portfolio holds `RealEstate` configurations.
- `get_return` draws from numpy's normal distribution. It is replaced by the parameter
  `draw`, which is an arbitrary function of replication, asset and the asset's age before
  the tick. Nothing
  about the distribution (its mean or standard deviation) is modelled.
- Arithmetic is exact over `real`. Floating-point rounding is not modelled, so the exact
  zero debt after `n` payments holds of the model, not of IEEE doubles.
- Simulation.Simulate: the precondition `Runnable` excludes a zero `freq` (the source
  raises ZeroDivisionError), a payment formula whose denominator `(1+i)^n - 1` is zero (the
  source raises ZeroDivisionError), and two assets with one name
  (the source's grid dictionary would keep only the later array).
- Simulation.Simulate: a parameter set without a `freq` key, or a `name` key (a KeyError
  in the source), is not modelled; `freq` defaults to 12 in the source only when
  constructing the asset, and the model takes it from the configuration.
- Schedule.MergedPerAsset and Schedule.TickIsCount (and so Ledger.OwnTick and
  Ledger.DebtPaidOffInGrid): they are stated only for a positive frequency. A negative
  frequency gives a negative tick length. With a non-negative horizon the count is then at
  most zero and the asset has no events. With a negative horizon the count is
  non-negative, and positive once the horizon is at least one tick length in magnitude:
  `freq = -1` gives no events over `-100` days but 2 events over `-720` days, on days
  `-360` and `-720`. The sort then puts tick 1 before tick 0, so an asset's ticks are not in local
  order and the tick-equals-count property fails.
- Simulation.NewPortfolio: `dpm` is the constant 30 rather than a field, since nothing
  changes it.
- Assets.RealEstate.constructor: `mortgage_age` is stored but plays no part in the
  source's computations, and the same holds here. The dataclass ordering and equality
  (`order=True`) are not modelled.
- Simulation.Simulate: the source's default of 1000 replications (portfolio.py:31) is not
  modelled; the count is always passed explicitly.
- Simulation.Instantiate: `asset(**params)` (portfolio.py:38) raises a TypeError for a
  missing or unknown keyword argument. A typed record cannot express either case, so the
  model has no such failure.
- The `__main__` demonstration blocks of both files print and are not modelled.
- Ledger.CashIsPaymentsDue: the balance is the initial cash plus the payments, because
  `simulate` adds the tick's cash flow `p` to the balance (portfolio.py:46). Payments are
  therefore inflows in the model, exactly as the code computes them.
- Assets.Advance: there is no property tax, maintenance fee or final partial payment.
  Within the term the full `p` is paid and only the reported debt is floored at zero
  (assets.py:37-41).
- Simulation.Simulate: the insolvency failure is the source's `ValueError`
  (portfolio.py:48-49), named `Insolvent` here.
