/** The RealEstate asset: a property bought with a level-payment mortgage, whose value
    follows a sampled return each tick and whose debt is amortised on a fixed schedule. */
module Assets {
  import opened Wrappers
  import opened Numeric

  /** The keyword arguments a RealEstate is built from. `mortgageAmtRemaining` is the
      optional override of the outstanding balance (`None` when it is not given). */
  datatype RealEstateConfig = RealEstateConfig(
    name: string,
    propertyValueInit: real,
    mortgageAmt: real,
    mortgageRate: real,
    mortgageTerm: int,
    returnsType: string,
    returnsParams: map<string, real>,
    mortgageAge: int,
    freq: int,
    mortgageAmtRemaining: Option<real>)

  /** The assertions of the constructor, in the order it checks them. */
  datatype ConfigError =
    | UnsupportedReturnsType(returnsType: string)
    | MissingStd
    | MissingMean

  /** The returns configuration check: only the "normal" distribution is supported,
      and it needs both a standard deviation and a mean. */
  function CheckReturns(c: RealEstateConfig): (r: Option<ConfigError>)
    ensures r == None <==>
      c.returnsType == "normal" && "std" in c.returnsParams && "mean" in c.returnsParams
    ensures r == Some(UnsupportedReturnsType(c.returnsType)) <==> c.returnsType != "normal"
    ensures r == Some(MissingStd) <==> c.returnsType == "normal" && "std" !in c.returnsParams
    ensures r == Some(MissingMean) <==>
      c.returnsType == "normal" && "std" in c.returnsParams && "mean" !in c.returnsParams
  {
    if c.returnsType != "normal" then Some(UnsupportedReturnsType(c.returnsType))
    else if "std" !in c.returnsParams then Some(MissingStd)
    else if "mean" !in c.returnsParams then Some(MissingMean)
    else None
  }

  /** The outstanding balance the mortgage starts from: the override when it is given
      and truthy, otherwise the original amount (Python treats `None` and 0.0 as false). */
  function RemainingBalance(c: RealEstateConfig): (r: real)
    ensures c.mortgageAmtRemaining == None ==> r == c.mortgageAmt
    ensures c.mortgageAmtRemaining == Some(0.0) ==> r == c.mortgageAmt
    ensures c.mortgageAmtRemaining.Some? && c.mortgageAmtRemaining.value != 0.0 ==>
      r == c.mortgageAmtRemaining.value
  {
    match c.mortgageAmtRemaining
    case None => c.mortgageAmt
    case Some(v) => if v == 0.0 then c.mortgageAmt else v
  }

  /** Periodic interest rate `i`. */
  function Rate(c: RealEstateConfig): real
    requires c.freq != 0
  {
    c.mortgageRate / c.freq as real
  }

  /** Number of payments `n`. */
  function Payments(c: RealEstateConfig): int
  {
    c.mortgageTerm * c.freq
  }

  /** The derived fields can be computed: no division by zero in `i`, in `(1+i)**n`
      or in the payment formula's denominator `(1+i)**n - 1`. */
  predicate Derivable(c: RealEstateConfig)
  {
    c.freq != 0 &&
    (0 <= Payments(c) || 1.0 + Rate(c) != 0.0) &&
    IntPow(1.0 + Rate(c), Payments(c)) != 1.0
  }

  /** The level annuity payment for principal `m`, periodic rate `i` and `n` payments:
      `m * i * (1+i)**n / ((1+i)**n - 1)`. */
  function AnnuityPayment(m: real, i: real, n: int): (p: real)
    requires 0 <= n || 1.0 + i != 0.0
    requires IntPow(1.0 + i, n) != 1.0
    ensures p * (IntPow(1.0 + i, n) - 1.0) == m * i * IntPow(1.0 + i, n)
  {
    var g := IntPow(1.0 + i, n);
    m * (i * g) / (g - 1.0)
  }

  /** The payment `p` of the configured mortgage, computed from the original amount. */
  function Payment(c: RealEstateConfig): real
    requires Derivable(c)
  {
    AnnuityPayment(c.mortgageAmt, Rate(c), Payments(c))
  }

  /** The derived loan terms the tick function uses. */
  datatype LoanTerms = LoanTerms(i: real, n: int, p: real)

  function TermsOf(c: RealEstateConfig): LoanTerms
    requires Derivable(c)
  {
    LoanTerms(Rate(c), Payments(c), Payment(c))
  }

  /** The mutable part of a RealEstate. */
  datatype AssetState = AssetState(age: int, assetVal: real, debtVal: real)

  /** What one tick returns: `(asset_val, debt, cashflow)`. */
  datatype Tick = Tick(assetVal: real, debt: real, cashflow: real)

  function InitialState(c: RealEstateConfig): (s: AssetState)
    ensures s.age == 0 && s.assetVal == c.propertyValueInit
    ensures s.debtVal == RemainingBalance(c)
  {
    AssetState(0, c.propertyValueInit, RemainingBalance(c))
  }

  /** One tick of the asset, given the return drawn for it. */
  function Advance(t: LoanTerms, s: AssetState, sample: real): (r: (AssetState, Tick))
    ensures r.0.age == s.age + 1
    ensures r.0.assetVal == (1.0 + sample) * s.assetVal == r.1.assetVal
    ensures 0.0 <= r.1.debt
    ensures r.0.age <= t.n ==>
      r.0.debtVal == s.debtVal * (1.0 + t.i) - t.p &&
      r.1.debt == Max(r.0.debtVal, 0.0) && r.1.cashflow == t.p
    ensures t.n < r.0.age ==>
      r.0.debtVal == s.debtVal && r.1.debt == 0.0 && r.1.cashflow == 0.0
  {
    var age := s.age + 1;
    var assetVal := (1.0 + sample) * s.assetVal;
    if age <= t.n then
      var interest := s.debtVal * t.i;
      var principal := t.p - interest;
      var debtVal := s.debtVal - principal;
      (AssetState(age, assetVal, debtVal), Tick(assetVal, Max(debtVal, 0.0), t.p))
    else
      (AssetState(age, assetVal, s.debtVal), Tick(assetVal, 0.0, 0.0))
  }

  /** The state after a run of ticks, one sample per tick, in order. */
  function Run(t: LoanTerms, s: AssetState, samples: seq<real>): (r: AssetState)
    ensures r.age == s.age + |samples|
    decreases |samples|
  {
    if samples == [] then s
    else Run(t, Advance(t, s, samples[0]).0, samples[1..])
  }

  class RealEstate {
    const name: string
    const propertyValueInit: real
    const mortgageAmt: real
    const mortgageRate: real
    const mortgageTerm: int
    const returnsType: string
    const returnsParams: map<string, real>
    const mortgageAge: int
    const freq: int
    const mortgageAmtRemaining: real
    const i: real
    const n: int
    const p: real

    var age: int
    var assetVal: real
    var debtVal: real

    /** The derived fields are those of the configuration the object was built from. */
    ghost predicate Valid()
    {
      var c := Config();
      CheckReturns(c) == None && Derivable(c) &&
      i == Rate(c) && n == Payments(c) && p == Payment(c)
    }

    /** The constructor arguments, with the remaining balance as filled in. */
    function Config(): RealEstateConfig
    {
      RealEstateConfig(name, propertyValueInit, mortgageAmt, mortgageRate, mortgageTerm,
                       returnsType, returnsParams, mortgageAge, freq, Some(mortgageAmtRemaining))
    }

    function Terms(): LoanTerms
    {
      LoanTerms(i, n, p)
    }

    function State(): AssetState
      reads this
    {
      AssetState(age, assetVal, debtVal)
    }

    /** The object is in the state the constructor leaves for configuration `c`. */
    ghost predicate BuiltFrom(c: RealEstateConfig)
      reads this
    {
      Valid() && Derivable(c) && name == c.name && Terms() == TermsOf(c) && State() == InitialState(c)
    }

    constructor (c: RealEstateConfig)
      requires CheckReturns(c) == None && Derivable(c)
      ensures Valid()
      ensures name == c.name && freq == c.freq && returnsType == c.returnsType
      ensures mortgageAmtRemaining == RemainingBalance(c)
      ensures Terms() == TermsOf(c)
      ensures State() == InitialState(c)
    {
      name := c.name;
      propertyValueInit := c.propertyValueInit;
      mortgageAmt := c.mortgageAmt;
      mortgageRate := c.mortgageRate;
      mortgageTerm := c.mortgageTerm;
      returnsType := c.returnsType;
      returnsParams := c.returnsParams;
      mortgageAge := c.mortgageAge;
      freq := c.freq;
      mortgageAmtRemaining := RemainingBalance(c);
      age := 0;
      assetVal := c.propertyValueInit;
      debtVal := RemainingBalance(c);
      i := Rate(c);
      n := Payments(c);
      p := Payment(c);
      new;
      assert Rate(Config()) == Rate(c) && Payments(Config()) == Payments(c);
    }

    /** Construction with its validation: a rejected configuration is the assertion
        the constructor fails. */
    static method Create(c: RealEstateConfig) returns (r: Result<RealEstate, ConfigError>)
      requires CheckReturns(c) == None ==> Derivable(c)
      ensures r.Failure? <==> CheckReturns(c).Some?
      ensures r.Failure? ==> CheckReturns(c) == Some(r.error)
      ensures r.Success? ==>
        fresh(r.value) && r.value.Valid() && r.value.name == c.name &&
        r.value.Terms() == TermsOf(c) && r.value.State() == InitialState(c)
    {
      var check := CheckReturns(c);
      if check.Some? {
        return Failure(check.value);
      }
      var asset := new RealEstate(c);
      return Success(asset);
    }

    /** One tick: the property value grows by the sampled return and, while payments
        remain, one level payment is split into interest and principal. */
    method NextIter(sample: real) returns (assetValOut: real, debt: real, cashflow: real)
      requires Valid()
      modifies this
      ensures Valid()
      ensures State() == Advance(Terms(), old(State()), sample).0
      ensures Tick(assetValOut, debt, cashflow) == Advance(Terms(), old(State()), sample).1
      ensures age == old(age) + 1 && assetVal == (1.0 + sample) * old(assetVal)
      ensures 0.0 <= debt
      ensures age <= n ==> debtVal == old(debtVal) * (1.0 + i) - p && cashflow == p
      ensures n < age ==> debtVal == old(debtVal) && debt == 0.0 && cashflow == 0.0
    {
      age := age + 1;
      assetVal := (1.0 + sample) * assetVal;
      if age <= n {
        var interestPayment := debtVal * i;
        var principalPayment := p - interestPayment;
        debtVal := debtVal - principalPayment;
        return assetVal, Max(debtVal, 0.0), p;
      } else {
        return assetVal, 0.0, 0.0;
      }
    }
  }
}
