/** The pydantic records of the profile schema: `SecurityType`, `Holdings`,
    `AnalysisResult` and `UserProfile`, with the field constraints and defaults
    they declare. `Validate` is `UserProfile(**data)`; `Dump` is `model_dump()`. */
module Schemas {
  import opened Wrappers
  import opened Json

  /** The value `profit_target` takes when the input does not supply one. */
  const DefaultProfitTarget: string := "Maximum profit a user can achieve"

  // ---------------------------------------------------------------------------
  // Records
  // ---------------------------------------------------------------------------

  /** The four members of the `str` enum `SecurityType`. */
  datatype SecurityType = Stock | Bond | Etf | Cryptocurrency

  /** One owned position: all four fields are required. */
  datatype Holdings = Holdings(securityType: SecurityType, ticker: string, quantity: real, purchasePrice: real)

  /** The stored profile. `currentHoldings` is a single `Holdings`, not a list. */
  datatype UserProfile = UserProfile(
    riskTolerance: real,
    timeHorizon: real,
    investmentGoal: string,
    profitTarget: string,
    currentHoldings: Holdings)

  /** The structured answer of the analysis agent. */
  datatype AnalysisResult = AnalysisResult(recommendedAction: string, reasoning: string, supportingData: seq<string>)

  /** `quantity` and `purchase_price` are declared with `gt=0.0`. */
  predicate ValidHoldings(h: Holdings) {
    h.quantity > 0.0 && h.purchasePrice > 0.0
  }

  /** `risk_tolerance` lies in the open interval (0, 30), `time_horizon` in (0, 50),
      and the nested holding is valid. */
  predicate ValidProfile(p: UserProfile) {
    && 0.0 < p.riskTolerance < 30.0
    && 0.0 < p.timeHorizon < 50.0
    && ValidHoldings(p.currentHoldings)
  }

  // ---------------------------------------------------------------------------
  // The enum
  // ---------------------------------------------------------------------------

  /** The string value of each enum member. */
  function SecurityTypeValue(t: SecurityType): string {
    match t
    case Stock => "Stock"
    case Bond => "Bond"
    case Etf => "ETF"
    case Cryptocurrency => "Cryptocurrency"
  }

  /** Enum validation: the input string must be one member's value, exactly. */
  function ParseSecurityType(s: string): (r: Option<SecurityType>)
    ensures r.Some? ==> SecurityTypeValue(r.value) == s
    ensures r.None? ==> forall t :: SecurityTypeValue(t) != s
  {
    if s == "Stock" then Some(Stock)
    else if s == "Bond" then Some(Bond)
    else if s == "ETF" then Some(Etf)
    else if s == "Cryptocurrency" then Some(Cryptocurrency)
    else None
  }

  /** Exactly four strings are accepted; the fund kinds the prompts mention are not. */
  lemma SecurityTypeAccepts(s: string)
    ensures ParseSecurityType(s).Some? <==> s in ["Stock", "Bond", "ETF", "Cryptocurrency"]
    ensures ParseSecurityType("Mutual Fund").None? && ParseSecurityType("Index Fund").None?
  {
  }

  // ---------------------------------------------------------------------------
  // What a raw input says about a record (the declarative reading of the schema)
  // ---------------------------------------------------------------------------

  /** Field `key` of `f` is read as the float `x`: a JSON number, or a boolean that
      pydantic's lax mode turns into 1.0 or 0.0. */
  predicate FloatAt(f: map<string, Value>, key: string, x: real) {
    && key in f
    && (|| f[key] == JNumber(x)
        || (f[key] == JBool(true) && x == 1.0)
        || (f[key] == JBool(false) && x == 0.0))
  }

  /** Field `key` of `f` is the string `s`. */
  predicate StringAt(f: map<string, Value>, key: string, s: string) {
    key in f && f[key] == JString(s)
  }

  /** The raw value `v` is an object whose fields give exactly the holding `h`
      (extra keys such as `total_value` or `notes` are ignored). */
  predicate CarriesHoldings(v: Value, h: Holdings) {
    && v.JObject?
    && StringAt(v.fields, "security_type", SecurityTypeValue(h.securityType))
    && StringAt(v.fields, "ticker", h.ticker)
    && FloatAt(v.fields, "quantity", h.quantity)
    && FloatAt(v.fields, "purchase_price", h.purchasePrice)
  }

  /** The raw value `v` is an object whose fields give exactly the profile `p`;
      an absent `profit_target` stands for the default. */
  predicate CarriesProfile(v: Value, p: UserProfile) {
    && v.JObject?
    && FloatAt(v.fields, "risk_tolerance", p.riskTolerance)
    && FloatAt(v.fields, "time_horizon", p.timeHorizon)
    && StringAt(v.fields, "investment_goal", p.investmentGoal)
    && (if "profit_target" in v.fields
        then v.fields["profit_target"] == JString(p.profitTarget)
        else p.profitTarget == DefaultProfitTarget)
    && "current_holdings" in v.fields
    && CarriesHoldings(v.fields["current_holdings"], p.currentHoldings)
  }

  // ---------------------------------------------------------------------------
  // Field readers
  // ---------------------------------------------------------------------------

  /** A `float` field, with the lax bool coercion. */
  function FloatField(f: map<string, Value>, key: string): Option<real> {
    if key !in f then None
    else match f[key]
      case JNumber(n) => Some(n)
      case JBool(b) => Some(if b then 1.0 else 0.0)
      case _ => None
  }

  /** A `str` field. */
  function StringField(f: map<string, Value>, key: string): Option<string> {
    if key in f && f[key].JString? then Some(f[key].s) else None
  }

  /** A `str` field that falls back to `default` when the key is absent;
      a present non-string (`null` included) is an error. */
  function DefaultedStringField(f: map<string, Value>, key: string, default: string): Option<string> {
    if key !in f then Some(default) else StringField(f, key)
  }

  /** A `SecurityType` field. */
  function SecurityTypeField(f: map<string, Value>, key: string): Option<SecurityType> {
    match StringField(f, key)
    case None => None
    case Some(s) => ParseSecurityType(s)
  }

  // ---------------------------------------------------------------------------
  // Validation (pydantic construction) and dumping
  // ---------------------------------------------------------------------------

  /** `Holdings(**v)`: succeeds with a valid holding that `v` carries. */
  function ValidateHoldings(v: Value): (r: Option<Holdings>)
    ensures r.Some? ==> ValidHoldings(r.value) && CarriesHoldings(v, r.value)
  {
    if !v.JObject? then None
    else
      var f := v.fields;
      match (SecurityTypeField(f, "security_type"), StringField(f, "ticker"),
             FloatField(f, "quantity"), FloatField(f, "purchase_price"))
      case (Some(t), Some(ticker), Some(q), Some(price)) =>
        if q > 0.0 && price > 0.0 then Some(Holdings(t, ticker, q, price)) else None
      case _ => None
  }

  /** `UserProfile(**d)`: succeeds with a valid profile that `d` carries, the default
      `profit_target` filled in. A non-object or a falsy value is rejected. */
  function Validate(d: Value): (r: Option<UserProfile>)
    ensures r.Some? ==> ValidProfile(r.value) && CarriesProfile(d, r.value)
    ensures Falsy(d) ==> r.None?
  {
    if !d.JObject? then None
    else
      var f := d.fields;
      match (FloatField(f, "risk_tolerance"), FloatField(f, "time_horizon"),
             StringField(f, "investment_goal"),
             DefaultedStringField(f, "profit_target", DefaultProfitTarget))
      case (Some(risk), Some(horizon), Some(goal), Some(target)) =>
        if !(0.0 < risk < 30.0 && 0.0 < horizon < 50.0) || "current_holdings" !in f then None
        else
          (match ValidateHoldings(f["current_holdings"])
           case None => None
           case Some(h) => Some(UserProfile(risk, horizon, goal, target, h)))
      case _ => None
  }

  /** `Holdings.model_dump()`, the enum member written as its string value. */
  function DumpHoldings(h: Holdings): (v: Value)
    ensures CarriesHoldings(v, h)
  {
    JObject(map[
      "security_type" := JString(SecurityTypeValue(h.securityType)),
      "ticker" := JString(h.ticker),
      "quantity" := JNumber(h.quantity),
      "purchase_price" := JNumber(h.purchasePrice)])
  }

  /** `UserProfile.model_dump()`: every field written out, `profit_target` included. */
  function Dump(p: UserProfile): (v: Value)
    ensures CarriesProfile(v, p)
    ensures v.JObject? && "profit_target" in v.fields && !Falsy(v)
  {
    JObject(map[
      "risk_tolerance" := JNumber(p.riskTolerance),
      "time_horizon" := JNumber(p.timeHorizon),
      "investment_goal" := JString(p.investmentGoal),
      "profit_target" := JString(p.profitTarget),
      "current_holdings" := DumpHoldings(p.currentHoldings)])
  }

  // ---------------------------------------------------------------------------
  // Properties of validation
  // ---------------------------------------------------------------------------

  /** Every valid holding that a raw value carries is exactly what validation returns. */
  lemma ValidateHoldingsComplete(v: Value, h: Holdings)
    requires ValidHoldings(h) && CarriesHoldings(v, h)
    ensures ValidateHoldings(v) == Some(h)
  {
    var f := v.fields;
    assert ParseSecurityType(SecurityTypeValue(h.securityType)) == Some(h.securityType) by {
      match h.securityType
      case Stock =>
      case Bond =>
      case Etf =>
      case Cryptocurrency =>
    }
    assert SecurityTypeField(f, "security_type") == Some(h.securityType);
  }

  /** Validation is complete and deterministic: a valid profile that `d` carries is
      exactly the profile validation returns. */
  lemma ValidateComplete(d: Value, p: UserProfile)
    requires ValidProfile(p) && CarriesProfile(d, p)
    ensures Validate(d) == Some(p)
  {
    ValidateHoldingsComplete(d.fields["current_holdings"], p.currentHoldings);
  }

  /** Dumping a valid profile and validating the dump gives the profile back. */
  lemma DumpRoundTrip(p: UserProfile)
    requires ValidProfile(p)
    ensures Validate(Dump(p)) == Some(p)
  {
    ValidateComplete(Dump(p), p);
  }

  /** Validating the dump of a validated profile yields the same profile. */
  lemma RevalidateDump(d: Value)
    requires Validate(d).Some?
    ensures Validate(Dump(Validate(d).value)) == Validate(d)
  {
    DumpRoundTrip(Validate(d).value);
  }

  /** With every other field acceptable, `risk_tolerance = x` is accepted exactly when
      0 < x < 30: both ends of the interval are rejected. */
  lemma RiskToleranceOpenInterval(f: map<string, Value>, x: real)
    requires Validate(JObject(f)).Some?
    ensures Validate(JObject(f["risk_tolerance" := JNumber(x)])).Some? <==> 0.0 < x < 30.0
  {
    var p := Validate(JObject(f)).value;
    var g := f["risk_tolerance" := JNumber(x)];
    if 0.0 < x < 30.0 {
      var q := p.(riskTolerance := x);
      assert CarriesProfile(JObject(g), q);
      ValidateComplete(JObject(g), q);
    }
  }

  /** With every other field acceptable, `time_horizon = x` is accepted exactly when
      0 < x < 50: both ends of the interval are rejected. */
  lemma TimeHorizonOpenInterval(f: map<string, Value>, x: real)
    requires Validate(JObject(f)).Some?
    ensures Validate(JObject(f["time_horizon" := JNumber(x)])).Some? <==> 0.0 < x < 50.0
  {
    var p := Validate(JObject(f)).value;
    var g := f["time_horizon" := JNumber(x)];
    if 0.0 < x < 50.0 {
      var q := p.(timeHorizon := x);
      assert CarriesProfile(JObject(g), q);
      ValidateComplete(JObject(g), q);
    }
  }

  /** Leaving `profit_target` out fills in the default and changes nothing else;
      a supplied string is kept unchanged. */
  lemma ProfitTargetDefault(f: map<string, Value>, target: string)
    requires Validate(JObject(f)).Some?
    ensures Validate(JObject(f - {"profit_target"}))
         == Some(Validate(JObject(f)).value.(profitTarget := DefaultProfitTarget))
    ensures Validate(JObject(f["profit_target" := JString(target)]))
         == Some(Validate(JObject(f)).value.(profitTarget := target))
  {
    var p := Validate(JObject(f)).value;
    var without := f - {"profit_target"};
    assert CarriesProfile(JObject(without), p.(profitTarget := DefaultProfitTarget));
    ValidateComplete(JObject(without), p.(profitTarget := DefaultProfitTarget));
    var with := f["profit_target" := JString(target)];
    assert CarriesProfile(JObject(with), p.(profitTarget := target));
    ValidateComplete(JObject(with), p.(profitTarget := target));
  }

  /** `current_holdings` must be one holdings object: `null`, a list (the shape the
      prompts describe) or a missing key makes the whole profile invalid. */
  lemma HoldingsRequired(f: map<string, Value>, items: seq<Value>)
    ensures Validate(JObject(f["current_holdings" := JNull])).None?
    ensures Validate(JObject(f["current_holdings" := JArray(items)])).None?
    ensures Validate(JObject(f - {"current_holdings"})).None?
  {
  }

  /** `investment_goal` is required and must be a string. */
  lemma InvestmentGoalRequired(f: map<string, Value>)
    ensures Validate(JObject(f - {"investment_goal"})).None?
    ensures Validate(JObject(f["investment_goal" := JNull])).None?
  {
  }

  /** A holding is accepted only with both `quantity` and `purchase_price` present and
      positive; a holding that gives only `total_value` is rejected. */
  lemma HoldingsNeedQuantityAndPrice(h: map<string, Value>)
    ensures ValidateHoldings(JObject(h)).Some? ==>
              && FloatField(h, "quantity").Some? && FloatField(h, "quantity").value > 0.0
              && FloatField(h, "purchase_price").Some? && FloatField(h, "purchase_price").value > 0.0
    ensures ValidateHoldings(JObject(h - {"quantity"})).None?
    ensures ValidateHoldings(JObject(h - {"purchase_price"})).None?
  {
  }

  /** A holding without value information at all is rejected, as is any holding
      whose `security_type` is not one of the four enum values. */
  lemma HoldingsRejectedShapes(ticker: string, total: real, kind: string)
    requires ParseSecurityType(kind).None?
    ensures ValidateHoldings(JObject(map["security_type" := JString("Stock"), "ticker" := JString(ticker)])).None?
    ensures ValidateHoldings(JObject(map["security_type" := JString("Stock"), "ticker" := JString(ticker),
                                         "total_value" := JNumber(total)])).None?
    ensures forall q: real, price: real ::
              ValidateHoldings(JObject(map["security_type" := JString(kind), "ticker" := JString(ticker),
                                           "quantity" := JNumber(q), "purchase_price" := JNumber(price)])).None?
  {
  }

  // ---------------------------------------------------------------------------
  // AnalysisResult
  // ---------------------------------------------------------------------------

  /** A `list[str]` field's items: every item must be a string. */
  function Strings(items: seq<Value>): (r: Option<seq<string>>)
    ensures r.Some? ==> |r.value| == |items| && forall i :: 0 <= i < |items| ==> items[i] == JString(r.value[i])
    ensures r.None? ==> exists i :: 0 <= i < |items| && !items[i].JString?
  {
    if items == [] then Some([])
    else if !items[0].JString? then None
    else
      match Strings(items[1..])
      case None => None
      case Some(rest) => Some([items[0].s] + rest)
  }

  /** `AnalysisResult(**v)`: three required fields, the third a list of strings. */
  function ValidateAnalysisResult(v: Value): (r: Option<AnalysisResult>)
    ensures r.Some? ==> v.JObject?
                        && StringAt(v.fields, "recommended_action", r.value.recommendedAction)
                        && StringAt(v.fields, "reasoning", r.value.reasoning)
                        && "supporting_data" in v.fields && v.fields["supporting_data"].JArray?
                        && Strings(v.fields["supporting_data"].items) == Some(r.value.supportingData)
  {
    if !v.JObject? then None
    else
      var f := v.fields;
      match (StringField(f, "recommended_action"), StringField(f, "reasoning"))
      case (Some(action), Some(reasoning)) =>
        if "supporting_data" in f && f["supporting_data"].JArray? then
          (match Strings(f["supporting_data"].items)
           case None => None
           case Some(data) => Some(AnalysisResult(action, reasoning, data)))
        else None
      case _ => None
  }

  /** Every object whose `recommended_action` and `reasoning` are strings and whose
      `supporting_data` is an array of strings validates, to exactly those values. */
  lemma ValidateAnalysisResultComplete(v: Value, action: string, reasoning: string, data: seq<string>)
    requires v.JObject?
    requires StringAt(v.fields, "recommended_action", action)
    requires StringAt(v.fields, "reasoning", reasoning)
    requires "supporting_data" in v.fields && v.fields["supporting_data"].JArray?
    requires Strings(v.fields["supporting_data"].items) == Some(data)
    ensures ValidateAnalysisResult(v) == Some(AnalysisResult(action, reasoning, data))
  {
  }

  /** The JSON strings of a list of strings. */
  function StringValues(xs: seq<string>): (vs: seq<Value>)
    ensures |vs| == |xs| && forall i :: 0 <= i < |xs| ==> vs[i] == JString(xs[i])
  {
    seq(|xs|, i requires 0 <= i < |xs| => JString(xs[i]))
  }

  /** `AnalysisResult.model_dump()`. */
  function DumpAnalysisResult(a: AnalysisResult): Value {
    JObject(map[
      "recommended_action" := JString(a.recommendedAction),
      "reasoning" := JString(a.reasoning),
      "supporting_data" := JArray(StringValues(a.supportingData))])
  }

  /** Reading back a list of strings gives the list. */
  lemma {:induction false} StringsRoundTrip(xs: seq<string>)
    ensures Strings(StringValues(xs)) == Some(xs)
  {
    if xs != [] {
      StringsRoundTrip(xs[1..]);
      assert StringValues(xs)[1..] == StringValues(xs[1..]);
      assert [xs[0]] + xs[1..] == xs;
    }
  }

  /** Every analysis result survives dumping and validating again. */
  lemma AnalysisResultRoundTrip(a: AnalysisResult)
    ensures ValidateAnalysisResult(DumpAnalysisResult(a)) == Some(a)
  {
    StringsRoundTrip(a.supportingData);
  }
}
