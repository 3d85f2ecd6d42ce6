/** The footprint calculator page: four free-text activity fields, a
    "Calculate Footprint" action that sends them, coerced to numbers, to the
    remote footprint function, and a "Suggest a Portfolio" action that asks
    the remote portfolio builder for credits covering the computed
    emissions. Its four phases are idle, calculating, showing a result and
    building a portfolio. */
module Calculator {
  import opened Wrappers
  import opened Domain

  /** The four activity inputs, by their `name` attribute. */
  datatype Field = ElectricityKwh | PetrolLiters | DieselLiters | DomesticFlightKm

  /** The text of the four inputs, as typed. */
  datatype Activity = Activity(
    electricityKwh: string,
    petrolLiters: string,
    dieselLiters: string,
    domesticFlightKm: string)

  const EmptyActivity := Activity("", "", "", "")

  function Get(a: Activity, f: Field): string
  {
    match f
    case ElectricityKwh => a.electricityKwh
    case PetrolLiters => a.petrolLiters
    case DieselLiters => a.dieselLiters
    case DomesticFlightKm => a.domesticFlightKm
  }

  /** `{...prev, [name]: value}`: the named input takes the new text and the
      other three keep theirs. */
  function Set(a: Activity, f: Field, value: string): (b: Activity)
    ensures Get(b, f) == value
    ensures forall g :: g != f ==> Get(b, g) == Get(a, g)
  {
    match f
    case ElectricityKwh => a.(electricityKwh := value)
    case PetrolLiters => a.(petrolLiters := value)
    case DieselLiters => a.(dieselLiters := value)
    case DomesticFlightKm => a.(domesticFlightKm := value)
  }

  /** Two activities that agree on every field are the same. */
  lemma ActivityExtensional(a: Activity, b: Activity)
    requires forall f :: Get(a, f) == Get(b, f)
    ensures a == b
  {
    assert Get(a, ElectricityKwh) == Get(b, ElectricityKwh);
    assert Get(a, PetrolLiters) == Get(b, PetrolLiters);
    assert Get(a, DieselLiters) == Get(b, DieselLiters);
    assert Get(a, DomesticFlightKm) == Get(b, DomesticFlightKm);
  }

  /** Typing into a field twice keeps only the last text, and writing a
      field's own text back changes nothing. */
  lemma SetLaws(a: Activity, f: Field, v: string, w: string)
    ensures Set(Set(a, f, v), f, w) == Set(a, f, w)
    ensures Set(a, f, Get(a, f)) == a
  {
    ActivityExtensional(Set(Set(a, f, v), f, w), Set(a, f, w));
    ActivityExtensional(Set(a, f, Get(a, f)), a);
  }

  /** `parseFloat(text) || 0`. `parse` stands for `parseFloat`, None for NaN;
      NaN and 0 are both falsy, so either gives 0. */
  function Coerce(parse: string -> Option<real>, text: string): (x: real)
    ensures parse(text).Some? ==> x == parse(text).value
    ensures parse(text).None? ==> x == 0.0
  {
    match parse(text)
    case None => 0.0
    case Some(v) => if v == 0.0 then 0.0 else v
  }

  /** The numbers sent to the footprint function. */
  datatype NumericActivity = NumericActivity(
    electricityKwh: real,
    petrolLiters: real,
    dieselLiters: real,
    domesticFlightKm: real)

  function Numeric(parse: string -> Option<real>, a: Activity): (n: NumericActivity)
    ensures n.electricityKwh == Coerce(parse, Get(a, ElectricityKwh))
    ensures n.petrolLiters == Coerce(parse, Get(a, PetrolLiters))
    ensures n.dieselLiters == Coerce(parse, Get(a, DieselLiters))
    ensures n.domesticFlightKm == Coerce(parse, Get(a, DomesticFlightKm))
  {
    NumericActivity(
      Coerce(parse, a.electricityKwh), Coerce(parse, a.petrolLiters),
      Coerce(parse, a.dieselLiters), Coerce(parse, a.domesticFlightKm))
  }

  /** Untouched inputs are sent as zeros, since `parseFloat("")` is NaN. */
  lemma EmptyInputsSendZeros(parse: string -> Option<real>)
    requires parse("").None?
    ensures Numeric(parse, EmptyActivity) == NumericActivity(0.0, 0.0, 0.0, 0.0)
  {
  }

  /** An input the parser rejects counts as 0 and leaves the others alone. */
  lemma UnparseableFieldIsZero(parse: string -> Option<real>, a: Activity, f: Field, text: string)
    requires parse(text).None?
    ensures Coerce(parse, Get(Set(a, f, text), f)) == 0.0
    ensures forall g :: g != f ==> Coerce(parse, Get(Set(a, f, text), g)) == Coerce(parse, Get(a, g))
  {
  }

  /** The body of the footprint request: `{activityData: {...}}`. */
  function CalculateBody(n: NumericActivity): (j: Json)
    ensures j.JObject? && j.fields.Keys == {"activityData"}
    ensures j.fields["activityData"].JObject?
    ensures j.fields["activityData"].fields == map[
              "electricityKwh" := JNumber(n.electricityKwh),
              "petrolLiters" := JNumber(n.petrolLiters),
              "dieselLiters" := JNumber(n.dieselLiters),
              "domesticFlightKm" := JNumber(n.domesticFlightKm)]
  {
    JObject(map["activityData" := JObject(map[
      "electricityKwh" := JNumber(n.electricityKwh),
      "petrolLiters" := JNumber(n.petrolLiters),
      "dieselLiters" := JNumber(n.dieselLiters),
      "domesticFlightKm" := JNumber(n.domesticFlightKm)])])
  }

  /** The portfolio preferences; the page never edits the goal list. */
  datatype Preferences = Preferences(riskAppetite: RiskAppetite, prioritySdgIds: seq<int>)

  const InitialPreferences := Preferences(Balanced, [])

  /** The body of the portfolio request: the preferences as they stand and
      the computed emissions as the credits to cover. */
  function BuildBody(p: Preferences, requiredCredits: real): (j: Json)
    ensures j.JObject? && j.fields.Keys == {"preferences", "requiredCredits"}
    ensures j.fields["requiredCredits"] == JNumber(requiredCredits)
    ensures j.fields["preferences"] == JObject(map[
              "riskAppetite" := JString(RiskAppetiteName(p.riskAppetite)),
              "prioritySDG_IDs" := IdsJson(p.prioritySdgIds)])
  {
    JObject(map[
      "preferences" := JObject(map[
        "riskAppetite" := JString(RiskAppetiteName(p.riskAppetite)),
        "prioritySDG_IDs" := IdsJson(p.prioritySdgIds)]),
      "requiredCredits" := JNumber(requiredCredits)])
  }

  /** Different preferences or amounts make different requests. */
  lemma BuildBodyInjective(p: Preferences, x: real, q: Preferences, y: real)
    requires BuildBody(p, x) == BuildBody(q, y)
    ensures p == q && x == y
  {
    var jp, jq := BuildBody(p, x).fields["preferences"], BuildBody(q, y).fields["preferences"];
    assert jp.fields["riskAppetite"] == jq.fields["riskAppetite"];
    RiskAppetiteNameInjective(p.riskAppetite, q.riskAppetite);
    var ip, iq := IdsJson(p.prioritySdgIds), IdsJson(q.prioritySdgIds);
    assert ip == jp.fields["prioritySDG_IDs"] == jq.fields["prioritySDG_IDs"] == iq;
    assert forall i :: 0 <= i < |p.prioritySdgIds| ==> ip.items[i] == iq.items[i];
    assert p.prioritySdgIds == q.prioritySdgIds;
  }

  /** One line of a suggested portfolio. */
  datatype Allocation = Allocation(projectId: string, projectName: string, credits: real)

  /** What the portfolio builder answers. */
  datatype Portfolio = Portfolio(items: seq<Allocation>, totalAllocated: real, reason: string)

  datatype Phase = Idle | Calculating | ShowingResult | BuildingPortfolio

  /** Both action buttons are disabled while either request is running. */
  predicate ButtonsEnabled(loading: bool, buildingPortfolio: bool)
  {
    !loading && !buildingPortfolio
  }

  /** The phase the page is in. */
  function PhaseOf(loading: bool, buildingPortfolio: bool, result: Option<real>): (p: Phase)
    ensures p == Calculating <==> loading
    ensures p == BuildingPortfolio <==> !loading && buildingPortfolio
    ensures p == ShowingResult <==> ButtonsEnabled(loading, buildingPortfolio) && result.Some?
    ensures p == Idle <==> ButtonsEnabled(loading, buildingPortfolio) && result.None?
  {
    if loading then Calculating
    else if buildingPortfolio then BuildingPortfolio
    else if result.Some? then ShowingResult
    else Idle
  }

  /** The buttons are enabled exactly in the two resting phases. */
  lemma EnabledExactlyAtRest(loading: bool, buildingPortfolio: bool, result: Option<real>)
    ensures ButtonsEnabled(loading, buildingPortfolio)
            <==> PhaseOf(loading, buildingPortfolio, result) in {Idle, ShowingResult}
  {
  }

  class CarbonCalculator {
    var loading: bool
    var buildingPortfolio: bool
    var result: Option<real>
    var portfolio: Option<Portfolio>
    var activity: Activity
    var preferences: Preferences

    /** What holds whenever the buttons guard the actions: at most one
        request runs, and a portfolio or a portfolio request exists only
        beside a result. */
    predicate Valid()
      reads this
    {
      && !(loading && buildingPortfolio)
      && (buildingPortfolio ==> result.Some?)
      && (portfolio.Some? ==> result.Some?)
    }

    function Phase(): (p: Phase)
      reads this
      ensures p == PhaseOf(loading, buildingPortfolio, result)
    {
      PhaseOf(loading, buildingPortfolio, result)
    }

    constructor ()
      ensures Valid() && Phase() == Idle
      ensures !loading && !buildingPortfolio && result.None? && portfolio.None?
      ensures activity == EmptyActivity && preferences == InitialPreferences
    {
      loading := false;
      buildingPortfolio := false;
      result := None;
      portfolio := None;
      activity := EmptyActivity;
      preferences := InitialPreferences;
    }

    /** `handleInputChange`: only the named field changes. */
    method HandleInputChange(f: Field, value: string)
      modifies this
      requires Valid()
      ensures Valid()
      ensures activity == Set(old(activity), f, value)
      ensures loading == old(loading) && buildingPortfolio == old(buildingPortfolio)
      ensures result == old(result) && portfolio == old(portfolio) && preferences == old(preferences)
    {
      activity := Set(activity, f, value);
    }

    /** The risk-appetite select; the goal list is kept. */
    method SetRiskAppetite(r: RiskAppetite)
      modifies this
      requires Valid()
      ensures Valid()
      ensures preferences == old(preferences).(riskAppetite := r)
      ensures loading == old(loading) && buildingPortfolio == old(buildingPortfolio)
      ensures result == old(result) && portfolio == old(portfolio) && activity == old(activity)
    {
      preferences := preferences.(riskAppetite := r);
    }

    /** `handleCalculate` up to its call: loading, result and portfolio
        cleared; returns the body sent. The button is enabled. */
    method BeginCalculate(parse: string -> Option<real>) returns (body: Json)
      modifies this
      requires Valid() && ButtonsEnabled(loading, buildingPortfolio)
      ensures Valid() && Phase() == Calculating
      ensures loading && !buildingPortfolio && result.None? && portfolio.None?
      ensures activity == old(activity) && preferences == old(preferences)
      ensures body == CalculateBody(Numeric(parse, activity))
    {
      loading := true;
      result := None;
      portfolio := None;
      body := CalculateBody(Numeric(parse, activity));
    }

    /** `handleCalculate` after the footprint function answers: the total
        emissions on success, an alert on error; loading ends. */
    method CompleteCalculate(reply: Result<real>) returns (alert: Option<string>)
      modifies this
      requires Valid() && loading
      ensures Valid() && !loading && !buildingPortfolio
      ensures reply.Ok? ==> result == Some(reply.value) && alert.None?
      ensures reply.Err? ==> result == old(result) && alert == Some("Calculation failed: " + reply.message)
      ensures portfolio == old(portfolio) && activity == old(activity) && preferences == old(preferences)
    {
      if reply.Err? {
        alert := Some("Calculation failed: " + reply.message);
      } else {
        alert := None;
        result := Some(reply.value);
      }
      loading := false;
    }

    /** `handleCalculate` run to completion. */
    method HandleCalculate(parse: string -> Option<real>, reply: Result<real>) returns (body: Json, alert: Option<string>)
      modifies this
      requires Valid() && ButtonsEnabled(loading, buildingPortfolio)
      ensures Valid() && !loading && !buildingPortfolio && portfolio.None?
      ensures body == CalculateBody(Numeric(parse, old(activity)))
      ensures result == (if reply.Ok? then Some(reply.value) else None)
      ensures Phase() == (if reply.Ok? then ShowingResult else Idle)
      ensures alert.Some? <==> reply.Err?
      ensures reply.Err? ==> alert == Some("Calculation failed: " + reply.message)
      ensures activity == old(activity) && preferences == old(preferences)
    {
      body := BeginCalculate(parse);
      alert := CompleteCalculate(reply);
    }

    /** `handleBuildPortfolio` up to its call. With no result it returns at
        once and changes nothing; otherwise the request carries the
        preferences and the result as the credits to cover. */
    method BeginBuild() returns (body: Option<Json>)
      modifies this
      requires Valid() && ButtonsEnabled(loading, buildingPortfolio)
      ensures Valid()
      ensures old(result).None? ==> body.None? && !buildingPortfolio
      ensures old(result).Some? ==> body == Some(BuildBody(preferences, old(result).value)) && buildingPortfolio
      ensures old(result).Some? ==> Phase() == BuildingPortfolio
      ensures loading == old(loading) && result == old(result) && portfolio == old(portfolio)
      ensures activity == old(activity) && preferences == old(preferences)
    {
      if result.None? {
        return None;
      }
      buildingPortfolio := true;
      body := Some(BuildBody(preferences, result.value));
    }

    /** `handleBuildPortfolio` after the builder answers: its portfolio on
        success; on error an alert and the previous portfolio kept. */
    method CompleteBuild(reply: Result<Portfolio>) returns (alert: Option<string>)
      modifies this
      requires Valid() && buildingPortfolio
      ensures Valid() && !buildingPortfolio && !loading
      ensures reply.Ok? ==> portfolio == Some(reply.value) && alert.None?
      ensures reply.Err? ==> portfolio == old(portfolio) && alert == Some("Failed to build portfolio: " + reply.message)
      ensures result == old(result) && activity == old(activity) && preferences == old(preferences)
    {
      if reply.Err? {
        alert := Some("Failed to build portfolio: " + reply.message);
      } else {
        alert := None;
        portfolio := Some(reply.value);
      }
      buildingPortfolio := false;
    }

    /** `handleBuildPortfolio` run to completion. */
    method HandleBuildPortfolio(reply: Result<Portfolio>) returns (body: Option<Json>, alert: Option<string>)
      modifies this
      requires Valid() && ButtonsEnabled(loading, buildingPortfolio)
      ensures Valid() && !loading && !buildingPortfolio
      ensures old(result).None? ==> body.None? && alert.None? && portfolio == old(portfolio)
      ensures old(result).Some? ==> body == Some(BuildBody(old(preferences), old(result).value))
      ensures old(result).Some? && reply.Ok? ==> portfolio == Some(reply.value)
      ensures old(result).Some? && reply.Err? ==> portfolio == old(portfolio)
      ensures old(result).Some? ==> (alert.Some? <==> reply.Err?)
      ensures old(result).Some? && reply.Err? ==> alert == Some("Failed to build portfolio: " + reply.message)
      ensures result == old(result) && activity == old(activity) && preferences == old(preferences)
    {
      body := BeginBuild();
      if body.None? {
        alert := None;
        return;
      }
      alert := CompleteBuild(reply);
    }
  }
}
