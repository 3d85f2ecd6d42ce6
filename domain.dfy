/** The records the dashboard exchanges with its backend: the shapes of
    `src/types/project.ts`, the account records of the auth layer, and the
    JSON values that request bodies are made of. */
module Domain {

  datatype RiskAppetite = Conservative | Balanced | HighImpact

  function RiskAppetiteName(r: RiskAppetite): string
  {
    match r
    case Conservative => "Conservative"
    case Balanced => "Balanced"
    case HighImpact => "High-Impact"
  }

  /** One point of a project's vegetation-index chart. */
  datatype NdviPoint = NdviPoint(date: string, value: real)

  /** A project as the matching endpoint returns it. */
  datatype Project = Project(
    id: string,
    name: string,
    country: string,
    region: string,
    riskScore: real,
    creditsRemaining: real,
    sdgs: seq<string>,
    description: string,
    latestNdvi: real,
    ndviHistory: seq<NdviPoint>,
    sdgEvidence: map<string, string>)

  /** A buyer's ESG preferences. The SDG priorities are numeric goal ids, as
      the matching form and the dashboard build them. */
  datatype EsgProfile = EsgProfile(
    riskAppetite: RiskAppetite,
    prioritySdgIds: seq<int>,
    preferredRegion: string,
    minimumCredits: int)

  datatype Role = Buyer | Aggregator | PlatformAdmin

  /** The row of the `profiles` table the client reads. */
  datatype Profile = Profile(role: Role)

  datatype User = User(id: string)

  datatype Session = Session(user: User)

  /** JSON values, enough to describe request bodies and their keys. */
  datatype Json =
    | JString(s: string)
    | JNumber(n: real)
    | JArray(items: seq<Json>)
    | JObject(fields: map<string, Json>)

  function IdsJson(ids: seq<int>): (j: Json)
    ensures j.JArray? && |j.items| == |ids|
    ensures forall i :: 0 <= i < |ids| ==> j.items[i] == JNumber(ids[i] as real)
  {
    JArray(seq(|ids|, i requires 0 <= i < |ids| => JNumber(ids[i] as real)))
  }

  /** An `ESGProfile` object as it is serialised into a request body. */
  function ProfileJson(p: EsgProfile): (j: Json)
    ensures j.JObject?
    ensures j.fields.Keys == {"riskAppetite", "prioritySDG_IDs", "preferredRegion", "minimumCredits"}
    ensures j.fields["riskAppetite"] == JString(RiskAppetiteName(p.riskAppetite))
    ensures j.fields["prioritySDG_IDs"] == IdsJson(p.prioritySdgIds)
    ensures j.fields["preferredRegion"] == JString(p.preferredRegion)
    ensures j.fields["minimumCredits"] == JNumber(p.minimumCredits as real)
  {
    JObject(map[
      "riskAppetite" := JString(RiskAppetiteName(p.riskAppetite)),
      "prioritySDG_IDs" := IdsJson(p.prioritySdgIds),
      "preferredRegion" := JString(p.preferredRegion),
      "minimumCredits" := JNumber(p.minimumCredits as real)])
  }

  lemma RiskAppetiteNameInjective(a: RiskAppetite, b: RiskAppetite)
    requires RiskAppetiteName(a) == RiskAppetiteName(b)
    ensures a == b
  {
  }

  /** Serialising a profile loses nothing: equal bodies come from equal profiles. */
  lemma ProfileJsonInjective(p: EsgProfile, q: EsgProfile)
    requires ProfileJson(p) == ProfileJson(q)
    ensures p == q
  {
    var jp, jq := ProfileJson(p), ProfileJson(q);
    assert jp.fields["riskAppetite"] == jq.fields["riskAppetite"];
    RiskAppetiteNameInjective(p.riskAppetite, q.riskAppetite);
    var ip, iq := IdsJson(p.prioritySdgIds), IdsJson(q.prioritySdgIds);
    assert ip == iq;
    assert |p.prioritySdgIds| == |q.prioritySdgIds|;
    forall i | 0 <= i < |p.prioritySdgIds|
      ensures p.prioritySdgIds[i] == q.prioritySdgIds[i]
    {
      assert ip.items[i] == iq.items[i];
    }
    assert jp.fields["minimumCredits"] == jq.fields["minimumCredits"];
  }
}
