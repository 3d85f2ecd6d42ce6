/** An older dashboard page that no route leads to. It makes the same
    matching request as the buyer dashboard but with a different default
    body, and keeps the previous results on screen while a request runs. */
module UnroutedDashboard {
  import opened Wrappers
  import opened Domain
  import BuyerDashboard
  import Routing

  /** The default preferences of this page, keyed `requiredCredits` and
      `prioritySDGs`. */
  function DefaultPreferences(): (j: Json)
    ensures j.JObject?
    ensures j.fields.Keys == {"riskAppetite", "preferredRegion", "requiredCredits", "prioritySDGs"}
    ensures j.fields["riskAppetite"] == JString(RiskAppetiteName(Balanced))
    ensures j.fields["preferredRegion"] == JString("Any")
    ensures j.fields["requiredCredits"] == JNumber(0.0)
    ensures j.fields["prioritySDGs"] == IdsJson([])
  {
    JObject(map[
      "riskAppetite" := JString("Balanced"),
      "preferredRegion" := JString("Any"),
      "requiredCredits" := JNumber(0.0),
      "prioritySDGs" := JArray([])])
  }

  function RequestBody(profile: Option<EsgProfile>): (j: Json)
    ensures j.JObject? && j.fields.Keys == {"preferences"}
    ensures profile.Some? ==> j == BuyerDashboard.RequestBody(profile)
    ensures profile.None? ==> j.fields["preferences"] == DefaultPreferences()
  {
    JObject(map["preferences" := if profile.Some? then ProfileJson(profile.value) else DefaultPreferences()])
  }

  /** The two pages agree on a search with a profile but not on the first
      load: this page's default names neither `minimumCredits` nor
      `prioritySDG_IDs`, the keys the routed page sends. */
  lemma DefaultBodiesDiffer()
    ensures RequestBody(None) != BuyerDashboard.RequestBody(None)
    ensures "minimumCredits" !in DefaultPreferences().fields && "prioritySDG_IDs" !in DefaultPreferences().fields
  {
    var mine := RequestBody(None).fields["preferences"];
    var routed := BuyerDashboard.RequestBody(None).fields["preferences"];
    assert "minimumCredits" in routed.fields;
    assert "minimumCredits" !in mine.fields;
  }

  class Dashboard {
    var projects: seq<Project>
    var loading: bool

    constructor ()
      ensures loading && projects == []
    {
      loading := true;
      projects := [];
    }

    /** Before the request only the loading flag changes: the previous results stay. */
    method BeginFetch()
      modifies this
      ensures loading && projects == old(projects)
    {
      loading := true;
    }

    /** The matcher has answered: its projects, or none and the same alert
        as the routed dashboard after an error. */
    method CompleteFetch(reply: Result<seq<Project>>) returns (alert: Option<string>)
      modifies this
      ensures !loading
      ensures projects == (if reply.Ok? then reply.value else [])
      ensures alert.Some? <==> reply.Err?
      ensures reply.Err? ==> alert == Some(BuyerDashboard.FetchErrorPrefix + reply.message)
    {
      if reply.Err? {
        alert := Some(BuyerDashboard.FetchErrorPrefix + reply.message);
        projects := [];
      } else {
        alert := None;
        projects := reply.value;
      }
      loading := false;
    }

    method FetchProjects(profile: Option<EsgProfile>, reply: Result<seq<Project>>) returns (request: Json, alert: Option<string>)
      modifies this
      ensures request == RequestBody(profile)
      ensures !loading
      ensures projects == (if reply.Ok? then reply.value else [])
      ensures alert.Some? <==> reply.Err?
      ensures reply.Err? ==> alert == Some(BuyerDashboard.FetchErrorPrefix + reply.message)
    {
      BeginFetch();
      request := RequestBody(profile);
      alert := CompleteFetch(reply);
    }

    method Mount(reply: Result<seq<Project>>) returns (request: Json, alert: Option<string>)
      modifies this
      ensures request == RequestBody(None)
      ensures request.fields["preferences"] == DefaultPreferences()
      ensures !loading && projects == (if reply.Ok? then reply.value else [])
      ensures alert.Some? <==> reply.Err?
    {
      request, alert := FetchProjects(None, reply);
    }
  }

  /** A click navigates exactly as on the routed dashboard. */
  function ProjectClickTarget(id: string): (to: string)
    ensures to == Routing.ProjectPath(id)
    ensures id != [] && '/' !in id ==> Routing.MatchPath(to) == Routing.ProjectRoute(id)
  {
    BuyerDashboard.ProjectClickTarget(id)
  }
}
