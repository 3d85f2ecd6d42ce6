/** The buyer dashboard (the page routed at `/dashboard`): it asks the remote
    matcher for projects, with the form's profile or a default one, shows the
    results, and opens a project's detail page on click. */
module BuyerDashboard {
  import opened Wrappers
  import opened Domain
  import Routing

  /** The preferences sent when no profile is given (the first load). */
  function DefaultPreferences(): (j: Json)
    ensures j.JObject?
    ensures j.fields.Keys == {"riskAppetite", "preferredRegion", "minimumCredits", "prioritySDG_IDs"}
  {
    JObject(map[
      "riskAppetite" := JString("Balanced"),
      "preferredRegion" := JString("Any"),
      "minimumCredits" := JNumber(0.0),
      "prioritySDG_IDs" := JArray([])])
  }

  /** The default is exactly what a Balanced, any-region profile with no
      goals and zero minimum credits serialises to. */
  lemma DefaultIsZeroCreditProfile()
    ensures DefaultPreferences() == ProfileJson(EsgProfile(Balanced, [], "Any", 0))
  {
    var p := EsgProfile(Balanced, [], "Any", 0);
    assert IdsJson([]) == JArray([]);
    assert ProfileJson(p).fields == DefaultPreferences().fields;
  }

  /** The body of the matching request: `{preferences: profile or default}`. */
  function RequestBody(profile: Option<EsgProfile>): (j: Json)
    ensures j.JObject? && j.fields.Keys == {"preferences"}
    ensures profile.Some? ==> j.fields["preferences"] == ProfileJson(profile.value)
    ensures profile.None? ==> j.fields["preferences"] == ProfileJson(EsgProfile(Balanced, [], "Any", 0))
  {
    DefaultIsZeroCreditProfile();
    JObject(map["preferences" := if profile.Some? then ProfileJson(profile.value) else DefaultPreferences()])
  }

  /** Distinct searches send distinct requests. */
  lemma RequestBodyInjective(p: EsgProfile, q: EsgProfile)
    requires RequestBody(Some(p)) == RequestBody(Some(q))
    ensures p == q
  {
    assert RequestBody(Some(p)).fields["preferences"] == RequestBody(Some(q)).fields["preferences"];
    ProfileJsonInjective(p, q);
  }

  /** Where a click on project `id` navigates; the route table maps it back
      to that project's detail page when the id is one path segment. */
  function ProjectClickTarget(id: string): (to: string)
    ensures to == Routing.ProjectPath(id)
    ensures id != [] && '/' !in id ==> Routing.MatchPath(to) == Routing.ProjectRoute(id)
  {
    Routing.ProjectPathSelectsProject(id);
    Routing.ProjectPath(id)
  }

  /** The start of the alert shown when the matching request fails. */
  const FetchErrorPrefix := "Error fetching projects: "

  class Dashboard {
    var projects: seq<Project>
    var loading: bool

    /** The page's first render: loading, no projects. */
    constructor ()
      ensures loading && projects == []
    {
      loading := true;
      projects := [];
    }

    /** Before the request: loading, and the previous results cleared. */
    method BeginFetch()
      modifies this
      ensures loading && projects == []
    {
      loading := true;
      projects := [];
    }

    /** The matcher has answered: its projects, or none and an alert after an error. */
    method CompleteFetch(reply: Result<seq<Project>>) returns (alert: Option<string>)
      modifies this
      ensures !loading
      ensures projects == (if reply.Ok? then reply.value else [])
      ensures alert.Some? <==> reply.Err?
      ensures reply.Err? ==> alert == Some(FetchErrorPrefix + reply.message)
    {
      if reply.Err? {
        alert := Some(FetchErrorPrefix + reply.message);
        projects := [];
      } else {
        alert := None;
        projects := reply.value;
      }
      loading := false;
    }

    /** `fetchProjects` run to completion; returns the request body sent and the alert shown. */
    method FetchProjects(profile: Option<EsgProfile>, reply: Result<seq<Project>>) returns (request: Json, alert: Option<string>)
      modifies this
      ensures request == RequestBody(profile)
      ensures !loading
      ensures projects == (if reply.Ok? then reply.value else [])
      ensures alert.Some? <==> reply.Err?
      ensures reply.Err? ==> alert == Some(FetchErrorPrefix + reply.message)
    {
      BeginFetch();
      request := RequestBody(profile);
      alert := CompleteFetch(reply);
    }

    /** The mount effect: one request with no profile. */
    method Mount(reply: Result<seq<Project>>) returns (request: Json, alert: Option<string>)
      modifies this
      ensures request == RequestBody(None)
      ensures request.fields["preferences"] == DefaultPreferences()
      ensures !loading && projects == (if reply.Ok? then reply.value else [])
      ensures alert.Some? <==> reply.Err?
    {
      request, alert := FetchProjects(None, reply);
    }
  }
}
