/** The daily verification run: it reads every project, runs the
    verification its type calls for, and stores one vegetation-index record
    per reforestation project for which the satellite lookup gave a value,
    all stamped with today's date, in a single insert. */
module Pipeline {
  import opened Wrappers
  import opened Calendar

  /** A row of `projects` as the run selects it: `coordinates` and `type`
      may be null. */
  datatype ProjectRow = ProjectRow(
    id: string,
    name: string,
    coordinates: Option<seq<real>>,
    projectType: Option<string>)

  /** A row for `project_ndvi_data`. */
  datatype NdviRecord = NdviRecord(projectId: string, recordedAt: string, ndviValue: real)

  /** The satellite lookup, `get_ndvi_for_project(coordinates, start, end)`:
      the mean index, or None when the request or the computation raised.
      Its NaN result for a window with no usable pixel is not modelled. */
  type NdviLookup = (seq<real>, string, string) -> Option<real>

  /** The verification each type calls for. */
  datatype Verification = NdviCheck | SolarCheck | LandfillGasCheck | NoVerification

  function Dispatch(projectType: string): (v: Verification)
    ensures v == NdviCheck <==> projectType == "Reforestation"
    ensures v == SolarCheck <==> projectType == "Solar"
    ensures v == LandfillGasCheck <==> projectType == "Landfill Gas"
  {
    if projectType == "Reforestation" then NdviCheck
    else if projectType == "Solar" then SolarCheck
    else if projectType == "Landfill Gas" then LandfillGasCheck
    else NoVerification
  }

  /** `not project_coords or not project_type`: null or empty counts as missing. */
  predicate Skipped(p: ProjectRow)
  {
    p.coordinates.None? || p.coordinates.value == [] || p.projectType.None? || p.projectType.value == ""
  }

  /** A project that reaches the vegetation-index lookup. */
  predicate Reforestation(p: ProjectRow)
  {
    !Skipped(p) && p.projectType.value == "Reforestation"
  }

  /** What one project adds to the records. */
  function Contribution(p: ProjectRow, start: string, end: string, ndvi: NdviLookup): (r: seq<NdviRecord>)
    ensures |r| <= 1
    ensures r != [] <==> Reforestation(p) && ndvi(p.coordinates.value, start, end).Some?
    ensures r != [] ==> r[0] == NdviRecord(p.id, end, ndvi(p.coordinates.value, start, end).value)
  {
    if Skipped(p) then []
    else match Dispatch(p.projectType.value)
      case NdviCheck =>
        var v := ndvi(p.coordinates.value, start, end);
        if v.Some? then [NdviRecord(p.id, end, v.value)] else []
      case _ => []
  }

  /** The records of the projects in order. */
  function Collect(ps: seq<ProjectRow>, start: string, end: string, ndvi: NdviLookup): seq<NdviRecord>
  {
    if ps == [] then []
    else Collect(ps[..|ps| - 1], start, end, ndvi) + Contribution(ps[|ps| - 1], start, end, ndvi)
  }

  /** Records follow the order of the projects: those of a prefix come
      before those of the rest. */
  lemma {:induction false} CollectAppend(ps: seq<ProjectRow>, qs: seq<ProjectRow>, start: string, end: string, ndvi: NdviLookup)
    ensures Collect(ps + qs, start, end, ndvi) == Collect(ps, start, end, ndvi) + Collect(qs, start, end, ndvi)
  {
    if qs == [] {
      assert ps + qs == ps;
    } else {
      var n := |qs| - 1;
      var all := ps + qs;
      assert all[..|all| - 1] == ps + qs[..n];
      assert all[|all| - 1] == qs[n];
      CollectAppend(ps, qs[..n], start, end, ndvi);
      var c := Contribution(qs[n], start, end, ndvi);
      assert Collect(all, start, end, ndvi) == Collect(ps + qs[..n], start, end, ndvi) + c;
      assert Collect(qs, start, end, ndvi) == Collect(qs[..n], start, end, ndvi) + c;
    }
  }

  /** Every record carries the run's end date. */
  lemma {:induction false} RecordsStampedWithEnd(ps: seq<ProjectRow>, start: string, end: string, ndvi: NdviLookup)
    ensures forall i :: 0 <= i < |Collect(ps, start, end, ndvi)| ==> Collect(ps, start, end, ndvi)[i].recordedAt == end
  {
    if ps != [] {
      RecordsStampedWithEnd(ps[..|ps| - 1], start, end, ndvi);
    }
  }

  function CountReforestation(ps: seq<ProjectRow>): nat
  {
    if ps == [] then 0
    else CountReforestation(ps[..|ps| - 1]) + (if Reforestation(ps[|ps| - 1]) then 1 else 0)
  }

  /** At most one record per reforestation project; solar, landfill-gas,
      unknown and skipped projects add none. */
  lemma {:induction false} RecordsBound(ps: seq<ProjectRow>, start: string, end: string, ndvi: NdviLookup)
    ensures |Collect(ps, start, end, ndvi)| <= CountReforestation(ps)
  {
    if ps != [] {
      RecordsBound(ps[..|ps| - 1], start, end, ndvi);
    }
  }

  /** Record `r` comes from project `p`. */
  predicate From(r: NdviRecord, p: ProjectRow, start: string, end: string, ndvi: NdviLookup)
  {
    Reforestation(p) && r.projectId == p.id && ndvi(p.coordinates.value, start, end) == Some(r.ndviValue)
  }

  /** Every record is the looked-up value of a reforestation project. */
  lemma {:induction false} RecordsHaveSource(ps: seq<ProjectRow>, start: string, end: string, ndvi: NdviLookup, i: nat)
    requires i < |Collect(ps, start, end, ndvi)|
    ensures exists j :: 0 <= j < |ps| && From(Collect(ps, start, end, ndvi)[i], ps[j], start, end, ndvi)
  {
    var init := ps[..|ps| - 1];
    var prev := Collect(init, start, end, ndvi);
    if i < |prev| {
      RecordsHaveSource(init, start, end, ndvi, i);
      var j :| 0 <= j < |init| && From(prev[i], init[j], start, end, ndvi);
      assert ps[j] == init[j];
    } else {
      assert From(Collect(ps, start, end, ndvi)[i], ps[|ps| - 1], start, end, ndvi);
    }
  }

  /** Conversely, every reforestation project the lookup gives a value for
      contributes its record, stamped with the end date. */
  lemma {:induction false} RecordsComplete(ps: seq<ProjectRow>, start: string, end: string, ndvi: NdviLookup, j: nat)
    requires j < |ps| && Reforestation(ps[j]) && ndvi(ps[j].coordinates.value, start, end).Some?
    ensures NdviRecord(ps[j].id, end, ndvi(ps[j].coordinates.value, start, end).value) in Collect(ps, start, end, ndvi)
  {
    var n := |ps| - 1;
    if j < n {
      var init := ps[..n];
      assert init[j] == ps[j];
      RecordsComplete(init, start, end, ndvi, j);
    }
  }

  /** How a run ends: no projects, an exception caught by the outer
      handler before the insert, or a complete pass. */
  datatype PipelineRun =
    | NoProjects
    | Crashed
    | Ran(startDate: string, endDate: string, records: seq<NdviRecord>, insertIssued: bool)

  /** `run_pipeline`. `fetch` is the project query (Err when it raised,
      Ok(None) for null data); `endClock` and `startClock` are the two
      `datetime.now()` readings; the start date is 30 days before the second
      and raises when that falls before year 1. */
  method RunPipeline(fetch: Result<Option<seq<ProjectRow>>>, endClock: Date, startClock: Date, ndvi: NdviLookup)
    returns (run: PipelineRun)
    requires Valid(endClock) && Valid(startClock)
    ensures fetch.Err? ==> run == Crashed
    ensures fetch.Ok? && (fetch.value.None? || fetch.value.value == []) ==> run == NoProjects
    ensures fetch.Ok? && fetch.value.Some? && fetch.value.value != [] ==>
      match MinusDays(startClock, 30)
      case None => run == Crashed
      case Some(s) =>
        && run.Ran?
        && run.startDate == Format(s)
        && run.endDate == Format(endClock)
        && run.records == Collect(fetch.value.value, Format(s), Format(endClock), ndvi)
    // one insert, issued only when there is something to insert
    ensures run.Ran? ==> (run.insertIssued <==> run.records != [])
  {
    if fetch.Err? {
      return Crashed;
    }
    if fetch.value.None? || fetch.value.value == [] {
      return NoProjects;
    }
    var projects := fetch.value.value;
    var endDate := Format(endClock);
    var startDay := MinusDays(startClock, 30);
    if startDay.None? {
      return Crashed;
    }
    var startDate := Format(startDay.value);
    var records: seq<NdviRecord> := [];
    for i := 0 to |projects|
      invariant records == Collect(projects[..i], startDate, endDate, ndvi)
    {
      var p := projects[i];
      assert projects[..i + 1][..i] == projects[..i];
      if p.coordinates.None? || p.coordinates.value == [] || p.projectType.None? || p.projectType.value == "" {
        continue;
      }
      match Dispatch(p.projectType.value)
      case NdviCheck =>
        var v := ndvi(p.coordinates.value, startDate, endDate);
        if v.Some? {
          records := records + [NdviRecord(p.id, endDate, v.value)];
        }
      case SolarCheck =>
      case LandfillGasCheck =>
      case NoVerification =>
    }
    assert projects[..|projects|] == projects;
    run := Ran(startDate, endDate, records, records != []);
  }

  /** When both clock readings fall on the same day, the window ends on that
      day and starts strictly earlier, and its two ends are distinct strings. */
  lemma WindowPrecedesEnd(today: Date)
    requires Valid(today) && MinusDays(today, 30).Some?
    ensures Before(MinusDays(today, 30).value, today)
    ensures Format(MinusDays(today, 30).value) != Format(today)
  {
    var s := MinusDays(today, 30).value;
    if Format(s) == Format(today) {
      FormatInjective(s, today);
    }
  }
}
