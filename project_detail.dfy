/** The project detail page: three lookups for one project id (the project
    row, its NDVI history in date order, its SDG evidence joined with the
    goal names) merged into one view model, with defaults for missing data,
    and a "not found" state when the project itself cannot be read. */
module ProjectDetail {
  import opened Wrappers
  import opened Domain
  import Text
  import ProjectCard

  /** A row of the `projects` table; a null description is None. */
  datatype ProjectRow = ProjectRow(
    id: string,
    name: string,
    country: string,
    region: string,
    riskScore: real,
    totalCreditsRemaining: real,
    description: Option<string>)

  /** A row of `project_ndvi_data`; a null value is None. */
  datatype NdviRow = NdviRow(recordedAt: string, ndviValue: Option<real>)

  /** The goal joined to an evidence row, absent when the join found none. */
  datatype Goal = Goal(id: int, name: string)

  /** A row of `project_sdgs` with its joined goal. */
  datatype SdgRow = SdgRow(evidenceText: string, goal: Option<Goal>)

  /** A query's `{data, error}` pair. */
  datatype Response<+T> = Response(data: Option<T>, error: Option<string>)

  /** The three answers `Promise.all` delivers. */
  datatype Replies = Replies(
    project: Response<ProjectRow>,
    ndvi: Response<seq<NdviRow>>,
    sdgs: Response<seq<SdgRow>>)

  datatype DetailedProject = DetailedProject(
    id: string,
    name: string,
    country: string,
    region: string,
    riskScore: real,
    latestNdvi: real,
    creditsRemaining: real,
    description: string,
    ndviHistory: seq<NdviPoint>,
    sdgEvidence: map<string, string>)

  const NoDescription := "No description available."

  /** `projectData.description || "No description available."` */
  function DescriptionOrDefault(d: Option<string>): (s: string)
    ensures d.Some? && d.value != "" ==> s == d.value
    ensures d.None? || d.value == "" ==> s == NoDescription
  {
    if d.Some? && d.value != "" then d.value else NoDescription
  }

  /** `SDG {id}: {name}`, the key of an evidence entry. */
  function EvidenceKey(g: Goal): (k: string)
    ensures |k| >= 4 && k[..4] == "SDG "
  {
    "SDG " + Text.IntToString(g.id) + ": " + g.name
  }

  /** Every evidence row has a joined goal, so its key can be formed. */
  predicate GoalsJoined(rows: seq<SdgRow>)
  {
    forall i :: 0 <= i < |rows| ==> rows[i].goal.Some?
  }

  /** Entry `i` is the last entry with its key. */
  predicate LastOfKey<K(==), V>(entries: seq<(K, V)>, i: int)
  {
    0 <= i < |entries| && forall j :: i < j < |entries| ==> entries[j].0 != entries[i].0
  }

  /** The object that writing `acc[key] = value` for each entry in order
      produces, starting from `{}`. */
  function WriteAll<K(==), V>(entries: seq<(K, V)>): map<K, V>
  {
    if entries == [] then map[]
    else WriteAll(entries[..|entries| - 1])[entries[|entries| - 1].0 := entries[|entries| - 1].1]
  }

  /** The keys written are exactly the keys of the entries. */
  lemma {:induction false} WriteAllKeys<K, V>(entries: seq<(K, V)>, k: K)
    ensures k in WriteAll(entries) <==> exists i :: 0 <= i < |entries| && entries[i].0 == k
  {
    if entries != [] {
      var n := |entries| - 1;
      var init := entries[..n];
      WriteAllKeys(init, k);
      if k in WriteAll(entries) && k != entries[n].0 {
        var i :| 0 <= i < n && init[i].0 == k;
        assert entries[i].0 == k;
      }
      if exists i :: 0 <= i < |entries| && entries[i].0 == k {
        var i :| 0 <= i < |entries| && entries[i].0 == k;
        if i < n { assert init[i].0 == k; }
      }
    }
  }

  /** The value left under a key is that of the last entry with the key. */
  lemma {:induction false} WriteAllLast<K, V>(entries: seq<(K, V)>, i: int)
    requires LastOfKey(entries, i)
    ensures entries[i].0 in WriteAll(entries) && WriteAll(entries)[entries[i].0] == entries[i].1
  {
    var n := |entries| - 1;
    if i < n {
      var init := entries[..n];
      assert LastOfKey(init, i);
      WriteAllLast(init, i);
    }
  }

  /** The (key, evidence) entry of each evidence row, in order. */
  function EvidenceEntries(rows: seq<SdgRow>): (entries: seq<(string, string)>)
    requires GoalsJoined(rows)
    ensures |entries| == |rows|
    ensures forall i :: 0 <= i < |rows| ==>
              entries[i] == (EvidenceKey(rows[i].goal.value), rows[i].evidenceText)
  {
    seq(|rows|, i requires 0 <= i < |rows| => (EvidenceKey(rows[i].goal.value), rows[i].evidenceText))
  }

  /** The evidence map built by `reduce`: one key per distinct `SDG {id}:
      {name}`, holding the evidence of the last row with that key. */
  function EvidenceMap(rows: seq<SdgRow>): (m: map<string, string>)
    requires GoalsJoined(rows)
    ensures forall k :: k in m <==> exists i :: 0 <= i < |rows| && EvidenceKey(rows[i].goal.value) == k
    ensures forall i :: LastOfKey(EvidenceEntries(rows), i) ==> m[EvidenceKey(rows[i].goal.value)] == rows[i].evidenceText
  {
    var entries := EvidenceEntries(rows);
    assert forall k :: k in WriteAll(entries) <==> exists i :: 0 <= i < |rows| && EvidenceKey(rows[i].goal.value) == k by {
      forall k ensures k in WriteAll(entries) <==> exists i :: 0 <= i < |rows| && EvidenceKey(rows[i].goal.value) == k {
        WriteAllKeys(entries, k);
      }
    }
    assert forall i :: LastOfKey(entries, i) ==> WriteAll(entries)[EvidenceKey(rows[i].goal.value)] == rows[i].evidenceText by {
      forall i | LastOfKey(entries, i) ensures WriteAll(entries)[EvidenceKey(rows[i].goal.value)] == rows[i].evidenceText {
        WriteAllLast(entries, i);
      }
    }
    WriteAll(entries)
  }

  /** Two evidence rows share a key exactly when they name the same goal, so
      "a later row overwrites" means a later row for the same goal. */
  lemma EvidenceKeyInjective(g: Goal, h: Goal)
    ensures EvidenceKey(g) == EvidenceKey(h) <==> g == h
  {
    if EvidenceKey(g) == EvidenceKey(h) {
      var dg, dh := Text.IntToString(g.id), Text.IntToString(h.id);
      var k := EvidenceKey(g);
      assert k[4..] == dg + ": " + g.name;
      assert k[4..] == dh + ": " + h.name;
      NoColonInNumber(g.id);
      NoColonInNumber(h.id);
      ColonSplit(dg, g.name, dh, h.name);
      IntToStringInjective(g.id, h.id);
    }
  }

  /** The text before the first `: ` of a string whose head has no colon
      determines both halves. */
  lemma ColonSplit(a: string, x: string, b: string, y: string)
    requires ':' !in a && ':' !in b && a + ": " + x == b + ": " + y
    ensures a == b && x == y
  {
    var s := a + ": " + x;
    assert s[|a|] == ':' && s[..|a|] == a;
    assert s[|b|] == ':' && s[..|b|] == b;
    assert s[|a| + 2..] == x;
  }

  lemma NoColonInNumber(i: int)
    ensures ':' !in Text.IntToString(i)
  {
    var s := Text.IntToString(i);
    if i < 0 {
      assert s == "-" + Text.NatToString(-i);
      assert forall j :: 1 <= j < |s| ==> s[j] == Text.NatToString(-i)[j - 1];
    }
  }

  lemma IntToStringInjective(a: int, b: int)
    requires Text.IntToString(a) == Text.IntToString(b)
    ensures a == b
  {
    var s := Text.IntToString(a);
    if a >= 0 && b >= 0 {
      Text.NatToStringInjective(a, b);
    } else if a < 0 && b < 0 {
      assert Text.NatToString(-a) == s[1..] == Text.NatToString(-b);
      Text.NatToStringInjective(-a, -b);
    }
  }

  /** Every NDVI row has a value. */
  predicate ValuesPresent(rows: seq<NdviRow>)
  {
    forall i :: 0 <= i < |rows| ==> rows[i].ndviValue.Some?
  }

  /** The chart series: one point per row, same order. */
  function NdviSeries(rows: seq<NdviRow>): (points: seq<NdviPoint>)
    requires ValuesPresent(rows)
    ensures |points| == |rows|
    ensures forall i :: 0 <= i < |rows| ==>
              points[i] == NdviPoint(rows[i].recordedAt, rows[i].ndviValue.value)
  {
    seq(|rows|, i requires 0 <= i < |rows| => NdviPoint(rows[i].recordedAt, rows[i].ndviValue.value))
  }

  /** The latest NDVI: the last row's raw value, or 0 with no rows. */
  function LatestNdvi(rows: seq<NdviRow>): (v: real)
    requires ValuesPresent(rows)
    ensures rows == [] ==> v == 0.0
    ensures rows != [] ==> v == rows[|rows| - 1].ndviValue.value
  {
    if |rows| > 0 then rows[|rows| - 1].ndviValue.value else 0.0
  }

  /** The view model built from a found project row and the other two
      answers, whose data is used whether or not they reported an error;
      absent data counts as no rows. None when a null NDVI value or a missing
      goal join makes the transformation throw. */
  function Build(row: ProjectRow, ndvi: Option<seq<NdviRow>>, sdgs: Option<seq<SdgRow>>): (r: Option<DetailedProject>)
    ensures r.None? <==> !ValuesPresent(ndvi.GetOr([])) || !GoalsJoined(sdgs.GetOr([]))
    ensures r.Some? ==>
      var p := r.value;
      && p.id == row.id && p.name == row.name && p.country == row.country && p.region == row.region
      && p.riskScore == row.riskScore && p.creditsRemaining == row.totalCreditsRemaining
      && p.description == DescriptionOrDefault(row.description)
      && p.latestNdvi == LatestNdvi(ndvi.GetOr([]))
      && p.ndviHistory == NdviSeries(ndvi.GetOr([]))
      && p.sdgEvidence == EvidenceMap(sdgs.GetOr([]))
  {
    var history := ndvi.GetOr([]);
    var evidence := sdgs.GetOr([]);
    if !ValuesPresent(history) || !GoalsJoined(evidence) then None
    else Some(DetailedProject(
      row.id, row.name, row.country, row.region, row.riskScore,
      LatestNdvi(history), row.totalCreditsRemaining,
      DescriptionOrDefault(row.description),
      NdviSeries(history), EvidenceMap(evidence)))
  }

  /** With no NDVI rows the view is still built: latest value 0, empty chart. */
  lemma EmptyHistoryIsNotAnError(row: ProjectRow, sdgs: Option<seq<SdgRow>>)
    requires GoalsJoined(sdgs.GetOr([]))
    ensures Build(row, Some([]), sdgs).Some? && Build(row, None, sdgs).Some?
    ensures Build(row, Some([]), sdgs).value.latestNdvi == 0.0
    ensures Build(row, Some([]), sdgs).value.ndviHistory == []
  {
  }

  /** The badge variant of the risk metric. */
  datatype Variant = Success | Warning | Danger

  function RiskVariant(score: real): (v: Variant)
    ensures v == Success <==> score <= 30.0
    ensures v == Warning <==> 30.0 < score <= 60.0
    ensures v == Danger <==> score > 60.0
  {
    if score <= 30.0 then Success else if score <= 60.0 then Warning else Danger
  }

  /** The detail page and the project card band scores identically. */
  lemma VariantMatchesCardBand(score: real)
    ensures RiskVariant(score) == match ProjectCard.BandOf(score)
                                  case Low => Success
                                  case Medium => Warning
                                  case High => Danger
  {
  }

  /** What the page shows. */
  datatype View = LoadingView | NotFound | Detail(project: DetailedProject)

  class ProjectDetailPage {
    var project: Option<DetailedProject>
    var loading: bool

    constructor ()
      ensures project.None? && loading
    {
      project := None;
      loading := true;
    }

    function View(): (v: View)
      reads this
      ensures v == LoadingView <==> loading
      ensures v == NotFound <==> !loading && project.None?
      ensures v.Detail? ==> project == Some(v.project)
    {
      if loading then LoadingView else if project.None? then NotFound else Detail(project.value)
    }

    /** `fetchProjectData`. `id` is the route parameter (None or "" when
        missing); `replies` is what `Promise.all` settles with. */
    method FetchProjectData(id: Option<string>, replies: Settled<Replies>)
      modifies this
      // loading is over on every exit
      ensures !loading
      // no id: nothing is fetched and the project is left as it was
      ensures id.None? || id.value == "" ==> project == old(project)
      // a rejected lookup, a project error or a missing project row: not found
      ensures id.Some? && id.value != "" && replies.Rejected? ==> project.None?
      ensures id.Some? && id.value != "" && replies.Resolved?
              && (replies.value.project.error.Some? || replies.value.project.data.None?)
              ==> project.None?
      // otherwise the merged view model (None if the merge threw)
      ensures id.Some? && id.value != "" && replies.Resolved?
              && replies.value.project.error.None? && replies.value.project.data.Some? ==>
                project == Build(replies.value.project.data.value, replies.value.ndvi.data, replies.value.sdgs.data)
    {
      if id.None? || id.value == "" {
        loading := false;
        return;
      }
      loading := true;
      if replies.Rejected? {
        project := None;
        loading := false;
        return;
      }
      var r := replies.value;
      if r.project.error.Some? || r.project.data.None? {
        project := None;
        loading := false;
        return;
      }
      // errors of the NDVI and SDG lookups are only logged
      project := Build(r.project.data.value, r.ndvi.data, r.sdgs.data);
      loading := false;
    }
  }
}
