/** The historical backfill: for every reforestation project its query
    returns (those whose flag `is false`) it looks up the vegetation index of each of the
    last 24 calendar months, inserts the months that gave a value, and marks
    the project as filled once the insert has returned rows. */
module Backfill {
  import opened Wrappers
  import opened Calendar
  import Pipeline

  /** A row as the backfill selects it; `coordinates` may be null. */
  datatype BackfillRow = BackfillRow(id: string, name: string, coordinates: Option<seq<real>>)

  /** Months counted from January of year 0, so that consecutive calendar
      months are consecutive numbers. */
  function MonthNumber(d: Date): int
  {
    d.year * 12 + d.month - 1
  }

  const Months := 24

  /** `current_date` after `i` steps of `current_date - relativedelta(months=1)`. */
  function Back(today: Date, i: nat): (d: Date)
    requires Valid(today) && MonthNumber(today) - i >= 12
    ensures Valid(d) && MonthNumber(d) == MonthNumber(today) - i
  {
    if i == 0 then today
    else
      var prev := Back(today, i - 1);
      MinusOneMonthIsPrecedingMonth(prev);
      MinusOneMonth(prev)
  }

  /** One month's query window: its first and its last day. */
  datatype Window = Window(start: Date, end: Date)

  /** `start_of_month` and `end_of_month` for the month of `d`. */
  function WindowOf(d: Date): (w: Window)
    requires Valid(d) && !(d.year == 9999 && d.month == 12)
    ensures Valid(w.start) && Valid(w.end)
    ensures w.start == Date(d.year, d.month, 1)
    ensures w.end == Date(d.year, d.month, DaysInMonth(d.year, d.month))
  {
    EndOfMonthIsLastDay(d);
    Window(StartOfMonth(d), EndOfMonth(d))
  }

  /** The clock readings for which all 24 month steps stay within the
      years 1 to 9999. */
  predicate RoomForBackfill(today: Date)
  {
    Valid(today) && MonthNumber(today) >= 12 + Months && !(today.year == 9999 && today.month == 12)
  }

  /** The first `k` windows the loop visits, newest first. */
  function Windows(today: Date, k: nat): (ws: seq<Window>)
    requires RoomForBackfill(today) && k <= Months
    ensures |ws| == k
    ensures forall i :: 0 <= i < k ==> Valid(ws[i].start) && Valid(ws[i].end)
  {
    if k == 0 then [] else Windows(today, k - 1) + [WindowOf(Back(today, k - 1))]
  }

  /** Window `i` is the window of the month `i` steps back. */
  lemma {:induction false} WindowsAt(today: Date, k: nat, i: nat)
    requires RoomForBackfill(today) && i < k <= Months
    ensures Windows(today, k)[i] == WindowOf(Back(today, i))
  {
    var ws, last := Windows(today, k - 1), WindowOf(Back(today, k - 1));
    assert Windows(today, k) == ws + [last];
    if i < k - 1 {
      WindowsAt(today, k - 1, i);
      assert (ws + [last])[i] == ws[i];
    }
  }

  /** Each window starts on day 1 and ends on the last day of the same
      calendar month, the 29th of a leap February included; window `i` is
      the month `i` months before the current one. */
  lemma WindowsAreWholeMonths(today: Date, i: nat)
    requires RoomForBackfill(today) && i < Months
    ensures var w := Windows(today, Months)[i];
      && w.start.day == 1
      && w.end.year == w.start.year && w.end.month == w.start.month
      && w.end.day == DaysInMonth(w.start.year, w.start.month)
      && MonthNumber(w.start) == MonthNumber(today) - i
  {
    WindowsAt(today, Months, i);
  }

  /** The first window is the month of today. */
  lemma FirstWindowIsCurrentMonth(today: Date)
    requires RoomForBackfill(today)
    ensures Windows(today, Months)[0] == Window(Date(today.year, today.month, 1), Date(today.year, today.month, DaysInMonth(today.year, today.month)))
  {
    WindowsAt(today, Months, 0);
  }

  /** Consecutive windows are adjacent: the day after window `i + 1` ends is
      the day window `i` starts, so the 24 months neither overlap nor leave
      a gap. */
  lemma WindowsContiguous(today: Date, i: nat)
    requires RoomForBackfill(today) && i + 1 < Months
    ensures Windows(today, Months)[i + 1].end != LastDate
    ensures NextDay(Windows(today, Months)[i + 1].end) == Windows(today, Months)[i].start
  {
    WindowsAt(today, Months, i);
    WindowsAt(today, Months, i + 1);
    MonthAfterMonth(Back(today, i + 1), Back(today, i));
  }

  /** The day after the last day of the month of `b` is the first day of
      the month that follows it. */
  lemma MonthAfterMonth(b: Date, a: Date)
    requires Valid(b) && Valid(a) && MonthNumber(b) + 1 == MonthNumber(a)
    ensures Date(b.year, b.month, DaysInMonth(b.year, b.month)) != LastDate
    ensures NextDay(Date(b.year, b.month, DaysInMonth(b.year, b.month))) == Date(a.year, a.month, 1)
  {
    if b.month == 12 {
      assert a.year == b.year + 1 && a.month == 1;
    } else {
      assert a.year == b.year && a.month == b.month + 1;
    }
  }

  /** The records of one project for the windows `ws`, oldest window last. */
  function RecordsFor(id: string, coords: seq<real>, ws: seq<Window>, ndvi: Pipeline.NdviLookup): seq<Pipeline.NdviRecord>
    requires forall i :: 0 <= i < |ws| ==> Valid(ws[i].start) && Valid(ws[i].end)
  {
    if ws == [] then []
    else
      var w := ws[|ws| - 1];
      var v := ndvi(coords, Format(w.start), Format(w.end));
      RecordsFor(id, coords, ws[..|ws| - 1], ndvi)
        + (if v.Some? then [Pipeline.NdviRecord(id, Format(w.end), v.value)] else [])
  }

  /** At most one record per window, each stamped with the last day of its
      window, for a month the lookup gave a value for. */
  lemma {:induction false} RecordsForShape(id: string, coords: seq<real>, ws: seq<Window>, ndvi: Pipeline.NdviLookup, r: Pipeline.NdviRecord)
    requires forall i :: 0 <= i < |ws| ==> Valid(ws[i].start) && Valid(ws[i].end)
    ensures |RecordsFor(id, coords, ws, ndvi)| <= |ws|
    ensures r in RecordsFor(id, coords, ws, ndvi) ==>
      r.projectId == id
      && exists i :: 0 <= i < |ws| && r.recordedAt == Format(ws[i].end)
                     && ndvi(coords, Format(ws[i].start), Format(ws[i].end)) == Some(r.ndviValue)
  {
    if ws != [] {
      var n := |ws| - 1;
      var init := ws[..n];
      RecordsForShape(id, coords, init, ndvi, r);
      if r in RecordsFor(id, coords, init, ndvi) {
        var i :| 0 <= i < n && r.recordedAt == Format(init[i].end)
                 && ndvi(coords, Format(init[i].start), Format(init[i].end)) == Some(r.ndviValue);
        assert init[i] == ws[i];
      }
    }
  }

  /** Conversely, every window the lookup gave a value for yields its record. */
  lemma {:induction false} RecordsForComplete(id: string, coords: seq<real>, ws: seq<Window>, ndvi: Pipeline.NdviLookup, i: nat)
    requires forall j :: 0 <= j < |ws| ==> Valid(ws[j].start) && Valid(ws[j].end)
    requires i < |ws|
    requires ndvi(coords, Format(ws[i].start), Format(ws[i].end)).Some?
    ensures Pipeline.NdviRecord(id, Format(ws[i].end), ndvi(coords, Format(ws[i].start), Format(ws[i].end)).value)
            in RecordsFor(id, coords, ws, ndvi)
  {
    var n := |ws| - 1;
    if i < n {
      var init := ws[..n];
      assert init[i] == ws[i];
      RecordsForComplete(id, coords, init, ndvi, i);
    }
  }

  /** Appending a window appends that window's record, if the lookup gave a value. */
  lemma RecordsForSnoc(id: string, coords: seq<real>, ws: seq<Window>, w: Window, ndvi: Pipeline.NdviLookup)
    requires forall i :: 0 <= i < |ws| ==> Valid(ws[i].start) && Valid(ws[i].end)
    requires Valid(w.start) && Valid(w.end)
    ensures var v := ndvi(coords, Format(w.start), Format(w.end));
      RecordsFor(id, coords, ws + [w], ndvi)
        == RecordsFor(id, coords, ws, ndvi) + (if v.Some? then [Pipeline.NdviRecord(id, Format(w.end), v.value)] else [])
  {
    assert (ws + [w])[..|ws|] == ws;
  }

  /** The inner loop for one project: 24 months back from today, each
      month's window queried and kept when the lookup gives a value. */
  method BackfillProject(id: string, coords: seq<real>, today: Date, ndvi: Pipeline.NdviLookup)
    returns (records: seq<Pipeline.NdviRecord>)
    requires RoomForBackfill(today)
    ensures records == RecordsFor(id, coords, Windows(today, Months), ndvi)
  {
    records := [];
    var current := today;
    for i := 0 to Months
      invariant current == Back(today, i)
      invariant records == RecordsFor(id, coords, Windows(today, i), ndvi)
    {
      var w := WindowOf(current);
      var v := ndvi(coords, Format(w.start), Format(w.end));
      RecordsForSnoc(id, coords, Windows(today, i), w, ndvi);
      if v.Some? {
        records := records + [Pipeline.NdviRecord(id, Format(w.end), v.value)];
      }
      MinusOneMonthIsPrecedingMonth(current);
      current := MinusOneMonth(current);
    }
  }

  /** What happened to one project. */
  datatype ProjectOutcome =
    | Skipped
    | NoData
    | InsertReturnedNothing(records: seq<Pipeline.NdviRecord>)
    | Filled(records: seq<Pipeline.NdviRecord>)

  /** The outcome for project `p`; `insertReturnsData` says whether the
      insert for a project answers with rows. */
  function Outcome(p: BackfillRow, today: Date, ndvi: Pipeline.NdviLookup, insertReturnsData: string -> bool): (o: ProjectOutcome)
    requires RoomForBackfill(today)
    ensures o.Skipped? <==> p.coordinates.None? || p.coordinates.value == []
    ensures o.Filled? ==> o.records != [] && insertReturnsData(p.id)
    ensures o.InsertReturnedNothing? ==> o.records != [] && !insertReturnsData(p.id)
    ensures (o.Filled? || o.InsertReturnedNothing?) ==>
      o.records == RecordsFor(p.id, p.coordinates.value, Windows(today, Months), ndvi)
    ensures o.NoData? ==> RecordsFor(p.id, p.coordinates.value, Windows(today, Months), ndvi) == []
  {
    if p.coordinates.None? || p.coordinates.value == [] then Skipped
    else
      var records := RecordsFor(p.id, p.coordinates.value, Windows(today, Months), ndvi);
      if records == [] then NoData
      else if insertReturnsData(p.id) then Filled(records)
      else InsertReturnedNothing(records)
  }

  /** A project that gets a row inserted gets at most one per month, never
      two for the same month, and each dated the last day of its month. */
  lemma InsertedRecordsAreMonthEnds(p: BackfillRow, today: Date, ndvi: Pipeline.NdviLookup, insertReturnsData: string -> bool, r: Pipeline.NdviRecord)
    requires RoomForBackfill(today)
    requires Outcome(p, today, ndvi, insertReturnsData).Filled?
    ensures |Outcome(p, today, ndvi, insertReturnsData).records| <= Months
    ensures r in Outcome(p, today, ndvi, insertReturnsData).records ==>
      exists i :: 0 <= i < Months && r.recordedAt == Format(Windows(today, Months)[i].end)
  {
    var ws := Windows(today, Months);
    RecordsForShape(p.id, p.coordinates.value, ws, ndvi, r);
  }

  /** Distinct windows end on distinct dates, so their records do too. */
  lemma WindowEndsDistinct(today: Date, i: nat, j: nat)
    requires RoomForBackfill(today) && i < j < Months
    ensures Format(Windows(today, Months)[i].end) != Format(Windows(today, Months)[j].end)
  {
    var ws := Windows(today, Months);
    WindowsAreWholeMonths(today, i);
    WindowsAreWholeMonths(today, j);
    if Format(ws[i].end) == Format(ws[j].end) {
      FormatInjective(ws[i].end, ws[j].end);
    }
  }

  /** The body of the outer loop for one project: skip it, or backfill it
      and decide from the records and the insert's answer. */
  method BackfillOne(p: BackfillRow, today: Date, ndvi: Pipeline.NdviLookup, insertReturnsData: string -> bool)
    returns (o: ProjectOutcome)
    requires RoomForBackfill(today)
    ensures o == Outcome(p, today, ndvi, insertReturnsData)
  {
    if p.coordinates.None? || p.coordinates.value == [] {
      return Skipped;
    }
    var records := BackfillProject(p.id, p.coordinates.value, today, ndvi);
    if records == [] {
      o := NoData;
    } else if insertReturnsData(p.id) {
      o := Filled(records);
    } else {
      o := InsertReturnedNothing(records);
    }
  }

  /** How a run ends. */
  datatype BackfillRun = NoProjects | Crashed | Ran(outcomes: seq<ProjectOutcome>)

  /** The ids whose `historical_data_filled` flag the run sets. */
  function FlaggedIds(ps: seq<BackfillRow>, outcomes: seq<ProjectOutcome>): (ids: set<string>)
    requires |outcomes| == |ps|
    ensures forall id :: id in ids <==> exists i :: 0 <= i < |ps| && ps[i].id == id && outcomes[i].Filled?
  {
    set i | 0 <= i < |ps| && outcomes[i].Filled? :: ps[i].id
  }

  /** What gets project `p` flagged, stated from the inputs: it has
      coordinates, at least one of its 24 months gave a value, and the
      insert of those records answered with rows. */
  predicate GetsFlagged(p: BackfillRow, today: Date, ndvi: Pipeline.NdviLookup, insertReturnsData: string -> bool)
    requires RoomForBackfill(today)
  {
    && p.coordinates.Some? && p.coordinates.value != []
    && RecordsFor(p.id, p.coordinates.value, Windows(today, Months), ndvi) != []
    && insertReturnsData(p.id)
  }

  /** The flag update of a run reaches exactly the projects that get
      flagged, whatever order the outcomes came in. */
  lemma FlaggedExactly(ps: seq<BackfillRow>, outcomes: seq<ProjectOutcome>, today: Date, ndvi: Pipeline.NdviLookup, insertReturnsData: string -> bool)
    requires RoomForBackfill(today) && |outcomes| == |ps|
    requires forall i :: 0 <= i < |ps| ==> outcomes[i] == Outcome(ps[i], today, ndvi, insertReturnsData)
    ensures forall id :: id in FlaggedIds(ps, outcomes) <==>
      exists i :: 0 <= i < |ps| && ps[i].id == id && GetsFlagged(ps[i], today, ndvi, insertReturnsData)
  {
    forall id | id in FlaggedIds(ps, outcomes)
      ensures exists i :: 0 <= i < |ps| && ps[i].id == id && GetsFlagged(ps[i], today, ndvi, insertReturnsData)
    {
      var i :| 0 <= i < |ps| && ps[i].id == id && outcomes[i].Filled?;
      assert GetsFlagged(ps[i], today, ndvi, insertReturnsData);
    }
    forall id | exists i :: 0 <= i < |ps| && ps[i].id == id && GetsFlagged(ps[i], today, ndvi, insertReturnsData)
      ensures id in FlaggedIds(ps, outcomes)
    {
      var i :| 0 <= i < |ps| && ps[i].id == id && GetsFlagged(ps[i], today, ndvi, insertReturnsData);
      assert outcomes[i].Filled?;
    }
  }

  /** `run_backfill`. `fetch` is the project query (Err when it raised);
      `today` is `date.today()`. */
  method RunBackfill(fetch: Result<Option<seq<BackfillRow>>>, today: Date, ndvi: Pipeline.NdviLookup, insertReturnsData: string -> bool)
    returns (run: BackfillRun)
    requires RoomForBackfill(today)
    ensures fetch.Err? ==> run == Crashed
    ensures fetch.Ok? && (fetch.value.None? || fetch.value.value == []) ==> run == NoProjects
    ensures fetch.Ok? && fetch.value.Some? && fetch.value.value != [] ==>
      && run.Ran?
      && |run.outcomes| == |fetch.value.value|
      && forall i :: 0 <= i < |run.outcomes| ==>
           run.outcomes[i] == Outcome(fetch.value.value[i], today, ndvi, insertReturnsData)
    // the projects whose flag is set are exactly those that get flagged
    ensures run.Ran? ==> forall id :: id in FlaggedIds(fetch.value.value, run.outcomes) <==>
      exists i :: 0 <= i < |fetch.value.value| && fetch.value.value[i].id == id
                  && GetsFlagged(fetch.value.value[i], today, ndvi, insertReturnsData)
  {
    if fetch.Err? {
      return Crashed;
    }
    if fetch.value.None? || fetch.value.value == [] {
      return NoProjects;
    }
    var projects := fetch.value.value;
    var outcomes: seq<ProjectOutcome> := [];
    for k := 0 to |projects|
      invariant |outcomes| == k
      invariant forall i :: 0 <= i < k ==> outcomes[i] == Outcome(projects[i], today, ndvi, insertReturnsData)
    {
      var o := BackfillOne(projects[k], today, ndvi, insertReturnsData);
      outcomes := outcomes + [o];
    }
    run := Ran(outcomes);
    FlaggedExactly(projects, outcomes, today, ndvi, insertReturnsData);
  }
}
