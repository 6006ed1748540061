/**
 * src/modules/lines.py, and `update_all_lines_data` of src/modules/lines_data.py:
 * the lines of the summary turned into `Line` objects. `create_line_object`
 * loads a line and refreshes it from the game only when its last update is
 * at least `LINE_UPDATE_INTERVAL_DAYS` days old (2 by default);
 * `update_all_lines_data` refreshes every line unconditionally.
 */
module AllLines {
  import opened Results
  import opened Json
  import opened Strings
  import opened Storage
  import opened Sessions
  import Lines
  import LineObjects
  import LinesData
  import LinesSummary

  type LineRecord = Lines.LineRecord
  type Update = LinesData.Update

  const IntervalVariable: string := "LINE_UPDATE_INTERVAL_DAYS"
  const DefaultIntervalDays: int := 2
  const SecondsPerDay: int := 86400

  /** `int(os.getenv('LINE_UPDATE_INTERVAL_DAYS', 2))`: ValueError when the variable is not an integer. */
  function UpdateInterval(env: map<string, string>): (r: Result<int>)
    ensures IntervalVariable !in env ==> r == Ok(DefaultIntervalDays)
    ensures IntervalVariable in env ==> (r.Ok? <==> ParseInt(env[IntervalVariable]).Some?)
    ensures IntervalVariable in env && r.Ok? ==> r.value == ParseInt(env[IntervalVariable]).value
    ensures r.Err? ==> r.error == ValueError
  {
    if IntervalVariable !in env then Ok(DefaultIntervalDays)
    else match ParseInt(env[IntervalVariable])
      case None => Err(ValueError)
      case Some(days) => Ok(days)
  }

  /** `(now - since).days`: whole days, rounded down (also for a negative difference). */
  function ElapsedDays(now: int, since: int): (d: int)
    ensures SecondsPerDay * d <= now - since < SecondsPerDay * (d + 1)
  {
    (now - since) / SecondsPerDay
  }

  /** Whether `create_line_object` refreshes a line last updated at `last`, at time `now`. */
  predicate NeedsUpdate(last: Option<int>, now: int, interval: int) {
    last.None? || ElapsedDays(now, last.value) >= interval
  }

  /**
   * The gate in full: a line is left alone exactly when it has been updated
   * and fewer than `interval` days have passed; on the day the interval is
   * reached it is refreshed.
   */
  lemma NeedsUpdateExactly(last: Option<int>, now: int, interval: int)
    ensures !NeedsUpdate(last, now, interval) <==> last.Some? && now - last.value < SecondsPerDay * interval
    ensures last.Some? && now - last.value == SecondsPerDay * interval ==> NeedsUpdate(last, now, interval)
  {
    if last.Some? {
      var d := ElapsedDays(now, last.value);
      if d >= interval {
        assert SecondsPerDay * d >= SecondsPerDay * interval;
      } else {
        assert d + 1 <= interval;
        assert SecondsPerDay * (d + 1) <= SecondsPerDay * interval;
      }
    }
  }

  /** A line that needs an update keeps needing one as time goes on. */
  lemma NeedsUpdateStays(last: Option<int>, now: int, later: int, interval: int)
    requires now <= later
    requires NeedsUpdate(last, now, interval)
    ensures NeedsUpdate(last, later, interval)
  {
    NeedsUpdateExactly(last, now, interval);
    NeedsUpdateExactly(last, later, interval);
  }

  /** `Line(id=line_id)`. */
  function LineOf(id: int, files: map<string, FileContent>, env: map<string, string>): (LineRecord, Option<Error>) {
    Lines.Created(map["id" := Int(id)], files, env)
  }

  /**
   * `create_line_object(line_id, session_manager)`: the line loaded from its
   * file, then, when the gate says so, `update_line_data`.
   */
  function CreateLineObject(w: World, s: SessionState, files: map<string, FileContent>, id: int): (u: Update)
    ensures u.error.None? ==> u.line.lastUpdatedAt.Some?
  {
    var (r, err) := LineOf(id, files, w.env);
    if err.Some? then LinesData.Update(s, r, files, err)
    else match UpdateInterval(w.env)
      case Err(e) => LinesData.Update(s, r, files, Some(e))
      case Ok(interval) =>
        if !NeedsUpdate(r.lastUpdatedAt, w.clock(s.log), interval) then LinesData.Update(s, r, files, None)
        else LinesData.ReconciledStampsAndPersists(w, s, r, files); LinesData.Reconciled(w, s, r, files)
  }

  /**
   * A loaded line is refreshed exactly when the gate says so; one left alone
   * is returned as loaded, with no request made and no file written.
   */
  lemma CreateLineObjectGate(w: World, s: SessionState, files: map<string, FileContent>, id: int)
    requires LineOf(id, files, w.env).1.None? && UpdateInterval(w.env).Ok?
    ensures var r := LineOf(id, files, w.env).0;
            var u := CreateLineObject(w, s, files, id);
            && (NeedsUpdate(r.lastUpdatedAt, w.clock(s.log), UpdateInterval(w.env).value) ==> u == LinesData.Reconciled(w, s, r, files))
            && (!NeedsUpdate(r.lastUpdatedAt, w.clock(s.log), UpdateInterval(w.env).value) ==>
                  u == LinesData.Update(s, r, files, None) && CallsSince(s, u.session) == [])
  {
  }

  /** `create_line_object`, through the objects. */
  method CreateLine(id: int, sm: SessionManager, disk: Disk) returns (line: LineObjects.Line, err: Option<Error>)
    modifies sm, disk
    ensures fresh(line)
    ensures LinesData.Update(sm.State(), line.Record(), disk.files, err) == CreateLineObject(sm.world, old(sm.State()), old(disk.files), id)
  {
    line, err := LineObjects.Line.New(map["id" := Int(id)], disk.files, sm.world.env);
    if err.Some? {
      return;
    }
    var interval := UpdateInterval(sm.world.env);
    if interval.Err? {
      return line, Some(interval.error);
    }
    if !NeedsUpdate(line.lastUpdatedAt, sm.world.clock(sm.log), interval.value) {
      return;
    }
    err := LinesData.UpdateLineData(line, sm, disk);
  }

  /** `Line(id=line_id)` then `update_line_data`, with no gate, as `update_all_lines_data` does it. */
  function LoadAndUpdate(w: World, s: SessionState, files: map<string, FileContent>, id: int): (u: Update)
    ensures u.error.None? ==> u.line.lastUpdatedAt.Some? && Lines.Persisted(u.line, files, w.env) == Ok(u.files)
  {
    var (r, err) := LineOf(id, files, w.env);
    if err.Some? then LinesData.Update(s, r, files, err)
    else LinesData.ReconciledStampsAndPersists(w, s, r, files); LinesData.Reconciled(w, s, r, files)
  }

  /**
   * A line that `create_line_object` refreshed without error holds its route
   * and its four value groups.
   */
  lemma CreateLineObjectFills(w: World, s: SessionState, files: map<string, FileContent>, id: int)
    ensures var (r, err) := LineOf(id, files, w.env);
            var u := CreateLineObject(w, s, files, id);
            (u.error.None? && err.None? && UpdateInterval(w.env).Ok?
             && NeedsUpdate(r.lastUpdatedAt, w.clock(s.log), UpdateInterval(w.env).value)) ==> LinesData.Filled(u.line)
  {
    var (r, err) := LineOf(id, files, w.env);
    LinesData.ReconciledFills(w, s, r, files);
  }

  /**
   * Asked again for the same line within the update interval,
   * `create_line_object` makes no request, writes no file, raises nothing and
   * returns the line it returned the first time.
   */
  lemma CreateLineObjectIdempotent(w: World, s: SessionState, files: map<string, FileContent>, id: int)
    requires CreateLineObject(w, s, files, id).error.None?
    requires CreateLineObject(w, s, files, id).line.id == Some(id)
    requires var u := CreateLineObject(w, s, files, id);
             UpdateInterval(w.env).Ok? &&
             w.clock(u.session.log) - u.line.lastUpdatedAt.value < SecondsPerDay * UpdateInterval(w.env).value
    ensures var u := CreateLineObject(w, s, files, id);
            CreateLineObject(w, u.session, u.files, id) == LinesData.Update(u.session, u.line, u.files, None)
  {
    var u := CreateLineObject(w, s, files, id);
    var (r, err) := LineOf(id, files, w.env);
    var interval := UpdateInterval(w.env).value;
    if NeedsUpdate(r.lastUpdatedAt, w.clock(s.log), interval) {
      LinesData.ReconciledStampsAndPersists(w, s, r, files);
      assert u == LinesData.Reconciled(w, s, r, files);
      Lines.CreatedWithId(id, files, w.env);
      assert LineOf(id, u.files, w.env) == (u.line, None);
    }
    NeedsUpdateExactly(u.line.lastUpdatedAt, w.clock(u.session.log), interval);
  }

  /** A line that `update_line_data` refreshed without error holds its route, its four value groups and a last-update time. */
  lemma LoadAndUpdateFills(w: World, s: SessionState, files: map<string, FileContent>, id: int)
    ensures var u := LoadAndUpdate(w, s, files, id);
            u.error.None? ==> LinesData.Filled(u.line) && u.line.lastUpdatedAt.Some?
  {
    var (r, err) := LineOf(id, files, w.env);
    if err.None? {
      LinesData.ReconciledFills(w, s, r, files);
    }
  }

  /** `Line(id=line_id)` then `update_line_data`, through the objects. */
  method LoadAndUpdateLine(id: int, sm: SessionManager, disk: Disk) returns (line: LineObjects.Line, err: Option<Error>)
    modifies sm, disk
    ensures fresh(line)
    ensures LinesData.Update(sm.State(), line.Record(), disk.files, err) == LoadAndUpdate(sm.world, old(sm.State()), old(disk.files), id)
  {
    line, err := LineObjects.Line.New(map["id" := Int(id)], disk.files, sm.world.env);
    if err.None? {
      err := LinesData.UpdateLineData(line, sm, disk);
    }
  }

  // ---------------------------------------------------------- every line

  /** How one line is handled: from the manager's state, the files and the id to what it leaves. */
  type LinePass = (SessionState, map<string, FileContent>, int) -> Update

  /** `create_line_object` in the world `w`. */
  function Gated(w: World): LinePass {
    (s, files, id) => CreateLineObject(w, s, files, id)
  }

  /** `Line(id=...)` and `update_line_data` in the world `w`. */
  function Ungated(w: World): LinePass {
    (s, files, id) => LoadAndUpdate(w, s, files, id)
  }

  /** Handling a line records its requests after the earlier ones and, when it succeeds, leaves the line with a last-update time. */
  ghost predicate Stamps(step: LinePass) {
    forall s: SessionState, files: map<string, FileContent>, id: int {:trigger step(s, files, id)} ::
      Extends(s, step(s, files, id).session)
      && (step(s, files, id).error.None? ==> step(s, files, id).line.lastUpdatedAt.Some?)
  }

  lemma StampsAt(step: LinePass, s: SessionState, files: map<string, FileContent>, id: int)
    requires Stamps(step)
    ensures Extends(s, step(s, files, id).session)
    ensures step(s, files, id).error.None? ==> step(s, files, id).line.lastUpdatedAt.Some?
  {
  }

  lemma GatedStamps(w: World)
    ensures Stamps(Gated(w))
  {
    DoRequestRecords(w);
    forall s: SessionState, files: map<string, FileContent>, id: int
      ensures Extends(s, Gated(w)(s, files, id).session)
    {
      var (r, err) := LineOf(id, files, w.env);
    }
  }

  lemma UngatedStamps(w: World)
    ensures Stamps(Ungated(w))
  {
    DoRequestRecords(w);
    forall s: SessionState, files: map<string, FileContent>, id: int
      ensures Extends(s, Ungated(w)(s, files, id).session)
    {
      var (r, err) := LineOf(id, files, w.env);
    }
  }

  /** What a pass over several lines leaves: the manager, the files, the lines and what was raised. */
  datatype Batch = Batch(session: SessionState, files: map<string, FileContent>, lines: seq<LineRecord>, error: Option<Error>)

  /** The ids of the summary, in order. */
  function Ids(summary: seq<LinesSummary.LineSummary>): (ids: seq<int>)
    ensures |ids| == |summary|
    ensures forall i :: 0 <= i < |ids| ==> ids[i] == summary[i].id
  {
    seq(|summary|, i requires 0 <= i < |summary| => summary[i].id)
  }

  /**
   * `step` for each id in turn, the lines collected in order; the first
   * error ends the pass and no list is returned.
   */
  function Pass(step: LinePass, s: SessionState, files: map<string, FileContent>, ids: seq<int>): (b: Batch)
    decreases |ids|
  {
    if ids == [] then Batch(s, files, [], None)
    else
      var b := Pass(step, s, files, ids[..|ids| - 1]);
      if b.error.Some? then b
      else
        var u := step(b.session, b.files, ids[|ids| - 1]);
        if u.error.Some? then Batch(u.session, u.files, [], u.error)
        else Batch(u.session, u.files, b.lines + [u.line], None)
  }

  /**
   * A pass records its requests after the earlier ones; when it succeeds it
   * yields one line per id, each with a last-update time.
   */
  lemma {:induction false} PassLines(step: LinePass, s: SessionState, files: map<string, FileContent>, ids: seq<int>)
    requires Stamps(step)
    ensures var b := Pass(step, s, files, ids);
            && Extends(s, b.session)
            && (b.error.None? ==> |b.lines| == |ids| && forall i :: 0 <= i < |b.lines| ==> b.lines[i].lastUpdatedAt.Some?)
    decreases |ids|
  {
    if ids != [] {
      var b := Pass(step, s, files, ids[..|ids| - 1]);
      PassLines(step, s, files, ids[..|ids| - 1]);
      if b.error.None? {
        var u := step(b.session, b.files, ids[|ids| - 1]);
        StampsAt(step, b.session, b.files, ids[|ids| - 1]);
        ExtendsChain(s, b.session, u.session);
      }
    }
  }

  /** The first error ends the pass: the ids after it are never handled. */
  lemma {:induction false} PassStopsAtError(step: LinePass, s: SessionState, files: map<string, FileContent>, ids: seq<int>, k: nat)
    requires k <= |ids|
    requires Pass(step, s, files, ids[..k]).error.Some?
    ensures Pass(step, s, files, ids) == Pass(step, s, files, ids[..k])
    decreases |ids| - k
  {
    if k < |ids| {
      assert ids[..|ids| - 1][..k] == ids[..k];
      PassStopsAtError(step, s, files, ids[..|ids| - 1], k);
    } else {
      assert ids[..k] == ids;
    }
  }

  /** One more id after an error-free prefix: the step's error ends the pass, or its line is appended. */
  lemma PassNext(step: LinePass, s: SessionState, files: map<string, FileContent>, ids: seq<int>, i: nat)
    requires i < |ids|
    ensures var before := Pass(step, s, files, ids[..i]);
            var u := step(before.session, before.files, ids[i]);
            before.error.None? ==>
              Pass(step, s, files, ids[..i + 1])
              == if u.error.Some? then Batch(u.session, u.files, [], u.error) else Batch(u.session, u.files, before.lines + [u.line], None)
  {
    assert ids[..i + 1][..i] == ids[..i];
  }

  /** The line of the last id is the last line of an error-free pass, and it is what that step left. */
  lemma PassLast(step: LinePass, s: SessionState, files: map<string, FileContent>, ids: seq<int>)
    requires |ids| >= 1
    ensures var b := Pass(step, s, files, ids);
            var before := Pass(step, s, files, ids[..|ids| - 1]);
            var u := step(before.session, before.files, ids[|ids| - 1]);
            b.error.None? ==> before.error.None? && u.error.None? && b.lines == before.lines + [u.line] && b.files == u.files
  {
  }

  lemma ExtendsChain(a: SessionState, b: SessionState, c: SessionState)
    requires Extends(a, b) && Extends(b, c)
    ensures Extends(a, c)
  {
    CallsSinceChain(a, b, c);
  }

  /** `fetch_lines_summary` through the manager's own `request`. */
  function SummaryOf(w: World, s: SessionState, fuel: nat): (SessionState, Result<seq<LinesSummary.LineSummary>>) {
    DoRequestRecords(w);
    LinesSummary.Summary(RequesterOf(w), s, fuel)
  }

  /** The summary (at most `fuel` pages), then `step` for each of its lines. */
  function OverSummary(w: World, step: LinePass, s: SessionState, files: map<string, FileContent>, fuel: nat): (b: Batch) {
    var (s1, summary) := SummaryOf(w, s, fuel);
    if summary.Err? then Batch(s1, files, [], Some(summary.error))
    else Pass(step, s1, files, Ids(summary.value))
  }

  /**
   * A pass over the summary that succeeds yields one line per summary entry,
   * each with a last-update time.
   */
  lemma OverSummaryLines(w: World, step: LinePass, s: SessionState, files: map<string, FileContent>, fuel: nat)
    requires Stamps(step)
    ensures var b := OverSummary(w, step, s, files, fuel);
            var summary := SummaryOf(w, s, fuel).1;
            b.error.None? ==> summary.Ok? && |b.lines| == |summary.value| >= 1
                              && forall i :: 0 <= i < |b.lines| ==> b.lines[i].lastUpdatedAt.Some?
  {
    var (s1, summary) := SummaryOf(w, s, fuel);
    if summary.Ok? {
      PassLines(step, s1, files, Ids(summary.value));
    }
  }

  /** `fetch_all_lines_list`: `create_line_object` for each line of the summary. */
  function AllLinesList(w: World, s: SessionState, files: map<string, FileContent>, fuel: nat): (b: Batch) {
    OverSummary(w, Gated(w), s, files, fuel)
  }

  /** `fetch_all_lines_list` returns one line per summary entry, each with a last-update time. */
  lemma AllLinesListCount(w: World, s: SessionState, files: map<string, FileContent>, fuel: nat)
    ensures var b := AllLinesList(w, s, files, fuel);
            var summary := SummaryOf(w, s, fuel).1;
            b.error.None? ==> summary.Ok? && |b.lines| == |summary.value| >= 1
                              && forall i :: 0 <= i < |b.lines| ==> b.lines[i].lastUpdatedAt.Some?
  {
    GatedStamps(w);
    OverSummaryLines(w, Gated(w), s, files, fuel);
  }

  /** `update_all_lines_data`: `Line(id=...)` and `update_line_data` for each line of the summary. */
  function AllLinesUpdated(w: World, s: SessionState, files: map<string, FileContent>, fuel: nat): (b: Batch) {
    OverSummary(w, Ungated(w), s, files, fuel)
  }

  /**
   * After an error-free pass of `update_all_lines_data`, the files hold the
   * last line as its own refresh persisted it over the files before it.
   */
  lemma UpdatePassPersistsLast(w: World, s: SessionState, files: map<string, FileContent>, ids: seq<int>)
    requires |ids| >= 1
    ensures var b := Pass(Ungated(w), s, files, ids);
            var before := Pass(Ungated(w), s, files, ids[..|ids| - 1]);
            b.error.None? ==> |b.lines| >= 1 && Lines.Persisted(b.lines[|b.lines| - 1], before.files, w.env) == Ok(b.files)
  {
    PassLast(Ungated(w), s, files, ids);
    var before := Pass(Ungated(w), s, files, ids[..|ids| - 1]);
    var u := LoadAndUpdate(w, before.session, before.files, ids[|ids| - 1]);
    assert Ungated(w)(before.session, before.files, ids[|ids| - 1]) == u;
  }

  /** Each line holds its route, its four value groups and a last-update time. */
  predicate AllFilled(lines: seq<LineRecord>) {
    forall i :: 0 <= i < |lines| ==> LinesData.Filled(lines[i]) && lines[i].lastUpdatedAt.Some?
  }

  /** Handling a line without error leaves it read in full and stamped. */
  ghost predicate Fills(step: LinePass) {
    forall s: SessionState, files: map<string, FileContent>, id: int {:trigger step(s, files, id)} ::
      step(s, files, id).error.None? ==> AllFilled([step(s, files, id).line])
  }

  lemma FillsAt(step: LinePass, s: SessionState, files: map<string, FileContent>, id: int)
    requires Fills(step)
    ensures step(s, files, id).error.None? ==> AllFilled([step(s, files, id).line])
  {
  }

  lemma UngatedFills(w: World)
    ensures Fills(Ungated(w))
  {
    forall s: SessionState, files: map<string, FileContent>, id: int
      ensures Ungated(w)(s, files, id).error.None? ==> AllFilled([Ungated(w)(s, files, id).line])
    {
      LoadAndUpdateFills(w, s, files, id);
    }
  }

  /** Every line of an error-free pass of such a step is read in full and stamped. */
  lemma {:induction false} PassFills(step: LinePass, s: SessionState, files: map<string, FileContent>, ids: seq<int>)
    requires Fills(step)
    ensures var b := Pass(step, s, files, ids);
            b.error.None? ==> AllFilled(b.lines)
    decreases |ids|
  {
    if ids != [] {
      var before := Pass(step, s, files, ids[..|ids| - 1]);
      PassFills(step, s, files, ids[..|ids| - 1]);
      PassLast(step, s, files, ids);
      var u := step(before.session, before.files, ids[|ids| - 1]);
      if u.error.None? && before.error.None? {
        FillsAt(step, before.session, before.files, ids[|ids| - 1]);
        AllFilledAppend(before.lines, u.line);
      }
    }
  }

  lemma AllFilledAppend(lines: seq<LineRecord>, r: LineRecord)
    requires AllFilled(lines) && AllFilled([r])
    ensures AllFilled(lines + [r])
  {
    assert [r][0] == r;
  }

  /**
   * After an error-free `update_all_lines_data`, every line holds its route,
   * its four value groups and a last-update time.
   */
  lemma AllLinesUpdatedFills(w: World, s: SessionState, files: map<string, FileContent>, fuel: nat)
    ensures var b := AllLinesUpdated(w, s, files, fuel);
            b.error.None? ==> AllFilled(b.lines)
  {
    var (s1, summary) := SummaryOf(w, s, fuel);
    if summary.Ok? {
      UngatedFills(w);
      PassFills(Ungated(w), s1, files, Ids(summary.value));
    }
  }

  /** The records of a list of line objects. */
  function RecordsOf(lines: seq<LineObjects.Line>): (rs: seq<LineRecord>)
    reads set l | l in lines
    ensures |rs| == |lines|
    ensures forall i :: 0 <= i < |lines| ==> rs[i] == lines[i].Record()
  {
    if lines == [] then [] else RecordsOf(lines[..|lines| - 1]) + [lines[|lines| - 1].Record()]
  }

  /**
   * `step` is `create_line_object` in the world `w` (when `gated`) or the
   * ungated load and refresh. The link is only drawn where the concrete
   * function is named, so a loop over an abstract `step` stays small.
   */
  ghost predicate Runs(step: LinePass, w: World, gated: bool) {
    && (gated ==> forall s, files, id {:trigger CreateLineObject(w, s, files, id)} :: step(s, files, id) == CreateLineObject(w, s, files, id))
    && (!gated ==> forall s, files, id {:trigger LoadAndUpdate(w, s, files, id)} :: step(s, files, id) == LoadAndUpdate(w, s, files, id))
  }

  lemma GatedRuns(w: World)
    ensures Runs(Gated(w), w, true)
  {
  }

  lemma UngatedRuns(w: World)
    ensures Runs(Ungated(w), w, false)
  {
  }

  /** One line of the pass, through the objects: `create_line_object` or the ungated load and refresh. */
  method LineStep(id: int, sm: SessionManager, disk: Disk, gated: bool, ghost step: LinePass) returns (line: LineObjects.Line, err: Option<Error>)
    requires Runs(step, sm.world, gated)
    modifies sm, disk
    ensures fresh(line)
    ensures LinesData.Update(sm.State(), line.Record(), disk.files, err) == step(old(sm.State()), old(disk.files), id)
  {
    if gated {
      line, err := CreateLine(id, sm, disk);
    } else {
      line, err := LoadAndUpdateLine(id, sm, disk);
    }
  }

  /** One turn of the loop over the ids: the line of `ids[i]` is added after the lines of the ids before it. */
  method PassTurn(ids: seq<int>, i: nat, lines: seq<LineObjects.Line>, sm: SessionManager, disk: Disk, gated: bool,
                  ghost step: LinePass, ghost s1: SessionState, ghost f1: map<string, FileContent>)
    returns (lines': seq<LineObjects.Line>, err: Option<Error>)
    requires i < |ids|
    requires Runs(step, sm.world, gated)
    requires Batch(sm.State(), disk.files, RecordsOf(lines), None) == Pass(step, s1, f1, ids[..i])
    modifies sm, disk
    ensures err.Some? ==> Batch(sm.State(), disk.files, [], err) == Pass(step, s1, f1, ids)
    ensures err.None? ==> Batch(sm.State(), disk.files, RecordsOf(lines'), None) == Pass(step, s1, f1, ids[..i + 1])
  {
    ghost var done := RecordsOf(lines);
    var line;
    line, err := LineStep(ids[i], sm, disk, gated, step);
    PassNext(step, s1, f1, ids, i);
    if err.Some? {
      PassStopsAtError(step, s1, f1, ids, i + 1);
      return [], err;
    }
    assert RecordsOf(lines) == done;
    lines' := lines + [line];
    assert lines'[..|lines|] == lines;
  }

  /**
   * The loop over the ids: one line at a time, stopping at the first error,
   * which leaves no list.
   */
  method PassLoop(ids: seq<int>, sm: SessionManager, disk: Disk, gated: bool, ghost step: LinePass)
    returns (lines: seq<LineObjects.Line>, err: Option<Error>)
    requires Runs(step, sm.world, gated)
    modifies sm, disk
    ensures Batch(sm.State(), disk.files, RecordsOf(lines), err) == Pass(step, old(sm.State()), old(disk.files), ids)
  {
    ghost var s1, f1 := sm.State(), disk.files;
    lines, err := [], None;
    var i := 0;
    while i < |ids|
      invariant 0 <= i <= |ids|
      invariant err.None?
      invariant Batch(sm.State(), disk.files, RecordsOf(lines), None) == Pass(step, s1, f1, ids[..i])
    {
      var next;
      next, err := PassTurn(ids, i, lines, sm, disk, gated, step, s1, f1);
      if err.Some? {
        return [], err;
      }
      lines := next;
      i := i + 1;
    }
    assert ids[..i] == ids;
  }

  /** The summary, then the pass over its lines. */
  method OverSummaryLoop(sm: SessionManager, disk: Disk, fuel: nat, gated: bool, ghost step: LinePass)
    returns (lines: seq<LineObjects.Line>, err: Option<Error>)
    requires Runs(step, sm.world, gated)
    modifies sm, disk
    ensures Batch(sm.State(), disk.files, RecordsOf(lines), err) == OverSummary(sm.world, step, old(sm.State()), old(disk.files), fuel)
  {
    ghost var s0 := sm.State();
    var summary := LinesSummary.FetchLinesSummary(sm, fuel);
    assert (sm.State(), summary) == SummaryOf(sm.world, s0, fuel);
    if summary.Err? {
      return [], Some(summary.error);
    }
    lines, err := PassLoop(Ids(summary.value), sm, disk, gated, step);
  }

  /** `fetch_all_lines_list`, through the objects: a loop over the summary creating one line at a time. */
  method FetchAllLinesList(sm: SessionManager, disk: Disk, fuel: nat) returns (lines: seq<LineObjects.Line>, err: Option<Error>)
    modifies sm, disk
    ensures Batch(sm.State(), disk.files, RecordsOf(lines), err) == AllLinesList(sm.world, old(sm.State()), old(disk.files), fuel)
  {
    GatedRuns(sm.world);
    lines, err := OverSummaryLoop(sm, disk, fuel, true, Gated(sm.world));
  }

  /** `update_all_lines_data`, through the objects: the lines are not kept. */
  method UpdateAllLinesData(sm: SessionManager, disk: Disk, fuel: nat) returns (err: Option<Error>)
    modifies sm, disk
    ensures sm.State() == AllLinesUpdated(sm.world, old(sm.State()), old(disk.files), fuel).session
    ensures disk.files == AllLinesUpdated(sm.world, old(sm.State()), old(disk.files), fuel).files
    ensures err == AllLinesUpdated(sm.world, old(sm.State()), old(disk.files), fuel).error
  {
    UngatedRuns(sm.world);
    var _, e := OverSummaryLoop(sm, disk, fuel, false, Ungated(sm.world));
    err := e;
  }
}
