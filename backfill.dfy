/**
 * The job's `main`: settings are defaulted and parsed, the cursor walks the date range
 * window by window, each window's rows are queried, and a window with rows is staged to a
 * local CSV, counted by date when count tracking is on, published under its object key and
 * removed locally; at the end the count ledger is summed per date and, when count tracking
 * is on and the ledger is not empty, published as one more file.
 *
 * The database read is `Extract` over a snapshot `source` of the rows the table expression
 * `<table> <query fragment>` yields (the fragment sits in the FROM clause, so joins, aliases
 * and hints are already applied to `source`), the clock is the
 * `clock` parameter (the epoch seconds read for the i-th window), and staging, uploading and
 * deleting are events appended to the returned trace.
 */
module Backfill {
  import opened Wrappers
  import opened Dates
  import opened Windowing
  import opened Settings
  import opened Naming
  import opened Counting

  /** The configuration values `main` reads, as the strings of the configuration file. */
  datatype Config = Config(
    tableName: string, queryParam: string, dateColumnName: string,
    startDate: string, endDate: string, batchType: string, batchDaysMonths: string,
    isCountFileRequired: string, countFileName: string,
    iamRole: string, accessKeyId: string, secretAccessKey: string,
    bucket: string, path: string)

  /** The same settings after defaulting and parsing. */
  datatype Plan = Plan(
    table: string, queryParam: string, column: string,
    start: Date, end: Date, unit: Unit, size: nat,
    countOn: bool, countFileName: string,
    bucket: string, path: string, credentials: Credentials)

  predicate ValidPlan(p: Plan) {
    Valid(p.start) && Valid(p.end) && p.size >= 1
  }

  /**
   * The loop only ends when a step moves the cursor forward: a batch size that parses
   * must be at least 1. The job does not check this: with a size of 0 it loops forever, and
   * with a negative size it walks backwards until the date offset leaves pandas' timestamp
   * range, which raises, and the job exits with status 1.
   */
  predicate TerminatingSize(cfg: Config) {
    var size := BatchSize(cfg.batchDaysMonths);
    size.Ok? ==> size.value >= 1
  }

  /**
   * Defaulting and parsing, in the job's order: the batch size first, then the start date,
   * then the end date; the first one that fails is the job's fatal error.
   */
  function Prepare(cfg: Config): (r: Result<Plan, ConfigError>)
    requires TerminatingSize(cfg)
    ensures r.Ok? ==> ValidPlan(r.value)
    ensures r.Ok? <==>
      BatchSize(cfg.batchDaysMonths).Ok? && ParseDate(cfg.startDate).Some? && ParseDate(cfg.endDate).Some?
    ensures r.Err? ==>
              r.error == if BatchSize(cfg.batchDaysMonths).Err? then BadBatchSize(cfg.batchDaysMonths)
                         else if ParseDate(cfg.startDate).None? then BadDate(cfg.startDate)
                         else BadDate(cfg.endDate)
    ensures r.Ok? ==>
      r.value.size == BatchSize(cfg.batchDaysMonths).value &&
      Some(r.value.start) == ParseDate(cfg.startDate) && Some(r.value.end) == ParseDate(cfg.endDate)
    ensures r.Ok? ==>
      r.value.table == cfg.tableName && r.value.queryParam == cfg.queryParam &&
      r.value.column == cfg.dateColumnName && r.value.countFileName == cfg.countFileName &&
      r.value.bucket == cfg.bucket && r.value.path == cfg.path
    ensures r.Ok? ==>
      r.value.unit == BatchUnit(cfg.batchType) &&
      r.value.countOn == CountTracking(cfg.isCountFileRequired) &&
      r.value.credentials == SelectCredentials(cfg.iamRole, cfg.accessKeyId, cfg.secretAccessKey)
  {
    match BatchSize(cfg.batchDaysMonths)
    case Err(e) => Err(e)
    case Ok(size) =>
      match ParseDate(cfg.startDate)
      case None => Err(BadDate(cfg.startDate))
      case Some(start) =>
        match ParseDate(cfg.endDate)
        case None => Err(BadDate(cfg.endDate))
        case Some(end) =>
          Ok(Plan(cfg.tableName, cfg.queryParam, cfg.dateColumnName, start, end,
                  BatchUnit(cfg.batchType), size, CountTracking(cfg.isCountFileRequired),
                  cfg.countFileName, cfg.bucket, cfg.path,
                  SelectCredentials(cfg.iamRole, cfg.accessKeyId, cfg.secretAccessKey)))
  }

  /** What the job does that is visible outside it. */
  datatype Event =
    | Queried(window: Window, query: string, rowCount: nat)
    | StagedRows(file: string, rows: seq<Row>)
    | StagedCounts(file: string, counts: seq<DailyCount>)
    | Published(file: string, bucket: string, key: string, credentials: Credentials)
    | Removed(file: string)

  predicate ValidWindows(ws: seq<Window>) {
    forall i :: 0 <= i < |ws| ==> Valid(ws[i].start) && Valid(ws[i].end)
  }

  function WindowRowsOf(source: seq<Row>, w: Window): seq<Row> {
    Extract(source, w.start, w.end)
  }

  function WindowQuery(p: Plan, w: Window): string
    requires Valid(w.start) && Valid(w.end)
  {
    SqlQuery(p.table, p.column, Format(w.start), Format(w.end), p.queryParam)
  }

  function WindowFile(w: Window, epoch: nat): string
    requires Valid(w.start) && Valid(w.end)
  {
    LocalFileName(Format(w.start), Format(w.end), epoch)
  }

  function WindowKey(p: Plan, source: seq<Row>, w: Window, epoch: nat): string
    requires Valid(w.start) && Valid(w.end)
  {
    ObjectKey(p.path, Format(w.start), Format(w.end), epoch, |WindowRowsOf(source, w)|)
  }

  /** Staging, publishing and removing the CSV of a window's rows. */
  function WindowArtifacts(p: Plan, source: seq<Row>, w: Window, epoch: nat): seq<Event>
    requires Valid(w.start) && Valid(w.end)
  {
    var file := WindowFile(w, epoch);
    [StagedRows(file, WindowRowsOf(source, w)),
     Published(file, p.bucket, WindowKey(p, source, w, epoch), p.credentials),
     Removed(file)]
  }

  /** One pass of the loop body: the query, then the artifacts only if rows came back. */
  function WindowEvents(p: Plan, source: seq<Row>, w: Window, epoch: nat): (r: seq<Event>)
    requires Valid(w.start) && Valid(w.end)
    ensures |r| == if |WindowRowsOf(source, w)| == 0 then 1 else 4
    ensures r[0].Queried? && r[0].window == w && r[0].rowCount == |WindowRowsOf(source, w)|
  {
    var rows := WindowRowsOf(source, w);
    [Queried(w, WindowQuery(p, w), |rows|)] +
    (if |rows| == 0 then [] else WindowArtifacts(p, source, w, epoch))
  }

  /** The events of the windows `ws`, the i-th of them stamped with `clock(i)`. */
  function RunEvents(p: Plan, source: seq<Row>, clock: nat -> nat, ws: seq<Window>): seq<Event>
    requires ValidWindows(ws)
  {
    if ws == [] then []
    else RunEvents(p, source, clock, ws[..|ws| - 1]) + WindowEvents(p, source, ws[|ws| - 1], clock(|ws| - 1))
  }

  /** What one window appends to the count accumulator. */
  function BatchCounts(p: Plan, source: seq<Row>, w: Window): seq<DailyCount> {
    var rows := WindowRowsOf(source, w);
    if |rows| != 0 && p.countOn then GroupByDate(rows) else []
  }

  /** The count accumulator after the windows `ws`. */
  function Ledger(p: Plan, source: seq<Row>, ws: seq<Window>): seq<DailyCount>
  {
    if ws == [] then []
    else Ledger(p, source, ws[..|ws| - 1]) + BatchCounts(p, source, ws[|ws| - 1])
  }

  /** After the loop: the count file, when count tracking is on and the ledger is not empty. */
  function Finish(p: Plan, acc: seq<DailyCount>): (r: seq<Event>)
    ensures |r| == if p.countOn && acc != [] then 3 else 0
  {
    if !p.countOn then []
    else
      var counts := SumByDate(acc);
      if |counts| == 0 then []
      else
        [StagedCounts(p.countFileName, counts),
         Published(p.countFileName, p.bucket, CountKey(p.path, p.countFileName), p.credentials),
         Removed(p.countFileName)]
  }

  function AllWindows(p: Plan): seq<Window>
    requires ValidPlan(p)
  {
    Windows(p.start, p.end, p.unit, p.size)
  }

  /** The whole trace of a run with settings `p`. */
  function Run(p: Plan, source: seq<Row>, clock: nat -> nat): seq<Event>
    requires ValidPlan(p)
  {
    RunEvents(p, source, clock, AllWindows(p)) + Finish(p, Ledger(p, source, AllWindows(p)))
  }

  /** The outcome of the job: a fatal configuration error, or the trace of the run. */
  function BackfillSpec(cfg: Config, source: seq<Row>, clock: nat -> nat): Result<seq<Event>, ConfigError>
    requires TerminatingSize(cfg)
  {
    match Prepare(cfg)
    case Err(e) => Err(e)
    case Ok(p) => Ok(Run(p, source, clock))
  }

  /** The trace over `done + [w]` is the trace over `done` followed by the events of `w`. */
  lemma RunEventsStep(p: Plan, source: seq<Row>, clock: nat -> nat, done: seq<Window>, w: Window)
    requires ValidWindows(done) && Valid(w.start) && Valid(w.end)
    ensures ValidWindows(done + [w])
    ensures RunEvents(p, source, clock, done + [w]) ==
      RunEvents(p, source, clock, done) + WindowEvents(p, source, w, clock(|done|))
  {
    assert (done + [w])[..|done|] == done;
  }

  /** The ledger over `done + [w]` is the ledger over `done` followed by the counts of `w`. */
  lemma LedgerStep(p: Plan, source: seq<Row>, done: seq<Window>, w: Window)
    ensures Ledger(p, source, done + [w]) == Ledger(p, source, done) + BatchCounts(p, source, w)
  {
    assert (done + [w])[..|done|] == done;
  }

  /**
   * The body of the loop for the window [start, end): query, and when rows come back stage
   * them, count them by date when count tracking is on, publish and remove the local file.
   */
  method ExportWindow(p: Plan, source: seq<Row>, start: Date, end: Date, epoch: nat,
                      events: seq<Event>, countLedger: seq<DailyCount>)
    returns (events': seq<Event>, countLedger': seq<DailyCount>)
    requires Valid(start) && Valid(end)
    ensures events' == events + WindowEvents(p, source, Window(start, end), epoch)
    ensures countLedger' == countLedger + BatchCounts(p, source, Window(start, end))
  {
    var startText := Format(start);
    var endText := Format(end);
    var csvName := LocalFileName(startText, endText, epoch);
    var query := SqlQuery(p.table, p.column, startText, endText, p.queryParam);
    var rows := Extract(source, start, end);
    var emitted := [Queried(Window(start, end), query, |rows|)];
    countLedger' := countLedger;
    if |rows| != 0 {
      var staged := StagedRows(csvName, rows);
      if p.countOn {
        countLedger' := countLedger' + GroupByDate(rows);
      }
      var key := ObjectKey(p.path, startText, endText, epoch, |rows|);
      emitted := emitted + [staged, Published(csvName, p.bucket, key, p.credentials), Removed(csvName)];
    }
    events' := events + emitted;
  }

  /** After the loop: the per-date sum of the ledger is published when it is not empty. */
  method PublishCounts(p: Plan, countLedger: seq<DailyCount>, events: seq<Event>) returns (events': seq<Event>)
    ensures events' == events + Finish(p, countLedger)
  {
    events' := events;
    if p.countOn {
      var finalCounts := SumByDate(countLedger);
      if |finalCounts| != 0 {
        events' := events' + [StagedCounts(p.countFileName, finalCounts),
                              Published(p.countFileName, p.bucket, CountKey(p.path, p.countFileName), p.credentials),
                              Removed(p.countFileName)];
      }
    }
  }

  /**
   * The state of the batch loop: the windows visited so far, `done`, followed by those still
   * ahead of the cursor, are all the windows, and the trace and the count ledger are those
   * of the windows visited.
   */
  ghost predicate LoopState(p: Plan, source: seq<Row>, clock: nat -> nat, cursor: Date, done: seq<Window>,
                            events: seq<Event>, countLedger: seq<DailyCount>)
    requires ValidPlan(p)
  {
    Valid(cursor) && ValidWindows(done) &&
    AllWindows(p) == done + Windows(cursor, p.end, p.unit, p.size) &&
    events == RunEvents(p, source, clock, done) &&
    countLedger == Ledger(p, source, done)
  }

  /** Before the first pass nothing is visited and nothing is emitted. */
  lemma LoopInit(p: Plan, source: seq<Row>, clock: nat -> nat)
    requires ValidPlan(p)
    ensures LoopState(p, source, clock, p.start, [], [], [])
  {
    assert [] + AllWindows(p) == AllWindows(p);
  }

  /** One pass of the loop body keeps the loop state, with the cursor one step on. */
  lemma LoopStep(p: Plan, source: seq<Row>, clock: nat -> nat, cursor: Date, done: seq<Window>,
                 events: seq<Event>, countLedger: seq<DailyCount>,
                 next: Date, windowEnd: Date, events': seq<Event>, countLedger': seq<DailyCount>)
    requires ValidPlan(p) && LoopState(p, source, clock, cursor, done, events, countLedger)
    requires AtOrBefore(cursor, p.end)
    requires next == Advance(cursor, p.unit, p.size)
    requires windowEnd == if Before(p.end, next) then p.end else next
    requires Valid(windowEnd)
    requires events' == events + WindowEvents(p, source, Window(cursor, windowEnd), clock(|done|))
    requires countLedger' == countLedger + BatchCounts(p, source, Window(cursor, windowEnd))
    ensures Ordinal(cursor) < Ordinal(next)
    ensures LoopState(p, source, clock, next, done + [Window(cursor, windowEnd)], events', countLedger')
  {
    WindowsPrefixStep(p.start, cursor, p.end, p.unit, p.size, done);
    RunEventsStep(p, source, clock, done, Window(cursor, windowEnd));
    LedgerStep(p, source, done, Window(cursor, windowEnd));
  }

  /** Once the cursor is past the end date, the windows visited are all the windows. */
  lemma LoopExit(p: Plan, source: seq<Row>, clock: nat -> nat, cursor: Date, done: seq<Window>,
                 events: seq<Event>, countLedger: seq<DailyCount>)
    requires ValidPlan(p) && LoopState(p, source, clock, cursor, done, events, countLedger)
    requires !AtOrBefore(cursor, p.end)
    ensures events == RunEvents(p, source, clock, AllWindows(p))
    ensures countLedger == Ledger(p, source, AllWindows(p))
  {
    var rest := Windows(cursor, p.end, p.unit, p.size);
    assert rest == [];
    assert done + rest == done;
  }

  /** The batch loop: every window of the range, in order. */
  method ExportWindows(p: Plan, source: seq<Row>, clock: nat -> nat)
    returns (events: seq<Event>, countLedger: seq<DailyCount>)
    requires ValidPlan(p)
    ensures events == RunEvents(p, source, clock, AllWindows(p))
    ensures countLedger == Ledger(p, source, AllWindows(p))
  {
    countLedger := [];
    events := [];
    var cursor := p.start;
    var index: nat := 0;
    ghost var done: seq<Window> := [];
    LoopInit(p, source, clock);
    while AtOrBefore(cursor, p.end)
      invariant index == |done|
      invariant LoopState(p, source, clock, cursor, done, events, countLedger)
      decreases Ordinal(p.end) - Ordinal(cursor)
    {
      var next := Advance(cursor, p.unit, p.size);
      var windowEnd := if Before(p.end, next) then p.end else next;
      var events', countLedger' := ExportWindow(p, source, cursor, windowEnd, clock(index), events, countLedger);
      LoopStep(p, source, clock, cursor, done, events, countLedger, next, windowEnd, events', countLedger');
      events, countLedger := events', countLedger';
      done := done + [Window(cursor, windowEnd)];
      index := index + 1;
      cursor := next;
    }
    LoopExit(p, source, clock, cursor, done, events, countLedger);
  }

  /** The batch loop, then the count file. */
  method RunPlan(p: Plan, source: seq<Row>, clock: nat -> nat) returns (events: seq<Event>)
    requires ValidPlan(p)
    ensures events == Run(p, source, clock)
  {
    var countLedger;
    events, countLedger := ExportWindows(p, source, clock);
    events := PublishCounts(p, countLedger, events);
  }

  /** `main`: defaulting and parsing the settings, then the run. */
  method RunJob(cfg: Config, source: seq<Row>, clock: nat -> nat) returns (r: Result<seq<Event>, ConfigError>)
    requires TerminatingSize(cfg)
    ensures r == BackfillSpec(cfg, source, clock)
  {
    var countOn := CountTracking(cfg.isCountFileRequired);
    var unit := BatchUnit(cfg.batchType);
    var sizeSetting := BatchSize(cfg.batchDaysMonths);
    if sizeSetting.Err? {
      return Err(sizeSetting.error);
    }
    var size: nat := sizeSetting.value;
    var startDate := ParseDate(cfg.startDate);
    if startDate.None? {
      return Err(BadDate(cfg.startDate));
    }
    var endDate := ParseDate(cfg.endDate);
    if endDate.None? {
      return Err(BadDate(cfg.endDate));
    }
    var credentials := SelectCredentials(cfg.iamRole, cfg.accessKeyId, cfg.secretAccessKey);
    var p := Plan(cfg.tableName, cfg.queryParam, cfg.dateColumnName, startDate.value, endDate.value,
                  unit, size, countOn, cfg.countFileName, cfg.bucket, cfg.path, credentials);
    var events := RunPlan(p, source, clock);
    r := Ok(events);
  }
}
