/**
 * What a run guarantees, stated over the trace `Backfill.Run` that the method `RunJob`
 * produces: which windows are queried, which produce files, that every row of the date range
 * is exported exactly once, and what the count file holds.
 */
module RunProperties {
  import opened Dates
  import opened Windowing
  import opened Settings
  import opened Naming
  import opened Counting
  import opened Backfill

  /** The rows of the windows `ws`, window after window. */
  function WindowRows(source: seq<Row>, ws: seq<Window>): seq<Row>
  {
    if ws == [] then []
    else WindowRows(source, ws[..|ws| - 1]) + WindowRowsOf(source, ws[|ws| - 1])
  }

  /** The rows staged by the events of a trace, in order. */
  function StagedRowsOf(events: seq<Event>): seq<Row>
  {
    if events == [] then []
    else
      var last := events[|events| - 1];
      StagedRowsOf(events[..|events| - 1]) + (if last.StagedRows? then last.rows else [])
  }

  /** The windows queried by a trace, in order. */
  function QueriesOf(events: seq<Event>): seq<Window>
  {
    if events == [] then []
    else
      var last := events[|events| - 1];
      QueriesOf(events[..|events| - 1]) + (if last.Queried? then [last.window] else [])
  }

  /** The object keys published by a trace, in order. */
  function PublishedKeysOf(events: seq<Event>): seq<string>
  {
    if events == [] then []
    else
      var last := events[|events| - 1];
      PublishedKeysOf(events[..|events| - 1]) + (if last.Published? then [last.key] else [])
  }

  /** The count tables staged by a trace, in order. */
  function CountTablesOf(events: seq<Event>): seq<seq<DailyCount>>
  {
    if events == [] then []
    else
      var last := events[|events| - 1];
      CountTablesOf(events[..|events| - 1]) + (if last.StagedCounts? then [last.counts] else [])
  }

  /** The keys of the windows among `ws` that have rows, in order. */
  function WindowKeys(p: Plan, source: seq<Row>, clock: nat -> nat, ws: seq<Window>): seq<string>
    requires ValidWindows(ws)
  {
    if ws == [] then []
    else
      var last := ws[|ws| - 1];
      WindowKeys(p, source, clock, ws[..|ws| - 1]) +
      (if |WindowRowsOf(source, last)| > 0 then [WindowKey(p, source, last, clock(|ws| - 1))] else [])
  }

  lemma {:induction false} PublishedKeysOfConcat(a: seq<Event>, b: seq<Event>)
    ensures PublishedKeysOf(a + b) == PublishedKeysOf(a) + PublishedKeysOf(b)
    decreases |b|
  {
    if b == [] {
      assert a + b == a;
    } else {
      var ab := a + b;
      assert ab[..|ab| - 1] == a + b[..|b| - 1];
      assert ab[|ab| - 1] == b[|b| - 1];
      PublishedKeysOfConcat(a, b[..|b| - 1]);
    }
  }

  lemma {:induction false} CountTablesOfConcat(a: seq<Event>, b: seq<Event>)
    ensures CountTablesOf(a + b) == CountTablesOf(a) + CountTablesOf(b)
    decreases |b|
  {
    if b == [] {
      assert a + b == a;
    } else {
      var ab := a + b;
      assert ab[..|ab| - 1] == a + b[..|b| - 1];
      assert ab[|ab| - 1] == b[|b| - 1];
      CountTablesOfConcat(a, b[..|b| - 1]);
    }
  }

  lemma {:induction false} StagedRowsOfConcat(a: seq<Event>, b: seq<Event>)
    ensures StagedRowsOf(a + b) == StagedRowsOf(a) + StagedRowsOf(b)
    decreases |b|
  {
    if b == [] {
      assert a + b == a;
    } else {
      var ab := a + b;
      assert ab[..|ab| - 1] == a + b[..|b| - 1];
      assert ab[|ab| - 1] == b[|b| - 1];
      StagedRowsOfConcat(a, b[..|b| - 1]);
    }
  }

  lemma {:induction false} QueriesOfConcat(a: seq<Event>, b: seq<Event>)
    ensures QueriesOf(a + b) == QueriesOf(a) + QueriesOf(b)
    decreases |b|
  {
    if b == [] {
      assert a + b == a;
    } else {
      var ab := a + b;
      assert ab[..|ab| - 1] == a + b[..|b| - 1];
      assert ab[|ab| - 1] == b[|b| - 1];
      QueriesOfConcat(a, b[..|b| - 1]);
    }
  }

  lemma {:induction false} WindowRowsConcat(source: seq<Row>, a: seq<Window>, b: seq<Window>)
    ensures WindowRows(source, a + b) == WindowRows(source, a) + WindowRows(source, b)
    decreases |b|
  {
    if b == [] {
      assert a + b == a;
    } else {
      var ab := a + b;
      assert ab[..|ab| - 1] == a + b[..|b| - 1];
      assert ab[|ab| - 1] == b[|b| - 1];
      WindowRowsConcat(source, a, b[..|b| - 1]);
    }
  }

  lemma OneEvent(e: Event)
    ensures StagedRowsOf([e]) == if e.StagedRows? then e.rows else []
    ensures QueriesOf([e]) == if e.Queried? then [e.window] else []
    ensures PublishedKeysOf([e]) == if e.Published? then [e.key] else []
    ensures CountTablesOf([e]) == if e.StagedCounts? then [e.counts] else []
  {
    assert [e][..0] == [];
  }

  lemma ThreeEvents(a: Event, b: Event, c: Event)
    ensures StagedRowsOf([a, b, c]) == StagedRowsOf([a]) + StagedRowsOf([b]) + StagedRowsOf([c])
    ensures QueriesOf([a, b, c]) == QueriesOf([a]) + QueriesOf([b]) + QueriesOf([c])
  {
    assert [a, b, c] == [a] + [b] + [c];
    StagedRowsOfConcat([a], [b]);
    StagedRowsOfConcat([a] + [b], [c]);
    QueriesOfConcat([a], [b]);
    QueriesOfConcat([a] + [b], [c]);
  }

  lemma ThreeEventsOutputs(a: Event, b: Event, c: Event)
    ensures PublishedKeysOf([a, b, c]) == PublishedKeysOf([a]) + PublishedKeysOf([b]) + PublishedKeysOf([c])
    ensures CountTablesOf([a, b, c]) == CountTablesOf([a]) + CountTablesOf([b]) + CountTablesOf([c])
  {
    assert [a, b, c] == [a] + [b] + [c];
    PublishedKeysOfConcat([a], [b]);
    PublishedKeysOfConcat([a] + [b], [c]);
    CountTablesOfConcat([a], [b]);
    CountTablesOfConcat([a] + [b], [c]);
  }

  /** Staging, publishing and removing a file: its rows, its key, no query, no count table. */
  lemma ArtifactFolds(file: string, rows: seq<Row>, bucket: string, key: string, credentials: Credentials)
    ensures var events := [StagedRows(file, rows), Published(file, bucket, key, credentials), Removed(file)];
      StagedRowsOf(events) == rows && QueriesOf(events) == [] &&
      PublishedKeysOf(events) == [key] && CountTablesOf(events) == []
  {
    var a, b, c := StagedRows(file, rows), Published(file, bucket, key, credentials), Removed(file);
    ThreeEvents(a, b, c);
    ThreeEventsOutputs(a, b, c);
    OneEvent(a);
    OneEvent(b);
    OneEvent(c);
  }

  /** Staging, publishing and removing a window's file: its rows, its key, no query. */
  lemma ArtifactParts(p: Plan, source: seq<Row>, w: Window, epoch: nat)
    requires Valid(w.start) && Valid(w.end)
    ensures StagedRowsOf(WindowArtifacts(p, source, w, epoch)) == WindowRowsOf(source, w)
    ensures QueriesOf(WindowArtifacts(p, source, w, epoch)) == []
    ensures PublishedKeysOf(WindowArtifacts(p, source, w, epoch)) == [WindowKey(p, source, w, epoch)]
    ensures CountTablesOf(WindowArtifacts(p, source, w, epoch)) == []
  {
    ArtifactFolds(WindowFile(w, epoch), WindowRowsOf(source, w), p.bucket, WindowKey(p, source, w, epoch), p.credentials);
  }

  /** The one window's events query that window once. */
  lemma WindowEventsQuery(p: Plan, source: seq<Row>, w: Window, epoch: nat)
    requires Valid(w.start) && Valid(w.end)
    ensures QueriesOf(WindowEvents(p, source, w, epoch)) == [w]
  {
    WindowEventsParts(p, source, w, epoch);
  }

  /** A query followed by events that query nothing: one query, and the rest's outputs. */
  lemma QueryFirst(w: Window, query: string, n: nat, rest: seq<Event>, rows: seq<Row>, keys: seq<string>)
    requires StagedRowsOf(rest) == rows && QueriesOf(rest) == []
    requires PublishedKeysOf(rest) == keys && CountTablesOf(rest) == []
    ensures var events := [Queried(w, query, n)] + rest;
      QueriesOf(events) == [w] && StagedRowsOf(events) == rows &&
      PublishedKeysOf(events) == keys && CountTablesOf(events) == []
  {
    var q := Queried(w, query, n);
    OneEvent(q);
    StagedRowsOfConcat([q], rest);
    QueriesOfConcat([q], rest);
    PublishedKeysOfConcat([q], rest);
    CountTablesOfConcat([q], rest);
  }

  /** The one window's events: its query, and its rows and key only when it has rows. */
  lemma WindowEventsParts(p: Plan, source: seq<Row>, w: Window, epoch: nat)
    requires Valid(w.start) && Valid(w.end)
    ensures QueriesOf(WindowEvents(p, source, w, epoch)) == [w]
    ensures StagedRowsOf(WindowEvents(p, source, w, epoch)) == WindowRowsOf(source, w)
    ensures PublishedKeysOf(WindowEvents(p, source, w, epoch)) ==
      if |WindowRowsOf(source, w)| > 0 then [WindowKey(p, source, w, epoch)] else []
    ensures CountTablesOf(WindowEvents(p, source, w, epoch)) == []
  {
    var rows := WindowRowsOf(source, w);
    if |rows| == 0 {
      QueryFirst(w, WindowQuery(p, w), 0, [], rows, []);
    } else {
      ArtifactParts(p, source, w, epoch);
      QueryFirst(w, WindowQuery(p, w), |rows|, WindowArtifacts(p, source, w, epoch), rows, [WindowKey(p, source, w, epoch)]);
    }
  }

  /** The window loop publishes exactly the keys of the windows with rows, in order. */
  lemma {:induction false} PublishedKeysOfWindows(p: Plan, source: seq<Row>, clock: nat -> nat, ws: seq<Window>)
    requires ValidWindows(ws)
    ensures PublishedKeysOf(RunEvents(p, source, clock, ws)) == WindowKeys(p, source, clock, ws)
    ensures CountTablesOf(RunEvents(p, source, clock, ws)) == []
    decreases |ws|
  {
    if ws != [] {
      var init, last := ws[..|ws| - 1], ws[|ws| - 1];
      PublishedKeysOfWindows(p, source, clock, init);
      PublishedKeysOfConcat(RunEvents(p, source, clock, init), WindowEvents(p, source, last, clock(|ws| - 1)));
      CountTablesOfConcat(RunEvents(p, source, clock, init), WindowEvents(p, source, last, clock(|ws| - 1)));
      WindowEventsParts(p, source, last, clock(|ws| - 1));
    }
  }

  /** The trace of the windows stages exactly their rows, window after window. */
  lemma {:induction false} StagedRowsOfWindows(p: Plan, source: seq<Row>, clock: nat -> nat, ws: seq<Window>)
    requires ValidWindows(ws)
    ensures StagedRowsOf(RunEvents(p, source, clock, ws)) == WindowRows(source, ws)
    decreases |ws|
  {
    if ws != [] {
      var init, last := ws[..|ws| - 1], ws[|ws| - 1];
      StagedRowsOfWindows(p, source, clock, init);
      StagedRowsOfConcat(RunEvents(p, source, clock, init), WindowEvents(p, source, last, clock(|ws| - 1)));
      WindowEventsParts(p, source, last, clock(|ws| - 1));
    }
  }

  /** A sequence that is not empty is its front followed by its last element. */
  lemma SplitLast(ws: seq<Window>)
    requires ws != []
    ensures ws[..|ws| - 1] + [ws[|ws| - 1]] == ws
  {
  }

  lemma QueriesStep(before: seq<Event>, step: seq<Event>, init: seq<Window>, last: Window)
    requires QueriesOf(before) == init && QueriesOf(step) == [last]
    ensures QueriesOf(before + step) == init + [last]
  {
    QueriesOfConcat(before, step);
  }

  /** The trace of the windows queries each window once, in order. */
  lemma {:induction false} QueriesOfWindows(p: Plan, source: seq<Row>, clock: nat -> nat, ws: seq<Window>)
    requires ValidWindows(ws)
    ensures QueriesOf(RunEvents(p, source, clock, ws)) == ws
    decreases |ws|
  {
    if ws != [] {
      var init, last := ws[..|ws| - 1], ws[|ws| - 1];
      QueriesOfWindows(p, source, clock, init);
      WindowEventsQuery(p, source, last, clock(|ws| - 1));
      QueriesStep(RunEvents(p, source, clock, init), WindowEvents(p, source, last, clock(|ws| - 1)), init, last);
      SplitLast(ws);
    }
  }

  lemma WindowRowsFirst(source: seq<Row>, w: Window, rest: seq<Window>)
    ensures WindowRows(source, [w] + rest) == WindowRowsOf(source, w) + WindowRows(source, rest)
  {
    WindowRowsConcat(source, [w], rest);
    assert [w][..0] == [];
  }

  /** The rows of one day in `[start, end)` are those in `[start, mid)` and in `[mid, end)`. */
  lemma OccurrencesSplit(source: seq<Row>, start: Date, mid: Date, end: Date, d: Date)
    requires AtOrBefore(start, mid) && AtOrBefore(mid, end)
    ensures Occurrences(Extract(source, start, end), d) ==
      Occurrences(Extract(source, start, mid), d) + Occurrences(Extract(source, mid, end), d)
  {
    OccurrencesInRange(source, start, end, d);
    OccurrencesInRange(source, start, mid, d);
    OccurrencesInRange(source, mid, end, d);
  }

  /** The windows from `cursor` partition the rows of `[cursor, limit)`. */
  lemma {:induction false} WindowsCoverRange(source: seq<Row>, cursor: Date, limit: Date, unit: Unit, size: nat)
    requires Valid(cursor) && Valid(limit) && size >= 1
    ensures multiset(WindowRows(source, Windows(cursor, limit, unit, size))) == multiset(Extract(source, cursor, limit))
    decreases Ordinal(limit) - Ordinal(cursor)
  {
    if Before(limit, cursor) {
      ExtractEmptyRange(source, cursor, limit);
    } else {
      var next := Advance(cursor, unit, size);
      OrdinalMonotone(cursor, next);
      var w := Window(cursor, ClippedEnd(cursor, limit, unit, size));
      var rest := Windows(next, limit, unit, size);
      WindowsUnfold(cursor, limit, unit, size);
      WindowRowsFirst(source, w, rest);
      if Before(limit, next) {
        assert rest == [];
      } else {
        WindowsCoverRange(source, next, limit, unit, size);
        ExtractSplit(source, cursor, next, limit);
      }
    }
  }

  /** The same partition, date by date. */
  lemma {:induction false} WindowsOccurrences(source: seq<Row>, cursor: Date, limit: Date, unit: Unit, size: nat, d: Date)
    requires Valid(cursor) && Valid(limit) && size >= 1
    ensures Occurrences(WindowRows(source, Windows(cursor, limit, unit, size)), d) ==
      Occurrences(Extract(source, cursor, limit), d)
    decreases Ordinal(limit) - Ordinal(cursor)
  {
    if Before(limit, cursor) {
      ExtractEmptyRange(source, cursor, limit);
    } else {
      var next := Advance(cursor, unit, size);
      OrdinalMonotone(cursor, next);
      var w := Window(cursor, ClippedEnd(cursor, limit, unit, size));
      var rest := Windows(next, limit, unit, size);
      WindowsUnfold(cursor, limit, unit, size);
      WindowRowsFirst(source, w, rest);
      OccurrencesConcat(WindowRowsOf(source, w), WindowRows(source, rest), d);
      if Before(limit, next) {
        assert rest == [];
      } else {
        WindowsOccurrences(source, next, limit, unit, size, d);
        OccurrencesSplit(source, cursor, next, limit, d);
      }
    }
  }

  /** Staging, publishing and removing a count table: the table, its key, nothing else. */
  lemma CountFileFolds(file: string, counts: seq<DailyCount>, bucket: string, key: string, credentials: Credentials)
    ensures var events := [StagedCounts(file, counts), Published(file, bucket, key, credentials), Removed(file)];
      StagedRowsOf(events) == [] && QueriesOf(events) == [] &&
      PublishedKeysOf(events) == [key] && CountTablesOf(events) == [counts]
  {
    var a, b, c := StagedCounts(file, counts), Published(file, bucket, key, credentials), Removed(file);
    ThreeEvents(a, b, c);
    ThreeEventsOutputs(a, b, c);
    OneEvent(a);
    OneEvent(b);
    OneEvent(c);
  }

  /** The count file's events stage no rows and query nothing; they publish the count key. */
  lemma CountFileParts(p: Plan, acc: seq<DailyCount>)
    ensures StagedRowsOf(Finish(p, acc)) == []
    ensures QueriesOf(Finish(p, acc)) == []
    ensures PublishedKeysOf(Finish(p, acc)) == if Finish(p, acc) == [] then [] else [CountKey(p.path, p.countFileName)]
    ensures CountTablesOf(Finish(p, acc)) == if Finish(p, acc) == [] then [] else [SumByDate(acc)]
  {
    CountFileFolds(p.countFileName, SumByDate(acc), p.bucket, CountKey(p.path, p.countFileName), p.credentials);
  }

  /**
   * Every row of the date range `[start, end)` is staged exactly once over the run, and no
   * other row is: the windows neither overlap nor leave gaps.
   */
  lemma RowsExportedOnce(p: Plan, source: seq<Row>, clock: nat -> nat)
    requires ValidPlan(p)
    ensures multiset(StagedRowsOf(Run(p, source, clock))) == multiset(Extract(source, p.start, p.end))
  {
    var ws := AllWindows(p);
    StagedRowsOfConcat(RunEvents(p, source, clock, ws), Finish(p, Ledger(p, source, ws)));
    CountFileParts(p, Ledger(p, source, ws));
    StagedRowsOfWindows(p, source, clock, ws);
    WindowsCoverRange(source, p.start, p.end, p.unit, p.size);
    assert StagedRowsOf(Run(p, source, clock)) == WindowRows(source, ws);
  }

  /** Every window is queried exactly once and in order, a window without rows included. */
  lemma EveryWindowQueried(p: Plan, source: seq<Row>, clock: nat -> nat)
    requires ValidPlan(p)
    ensures QueriesOf(Run(p, source, clock)) == AllWindows(p)
  {
    var ws := AllWindows(p);
    QueriesOfConcat(RunEvents(p, source, clock, ws), Finish(p, Ledger(p, source, ws)));
    CountFileParts(p, Ledger(p, source, ws));
    QueriesOfWindows(p, source, clock, ws);
    assert QueriesOf(Run(p, source, clock)) == QueriesOf(RunEvents(p, source, clock, ws)) + [];
  }

  lemma PositiveConcat(a: seq<DailyCount>, b: seq<DailyCount>)
    requires Positive(a) && Positive(b)
    ensures Positive(a + b)
  {
    forall i | 0 <= i < |a + b| ensures (a + b)[i].count >= 1 {
      if i >= |a| {
        assert (a + b)[i] == b[i - |a|];
      }
    }
  }

  /** A table of positive counts is empty exactly when its total is 0. */
  lemma {:induction false} PositiveTotal(g: seq<DailyCount>)
    requires Positive(g)
    ensures Total(g) >= |g|
  {
    if g != [] {
      PositiveTotal(g[1..]);
    }
  }

  /** One window's contribution to the ledger counts its rows per date, if tracking is on. */
  lemma BatchCountsOf(p: Plan, source: seq<Row>, w: Window, d: Date)
    ensures Positive(BatchCounts(p, source, w))
    ensures CountOf(BatchCounts(p, source, w), d) == if p.countOn then Occurrences(WindowRowsOf(source, w), d) else 0
    ensures Total(BatchCounts(p, source, w)) == if p.countOn then |WindowRowsOf(source, w)| else 0
  {
    if |WindowRowsOf(source, w)| == 0 {
      assert WindowRowsOf(source, w) == [];
    }
  }

  /**
   * The ledger after the windows `ws` holds, per date, the number of their rows of that date
   * when count tracking is on, and nothing when it is off.
   */
  lemma {:induction false} LedgerCounts(p: Plan, source: seq<Row>, ws: seq<Window>, d: Date)
    ensures Positive(Ledger(p, source, ws))
    ensures CountOf(Ledger(p, source, ws), d) == if p.countOn then Occurrences(WindowRows(source, ws), d) else 0
    ensures Total(Ledger(p, source, ws)) == if p.countOn then |WindowRows(source, ws)| else 0
    decreases |ws|
  {
    if ws != [] {
      var init, last := ws[..|ws| - 1], ws[|ws| - 1];
      var before, batch := Ledger(p, source, init), BatchCounts(p, source, last);
      LedgerCounts(p, source, init, d);
      BatchCountsOf(p, source, last, d);
      PositiveConcat(before, batch);
      CountOfConcat(before, batch, d);
      TotalConcat(before, batch);
      OccurrencesConcat(WindowRows(source, init), WindowRowsOf(source, last), d);
    }
  }

  /** The contents of the count file: the ledger summed per date. */
  function FinalCounts(p: Plan, source: seq<Row>): seq<DailyCount>
    requires ValidPlan(p)
  {
    SumByDate(Ledger(p, source, AllWindows(p)))
  }

  /**
   * The count file lists each date once, in order, with the number of source rows of that
   * date in `[start, end)`; its counts add up to the number of rows exported. With count
   * tracking off it is empty.
   */
  lemma CountsPerDate(p: Plan, source: seq<Row>)
    requires ValidPlan(p)
    ensures Sorted(FinalCounts(p, source)) && Positive(FinalCounts(p, source))
    ensures forall d ::
              CountOf(FinalCounts(p, source), d) ==
              if p.countOn && AtOrBefore(p.start, d) && Before(d, p.end) then Occurrences(source, d) else 0
    ensures Total(FinalCounts(p, source)) == if p.countOn then |Extract(source, p.start, p.end)| else 0
  {
    var ws := AllWindows(p);
    var ledger := Ledger(p, source, ws);
    LedgerCounts(p, source, ws, p.start);
    WindowsCoverRange(source, p.start, p.end, p.unit, p.size);
    assert |WindowRows(source, ws)| == |Extract(source, p.start, p.end)| by {
      assert |multiset(WindowRows(source, ws))| == |multiset(Extract(source, p.start, p.end))|;
    }
    forall d ensures CountOf(FinalCounts(p, source), d) ==
      if p.countOn && AtOrBefore(p.start, d) && Before(d, p.end) then Occurrences(source, d) else 0
    {
      LedgerCounts(p, source, ws, d);
      WindowsOccurrences(source, p.start, p.end, p.unit, p.size, d);
      OccurrencesInRange(source, p.start, p.end, d);
    }
  }

  /**
   * The batch unit and size decide how the range is cut, not what the count file says:
   * two runs that differ only in them produce the same count table.
   */
  lemma BatchingInvariance(p: Plan, q: Plan, source: seq<Row>)
    requires ValidPlan(p) && ValidPlan(q)
    requires q == p.(unit := q.unit, size := q.size)
    ensures FinalCounts(p, source) == FinalCounts(q, source)
  {
    CountsPerDate(p, source);
    CountsPerDate(q, source);
    SortedCountsDetermine(FinalCounts(p, source), FinalCounts(q, source));
  }

  /**
   * The count file is staged, published under `<path><count file name>` and removed exactly
   * when count tracking is on and some source row falls in `[start, end)`.
   */
  lemma CountFile(p: Plan, source: seq<Row>)
    requires ValidPlan(p)
    ensures Finish(p, Ledger(p, source, AllWindows(p))) ==
      if p.countOn && |Extract(source, p.start, p.end)| > 0 then
        [StagedCounts(p.countFileName, FinalCounts(p, source)),
         Published(p.countFileName, p.bucket, CountKey(p.path, p.countFileName), p.credentials),
         Removed(p.countFileName)]
      else []
  {
    CountsPerDate(p, source);
    PositiveTotal(FinalCounts(p, source));
  }

  /** Distinct windows of a run are published under distinct object keys. */
  lemma WindowKeysDistinct(p: Plan, source: seq<Row>, clock: nat -> nat, ws: seq<Window>)
    requires ValidPlan(p) && ws == AllWindows(p)
    ensures forall i, j :: 0 <= i < j < |ws| ==> WindowKey(p, source, ws[i], clock(i)) != WindowKey(p, source, ws[j], clock(j))
  {
    WindowStartsIncrease(p.start, p.end, p.unit, p.size, ws);
    forall i, j | 0 <= i < j < |ws| ensures WindowKey(p, source, ws[i], clock(i)) != WindowKey(p, source, ws[j], clock(j)) {
      var a, b := ws[i], ws[j];
      ParseObjectKeyRoundTrip(p.path, a.start, a.end, clock(i), |WindowRowsOf(source, a)|);
      ParseObjectKeyRoundTrip(p.path, b.start, b.end, clock(j), |WindowRowsOf(source, b)|);
      assert Before(a.start, b.start);
    }
  }

  /** The window that starts on the end date is the last one, empty, and only queried. */
  lemma LandingWindowOnlyQueried(p: Plan, source: seq<Row>, clock: nat -> nat, ws: seq<Window>, i: nat)
    requires ValidPlan(p) && ws == AllWindows(p)
    requires i < |ws| && ws[i].start == p.end
    ensures i == |ws| - 1
    ensures WindowRowsOf(source, ws[i]) == []
    ensures WindowEvents(p, source, ws[i], clock(i)) == [Queried(ws[i], WindowQuery(p, ws[i]), 0)]
  {
    LandingOnLimit(p.start, p.end, p.unit, p.size, ws, i);
    ExtractEmptyRange(source, p.end, p.end);
  }

  /** A start date after the end date: no window, no query, no file. */
  lemma EmptyRangeDoesNothing(p: Plan, source: seq<Row>, clock: nat -> nat)
    requires ValidPlan(p) && Before(p.end, p.start)
    ensures Run(p, source, clock) == []
  {
    assert AllWindows(p) == [];
  }

  /**
   * The objects a run publishes, in order: the key of each window that has rows, then the
   * count key when the count file is written.
   */
  lemma PublishedKeys(p: Plan, source: seq<Row>, clock: nat -> nat)
    requires ValidPlan(p)
    ensures PublishedKeysOf(Run(p, source, clock)) ==
      WindowKeys(p, source, clock, AllWindows(p)) +
      (if p.countOn && |Extract(source, p.start, p.end)| > 0 then [CountKey(p.path, p.countFileName)] else [])
  {
    var ws := AllWindows(p);
    PublishedKeysOfConcat(RunEvents(p, source, clock, ws), Finish(p, Ledger(p, source, ws)));
    PublishedKeysOfWindows(p, source, clock, ws);
    CountFileParts(p, Ledger(p, source, ws));
    CountFile(p, source);
  }

  /**
   * A run stages at most one count table, the final per-date sum, and does so exactly when
   * count tracking is on and the range has rows.
   */
  lemma CountTables(p: Plan, source: seq<Row>, clock: nat -> nat)
    requires ValidPlan(p)
    ensures CountTablesOf(Run(p, source, clock)) ==
      if p.countOn && |Extract(source, p.start, p.end)| > 0 then [FinalCounts(p, source)] else []
  {
    var ws := AllWindows(p);
    CountTablesOfConcat(RunEvents(p, source, clock, ws), Finish(p, Ledger(p, source, ws)));
    PublishedKeysOfWindows(p, source, clock, ws);
    CountFileParts(p, Ledger(p, source, ws));
    CountFile(p, source);
  }
}
