/**
 * The batch windows of one run: the cursor starts at the configured start date and, while
 * it is not after the end date, yields the window `[cursor, min(cursor + step, end))` and
 * then moves forward by the full, unclipped step.
 */
module Windowing {
  import opened Dates

  /** The unit of the configured batch size. */
  datatype Unit = Days | Months

  /** A half-open date range `[start, end)`. */
  datatype Window = Window(start: Date, end: Date)

  /** The cursor advanced by one step of `size` units. */
  function Advance(d: Date, unit: Unit, size: nat): (r: Date)
    requires Valid(d)
    ensures Valid(r)
    ensures size >= 1 ==> Before(d, r)
  {
    match unit
    case Days => AddDays(d, size)
    case Months => AddMonths(d, size)
  }

  /** The end of the window that starts at `cursor`: one step on, clipped to `limit`. */
  function ClippedEnd(cursor: Date, limit: Date, unit: Unit, size: nat): (r: Date)
    requires Valid(cursor)
    ensures Valid(limit) ==> Valid(r)
    ensures AtOrBefore(r, limit) && AtOrBefore(r, Advance(cursor, unit, size))
    ensures r == limit || r == Advance(cursor, unit, size)
  {
    var next := Advance(cursor, unit, size);
    if Before(limit, next) then limit else next
  }

  /**
   * The windows the loop visits from `cursor` on, in order. Every window lies between the
   * cursor and `limit`, and there is one exactly when the cursor is not after `limit`.
   */
  function Windows(cursor: Date, limit: Date, unit: Unit, size: nat): (ws: seq<Window>)
    requires Valid(cursor) && Valid(limit) && size >= 1
    ensures forall i :: 0 <= i < |ws| ==>
      Valid(ws[i].start) && Valid(ws[i].end) &&
      AtOrBefore(cursor, ws[i].start) &&
      AtOrBefore(ws[i].start, ws[i].end) &&
      AtOrBefore(ws[i].end, limit)
    ensures |ws| > 0 <==> AtOrBefore(cursor, limit)
    ensures |ws| > 0 ==> ws[0].start == cursor
    decreases Ordinal(limit) - Ordinal(cursor)
  {
    if Before(limit, cursor) then []
    else
      var next := Advance(cursor, unit, size);
      OrdinalMonotone(cursor, next);
      OrdinalMonotone(cursor, limit);
      [Window(cursor, ClippedEnd(cursor, limit, unit, size))] + Windows(next, limit, unit, size)
  }

  /** A cursor not past `limit` yields its own window, then the windows from the next step. */
  lemma WindowsUnfold(cursor: Date, limit: Date, unit: Unit, size: nat)
    requires Valid(cursor) && Valid(limit) && size >= 1 && AtOrBefore(cursor, limit)
    ensures Windows(cursor, limit, unit, size) ==
      [Window(cursor, ClippedEnd(cursor, limit, unit, size))] + Windows(Advance(cursor, unit, size), limit, unit, size)
  {
  }

  /**
   * When the windows from `start` are `done` followed by the windows from `cursor`, and the
   * cursor is not past `limit`, the prefix grows by the cursor's window and the cursor moves on.
   */
  lemma WindowsPrefixStep(start: Date, cursor: Date, limit: Date, unit: Unit, size: nat, done: seq<Window>)
    requires Valid(start) && Valid(cursor) && Valid(limit) && size >= 1 && AtOrBefore(cursor, limit)
    requires Windows(start, limit, unit, size) == done + Windows(cursor, limit, unit, size)
    ensures Ordinal(cursor) < Ordinal(Advance(cursor, unit, size))
    ensures Windows(start, limit, unit, size) ==
      (done + [Window(cursor, ClippedEnd(cursor, limit, unit, size))]) + Windows(Advance(cursor, unit, size), limit, unit, size)
  {
    var next := Advance(cursor, unit, size);
    OrdinalMonotone(cursor, next);
    var w := Window(cursor, ClippedEnd(cursor, limit, unit, size));
    var rest := Windows(next, limit, unit, size);
    WindowsUnfold(cursor, limit, unit, size);
    ConcatAssociative(done, [w], rest);
  }

  lemma ConcatAssociative(a: seq<Window>, b: seq<Window>, c: seq<Window>)
    ensures a + (b + c) == (a + b) + c
  {
  }

  /** Each window ends one step after its start, or at `limit` when that step would pass it. */
  lemma {:induction false} WindowEnds(cursor: Date, limit: Date, unit: Unit, size: nat, ws: seq<Window>)
    requires Valid(cursor) && Valid(limit) && size >= 1
    requires ws == Windows(cursor, limit, unit, size)
    ensures forall i :: 0 <= i < |ws| ==> ws[i].end == ClippedEnd(ws[i].start, limit, unit, size)
    decreases Ordinal(limit) - Ordinal(cursor)
  {
    if !Before(limit, cursor) {
      var next := Advance(cursor, unit, size);
      OrdinalMonotone(cursor, next);
      OrdinalMonotone(cursor, limit);
      var rest := Windows(next, limit, unit, size);
      WindowEnds(next, limit, unit, size, rest);
      assert ws == [Window(cursor, ClippedEnd(cursor, limit, unit, size))] + rest;
      forall i | 0 < i < |ws| ensures ws[i].end == ClippedEnd(ws[i].start, limit, unit, size) {
        assert ws[i] == rest[i - 1];
      }
    }
  }

  /**
   * The cursor advances by the full step, so each window after the first starts one whole
   * step after the previous one, exactly where that one ended; every window but the last
   * starts before `limit`.
   */
  lemma {:induction false} WindowsContiguous(cursor: Date, limit: Date, unit: Unit, size: nat, ws: seq<Window>)
    requires Valid(cursor) && Valid(limit) && size >= 1
    requires ws == Windows(cursor, limit, unit, size)
    ensures forall i :: 0 <= i < |ws| - 1 ==>
      ws[i + 1].start == Advance(ws[i].start, unit, size) && ws[i].end == ws[i + 1].start &&
      Before(ws[i].start, limit)
    decreases Ordinal(limit) - Ordinal(cursor)
  {
    if !Before(limit, cursor) {
      var next := Advance(cursor, unit, size);
      OrdinalMonotone(cursor, next);
      OrdinalMonotone(cursor, limit);
      var rest := Windows(next, limit, unit, size);
      WindowsContiguous(next, limit, unit, size, rest);
      assert ws == [Window(cursor, ClippedEnd(cursor, limit, unit, size))] + rest;
      if rest != [] {
        assert rest[0].start == next && AtOrBefore(next, limit);
        forall i | 0 < i < |ws| - 1
          ensures ws[i + 1].start == Advance(ws[i].start, unit, size) && ws[i].end == ws[i + 1].start
          ensures Before(ws[i].start, limit)
        {
          assert ws[i + 1] == rest[i] && ws[i] == rest[i - 1];
        }
      }
    }
  }

  /** Window starts strictly increase, so no two windows of a run share a start date. */
  lemma {:induction false} WindowStartsIncrease(cursor: Date, limit: Date, unit: Unit, size: nat, ws: seq<Window>)
    requires Valid(cursor) && Valid(limit) && size >= 1
    requires ws == Windows(cursor, limit, unit, size)
    ensures forall i, j :: 0 <= i < j < |ws| ==> Before(ws[i].start, ws[j].start)
    decreases Ordinal(limit) - Ordinal(cursor)
  {
    if !Before(limit, cursor) {
      var next := Advance(cursor, unit, size);
      OrdinalMonotone(cursor, next);
      OrdinalMonotone(cursor, limit);
      var rest := Windows(next, limit, unit, size);
      WindowStartsIncrease(next, limit, unit, size, rest);
      assert ws == [Window(cursor, ClippedEnd(cursor, limit, unit, size))] + rest;
      forall j | 0 < j < |ws| ensures Before(cursor, ws[j].start) {
        assert ws[j] == rest[j - 1];
        OrdinalMonotone(next, ws[j].start);
        OrdinalMonotone(cursor, ws[j].start);
      }
      forall i, j | 0 < i < j < |ws| ensures Before(ws[i].start, ws[j].start) {
        assert ws[i] == rest[i - 1] && ws[j] == rest[j - 1];
      }
    }
  }

  /**
   * The last window ends at `limit`, and the step from its start passes `limit`, which is
   * what stops the loop.
   */
  lemma {:induction false} LastWindow(cursor: Date, limit: Date, unit: Unit, size: nat, ws: seq<Window>)
    requires Valid(cursor) && Valid(limit) && size >= 1
    requires ws == Windows(cursor, limit, unit, size) && ws != []
    ensures ws[|ws| - 1].end == limit
    ensures Before(limit, Advance(ws[|ws| - 1].start, unit, size))
    decreases Ordinal(limit) - Ordinal(cursor)
  {
    var next := Advance(cursor, unit, size);
    OrdinalMonotone(cursor, next);
    OrdinalMonotone(cursor, limit);
    var rest := Windows(next, limit, unit, size);
    assert ws == [Window(cursor, ClippedEnd(cursor, limit, unit, size))] + rest;
    if rest != [] {
      LastWindow(next, limit, unit, size, rest);
      assert ws[|ws| - 1] == rest[|rest| - 1];
    }
  }

  /**
   * A cursor that lands exactly on the end date yields one last, empty window
   * `[end, end)` and the loop stops after it.
   */
  lemma LandingOnLimit(cursor: Date, limit: Date, unit: Unit, size: nat, ws: seq<Window>, i: nat)
    requires Valid(cursor) && Valid(limit) && size >= 1
    requires ws == Windows(cursor, limit, unit, size)
    requires i < |ws| && ws[i].start == limit
    ensures i == |ws| - 1
    ensures ws[i] == Window(limit, limit)
  {
    WindowsContiguous(cursor, limit, unit, size, ws);
  }

  /** Months, size 1, from 2023-01-01 to 2023-03-10: the last window is clipped. */
  lemma MonthlyExample()
    ensures Windows(Date(2023, 1, 1), Date(2023, 3, 10), Months, 1) ==
      [Window(Date(2023, 1, 1), Date(2023, 2, 1)),
       Window(Date(2023, 2, 1), Date(2023, 3, 1)),
       Window(Date(2023, 3, 1), Date(2023, 3, 10))]
  {
    var limit := Date(2023, 3, 10);
    assert Windows(Date(2023, 4, 1), limit, Months, 1) == [];
    assert Windows(Date(2023, 3, 1), limit, Months, 1) == [Window(Date(2023, 3, 1), limit)];
    assert Windows(Date(2023, 2, 1), limit, Months, 1) ==
      [Window(Date(2023, 2, 1), Date(2023, 3, 1)), Window(Date(2023, 3, 1), limit)];
  }

  /** Days, size 1, from 2023-01-01 to 2023-01-03: the cursor lands on the end date. */
  lemma DailyExample()
    ensures Windows(Date(2023, 1, 1), Date(2023, 1, 3), Days, 1) ==
      [Window(Date(2023, 1, 1), Date(2023, 1, 2)),
       Window(Date(2023, 1, 2), Date(2023, 1, 3)),
       Window(Date(2023, 1, 3), Date(2023, 1, 3))]
  {
    var limit := Date(2023, 1, 3);
    assert Windows(Date(2023, 1, 4), limit, Days, 1) == [];
    assert Windows(Date(2023, 1, 3), limit, Days, 1) == [Window(limit, limit)];
    assert Windows(Date(2023, 1, 2), limit, Days, 1) ==
      [Window(Date(2023, 1, 2), limit), Window(limit, limit)];
  }
}
