/**
 * The duty-status catalogue and the timeline layout of one ELD day
 * (src/components/EldLog.tsx).
 *
 * Timestamps are integer milliseconds; `dayStart` is the day's local midnight,
 * already converted to milliseconds by the caller.  Offsets in hours and pixel
 * positions are exact `real`s.
 */
module EldLog {
  import opened Wrappers

  /**
   * One row of the catalogue: the status key, its row caption and its bar
   * colour.  The caption is the row's `label`; that word is reserved in Dafny.
   */
  datatype Row = Row(key: string, caption: string, color: string)

  /** One continuous period of a single duty status. */
  datatype Segment = Segment(start: int, end: int, status: string, note: string)

  /** The bar drawn for one segment (top-left corner, width, colour, and its `label` as caption). */
  datatype Rect = Rect(x: real, y: int, width: real, color: string, caption: string)

  /** Why a day could not be laid out: the first segment whose status has no row. */
  datatype LayoutError = UnknownStatus(index: nat, status: string)

  /** The catalogue, in display order: OFF, SB, D, ON. */
  const ROWS: seq<Row> := [
    Row("OFF", "Off", "#90a4ae"),
    Row("SB", "Sleeper", "#7e57c2"),
    Row("D", "Driving", "#2e7d32"),
    Row("ON", "On duty", "#f9a825")
  ]

  const HOUR_WIDTH: int := 32
  const ROW_HEIGHT: int := 26
  const PADDING_LEFT: int := 80
  const PADDING_TOP: int := 24
  const HOURS_PER_DAY: int := 24
  const WIDTH: int := PADDING_LEFT + HOUR_WIDTH * HOURS_PER_DAY + 8
  const HEIGHT: int := PADDING_TOP + |ROWS| * ROW_HEIGHT + 8

  /** Milliseconds in one hour. */
  const MS_PER_HOUR: int := 3600000

  /** Narrowest bar drawn, in pixels. */
  const MIN_BAR_WIDTH: real := 2.0

  /** Height of a drawn bar: a row less 8 pixels. */
  const BAR_HEIGHT: int := ROW_HEIGHT - 8

  /** Left and right edges of the 24-hour band, in pixels. */
  const DAY_LEFT: real := PADDING_LEFT as real
  const DAY_RIGHT: real := (PADDING_LEFT + HOURS_PER_DAY * HOUR_WIDTH) as real

  /** The four statuses of the hours-of-service domain, independently of the table. */
  predicate IsKnownStatus(status: string) {
    status == "OFF" || status == "SB" || status == "D" || status == "ON"
  }

  function Min(a: real, b: real): real { if a <= b then a else b }
  function Max(a: real, b: real): real { if a >= b then a else b }

  /**
   * `Array.prototype.findIndex` over a catalogue, looking for `key` from
   * position `from` on: the first matching index, or -1 when none matches.
   */
  function FindIndex(rows: seq<Row>, key: string, from: nat): (r: int)
    requires from <= |rows|
    decreases |rows| - from
    ensures r == -1 || from <= r < |rows|
    ensures r == -1 <==> forall j :: from <= j < |rows| ==> rows[j].key != key
    ensures r != -1 ==> rows[r].key == key && forall j :: from <= j < r ==> rows[j].key != key
  {
    if from == |rows| then -1
    else if rows[from].key == key then from
    else FindIndex(rows, key, from + 1)
  }

  /** The row of a status in the catalogue, or -1 for a status it does not list. */
  function RowIndex(status: string): (r: int)
    ensures -1 <= r < |ROWS|
    ensures r != -1 <==> IsKnownStatus(status)
    ensures r != -1 ==> ROWS[r].key == status
  {
    FindIndex(ROWS, status, 0)
  }

  /** Milliseconds from `a` to `b`, as (possibly negative, possibly fractional) hours. */
  function HoursBetween(a: int, b: int): (h: real)
    ensures h * MS_PER_HOUR as real == (b - a) as real
  {
    (b - a) as real / MS_PER_HOUR as real
  }

  /** `Math.max(0, Math.min(24, h))`: an hour offset clamped to the day. */
  function ClampToDay(h: real): (c: real)
    ensures 0.0 <= c <= HOURS_PER_DAY as real
    ensures 0.0 <= h <= HOURS_PER_DAY as real ==> c == h
    ensures h < 0.0 ==> c == 0.0
    ensures h > HOURS_PER_DAY as real ==> c == HOURS_PER_DAY as real
  {
    Max(0.0, Min(HOURS_PER_DAY as real, h))
  }

  /** Horizontal pixel position of instant `t` on the day that starts at `dayStart`. */
  function BarX(dayStart: int, t: int): (x: real)
    ensures DAY_LEFT <= x <= DAY_RIGHT
  {
    PADDING_LEFT as real + ClampToDay(HoursBetween(dayStart, t)) * HOUR_WIDTH as real
  }

  /** Top of the bar drawn in catalogue row `row`. */
  function BarY(row: int): (y: int)
    ensures 0 <= row < |ROWS| ==>
      PADDING_TOP + row * ROW_HEIGHT < y && y + BAR_HEIGHT < PADDING_TOP + (row + 1) * ROW_HEIGHT
  {
    PADDING_TOP + row * ROW_HEIGHT + 4
  }

  /**
   * The bar of one segment, or None when the status has no row (the source
   * then fails on `ROWS[-1].color`).
   */
  function LayoutSegment(dayStart: int, s: Segment): (r: Option<Rect>)
    ensures r.None? <==> !IsKnownStatus(s.status)
    ensures r.Some? ==>
      && 0 <= RowIndex(s.status) < |ROWS|
      && r.value.y == BarY(RowIndex(s.status))
      && r.value.color == ROWS[RowIndex(s.status)].color
      && r.value.caption == s.note
      && r.value.x == BarX(dayStart, s.start)
      && DAY_LEFT <= r.value.x <= DAY_RIGHT
      && r.value.width >= MIN_BAR_WIDTH
      && (r.value.x + r.value.width <= DAY_RIGHT || r.value.width == MIN_BAR_WIDTH)
      && (BarX(dayStart, s.end) - r.value.x >= MIN_BAR_WIDTH ==>
            r.value.x + r.value.width == BarX(dayStart, s.end))
      && (BarX(dayStart, s.end) - r.value.x < MIN_BAR_WIDTH ==> r.value.width == MIN_BAR_WIDTH)
  {
    var row := RowIndex(s.status);
    var x := BarX(dayStart, s.start);
    var x2 := BarX(dayStart, s.end);
    if row == -1 then None
    else Some(Rect(x, BarY(row), Max(MIN_BAR_WIDTH, x2 - x), ROWS[row].color, s.note))
  }

  /**
   * `segments.map(...)` from index `i` on: every bar in order, or the first
   * segment with an unknown status, which aborts the whole day.
   */
  function LayoutFrom(dayStart: int, segs: seq<Segment>, i: nat): (r: Result<seq<Rect>, LayoutError>)
    requires i <= |segs|
    decreases |segs| - i
    ensures r.Success? <==> forall j :: i <= j < |segs| ==> IsKnownStatus(segs[j].status)
    ensures r.Success? ==>
      && |r.value| == |segs| - i
      && forall j :: i <= j < |segs| ==> LayoutSegment(dayStart, segs[j]) == Some(r.value[j - i])
    ensures r.Failure? ==>
      && i <= r.error.index < |segs|
      && r.error.status == segs[r.error.index].status
      && !IsKnownStatus(r.error.status)
      && forall j :: i <= j < r.error.index ==> IsKnownStatus(segs[j].status)
  {
    if i == |segs| then Success([])
    else
      match LayoutSegment(dayStart, segs[i])
      case None => Failure(UnknownStatus(i, segs[i].status))
      case Some(rect) =>
        match LayoutFrom(dayStart, segs, i + 1)
        case Failure(e) => Failure(e)
        case Success(rest) => Success([rect] + rest)
  }

  /** The bars of a whole day, one per segment in input order. */
  function Layout(dayStart: int, segs: seq<Segment>): (r: Result<seq<Rect>, LayoutError>)
    ensures r.Success? <==> forall j :: 0 <= j < |segs| ==> IsKnownStatus(segs[j].status)
    ensures r.Success? ==>
      && |r.value| == |segs|
      && forall j :: 0 <= j < |segs| ==> LayoutSegment(dayStart, segs[j]) == Some(r.value[j])
    ensures r.Failure? ==>
      && r.error.index < |segs|
      && r.error.status == segs[r.error.index].status
      && !IsKnownStatus(r.error.status)
      && forall j :: 0 <= j < r.error.index ==> IsKnownStatus(segs[j].status)
  {
    LayoutFrom(dayStart, segs, 0)
  }

  // ---- Properties of the catalogue ----

  /** The table lists OFF, SB, D, ON in that order, so each status has its own row. */
  lemma CatalogueOrder()
    ensures RowIndex("OFF") == 0 && RowIndex("SB") == 1 && RowIndex("D") == 2 && RowIndex("ON") == 3
  {
  }

  /** Two statuses that share a row are the same status. */
  lemma RowIndexInjective(a: string, b: string)
    requires RowIndex(a) != -1 && RowIndex(a) == RowIndex(b)
    ensures a == b
  {
  }

  // ---- Properties of the horizontal axis ----

  /** A later instant never lands to the left of an earlier one on the same day. */
  lemma BarXMonotone(dayStart: int, t1: int, t2: int)
    requires t1 <= t2
    ensures BarX(dayStart, t1) <= BarX(dayStart, t2)
  {
    assert HoursBetween(dayStart, t1) <= HoursBetween(dayStart, t2);
  }

  /** An instant `h` whole hours after midnight, within the day, sits on hour line `h`. */
  lemma BarXAtWholeHour(dayStart: int, h: int)
    requires 0 <= h <= HOURS_PER_DAY
    ensures BarX(dayStart, dayStart + h * MS_PER_HOUR) == (PADDING_LEFT + h * HOUR_WIDTH) as real
  {
    assert HoursBetween(dayStart, dayStart + h * MS_PER_HOUR) == h as real;
  }

  /** Instants at or before midnight map to the left edge, at or after the next midnight to the right edge. */
  lemma BarXOutsideDay(dayStart: int, t: int)
    ensures t <= dayStart ==> BarX(dayStart, t) == DAY_LEFT
    ensures t >= dayStart + HOURS_PER_DAY * MS_PER_HOUR ==> BarX(dayStart, t) == DAY_RIGHT
  {
    if t <= dayStart {
      assert HoursBetween(dayStart, t) <= 0.0;
    }
    if t >= dayStart + HOURS_PER_DAY * MS_PER_HOUR {
      assert HoursBetween(dayStart, t) >= HOURS_PER_DAY as real;
    }
  }

  // ---- Properties of one bar ----

  /** Each row's bar lies strictly between the separator above the row and the one below it. */
  lemma BarInsideRowBand(row: int)
    requires 0 <= row < |ROWS|
    ensures PADDING_TOP + row * ROW_HEIGHT < BarY(row)
    ensures BarY(row) + BAR_HEIGHT < PADDING_TOP + (row + 1) * ROW_HEIGHT
    ensures BarY(row) in {28, 54, 80, 106}
  {
  }

  // ---- Properties of a whole day ----

  /** A day lays out exactly when every segment's status is known. */
  lemma LayoutSucceedsIffKnown(dayStart: int, segs: seq<Segment>)
    ensures Layout(dayStart, segs).Success? <==> forall j :: 0 <= j < |segs| ==> IsKnownStatus(segs[j].status)
  {
  }

  /**
   * A laid-out day has one bar per segment, in input order, each labelled
   * with its segment's note, inside the day band, in its status row, at
   * least MIN_BAR_WIDTH wide.
   */
  lemma LayoutShape(dayStart: int, segs: seq<Segment>)
    requires forall j :: 0 <= j < |segs| ==> IsKnownStatus(segs[j].status)
    ensures |Layout(dayStart, segs).value| == |segs|
    ensures forall j :: 0 <= j < |segs| ==>
      var rect := Layout(dayStart, segs).value[j];
      && rect.caption == segs[j].note
      && DAY_LEFT <= rect.x <= DAY_RIGHT
      && rect.width >= MIN_BAR_WIDTH
      && rect.y == BarY(RowIndex(segs[j].status))
      && rect.y in {28, 54, 80, 106}
      && rect.color == ROWS[RowIndex(segs[j].status)].color
  {
    var rects := Layout(dayStart, segs).value;
    forall j | 0 <= j < |segs|
      ensures rects[j].y in {28, 54, 80, 106}
    {
      assert LayoutSegment(dayStart, segs[j]) == Some(rects[j]);
      BarInsideRowBand(RowIndex(segs[j].status));
    }
  }

  /** Segments given in chronological order of start produce bars ordered left to right. */
  lemma LayoutOrdersBars(dayStart: int, segs: seq<Segment>)
    requires forall j :: 0 <= j < |segs| ==> IsKnownStatus(segs[j].status)
    requires forall i, j :: 0 <= i < j < |segs| ==> segs[i].start <= segs[j].start
    ensures forall i, j :: 0 <= i < j < |segs| ==>
      Layout(dayStart, segs).value[i].x <= Layout(dayStart, segs).value[j].x
  {
    var rects := Layout(dayStart, segs).value;
    forall i, j | 0 <= i < j < |segs|
      ensures rects[i].x <= rects[j].x
    {
      assert LayoutSegment(dayStart, segs[i]) == Some(rects[i]);
      assert LayoutSegment(dayStart, segs[j]) == Some(rects[j]);
      BarXMonotone(dayStart, segs[i].start, segs[j].start);
    }
  }

  /** A day without segments lays out to no bars and no error. */
  lemma LayoutEmptyDay(dayStart: int)
    ensures Layout(dayStart, []) == Success([])
  {
  }

  // ---- Worked scenarios ----

  /** Driving from midnight to 08:00: x = 80, width = 8 hours = 256, row D at y = 80. */
  lemma ScenarioMorningDrive(dayStart: int)
    ensures Layout(dayStart, [Segment(dayStart, dayStart + 8 * MS_PER_HOUR, "D", "Drive")])
         == Success([Rect(80.0, 80, 256.0, "#2e7d32", "Drive")])
  {
    var s := Segment(dayStart, dayStart + 8 * MS_PER_HOUR, "D", "Drive");
    BarXAtWholeHour(dayStart, 0);
    BarXAtWholeHour(dayStart, 8);
    CatalogueOrder();
    assert LayoutSegment(dayStart, s) == Some(Rect(80.0, 80, 256.0, "#2e7d32", "Drive"));
    assert LayoutFrom(dayStart, [s], 1) == Success([]);
    assert [s][0] == s;
    assert [Rect(80.0, 80, 256.0, "#2e7d32", "Drive")] + [] == [Rect(80.0, 80, 256.0, "#2e7d32", "Drive")];
  }

  /** A segment that ended before midnight collapses to a minimum-width bar at the left edge. */
  lemma ScenarioBeforeDay(dayStart: int, note: string)
    ensures Layout(dayStart, [Segment(dayStart - 3 * MS_PER_HOUR, dayStart - MS_PER_HOUR, "OFF", note)])
         == Success([Rect(DAY_LEFT, 28, MIN_BAR_WIDTH, "#90a4ae", note)])
  {
    var s := Segment(dayStart - 3 * MS_PER_HOUR, dayStart - MS_PER_HOUR, "OFF", note);
    BarXOutsideDay(dayStart, s.start);
    BarXOutsideDay(dayStart, s.end);
    CatalogueOrder();
    assert LayoutSegment(dayStart, s) == Some(Rect(DAY_LEFT, 28, MIN_BAR_WIDTH, "#90a4ae", note));
    assert LayoutFrom(dayStart, [s], 1) == Success([]);
    assert [s][0] == s;
    assert [Rect(DAY_LEFT, 28, MIN_BAR_WIDTH, "#90a4ae", note)] + [] == [Rect(DAY_LEFT, 28, MIN_BAR_WIDTH, "#90a4ae", note)];
  }

  /** A segment from 20:00 to 02:00 the next day is cut off at the right edge of the day. */
  lemma ScenarioPastMidnight(dayStart: int, note: string)
    ensures Layout(dayStart, [Segment(dayStart + 20 * MS_PER_HOUR, dayStart + 26 * MS_PER_HOUR, "SB", note)])
         == Success([Rect(720.0, 54, 128.0, "#7e57c2", note)])
  {
    var s := Segment(dayStart + 20 * MS_PER_HOUR, dayStart + 26 * MS_PER_HOUR, "SB", note);
    BarXAtWholeHour(dayStart, 20);
    BarXOutsideDay(dayStart, s.end);
    CatalogueOrder();
    assert LayoutSegment(dayStart, s) == Some(Rect(720.0, 54, 128.0, "#7e57c2", note));
    assert LayoutFrom(dayStart, [s], 1) == Success([]);
    assert [s][0] == s;
    assert [Rect(720.0, 54, 128.0, "#7e57c2", note)] + [] == [Rect(720.0, 54, 128.0, "#7e57c2", note)];
  }

  /** An unknown status in second place aborts the day, naming that segment. */
  lemma ScenarioUnknownStatus(dayStart: int)
    ensures Layout(dayStart, [Segment(dayStart, dayStart + MS_PER_HOUR, "ON", ""),
                              Segment(dayStart + MS_PER_HOUR, dayStart + 2 * MS_PER_HOUR, "XX", "")])
         == Failure(UnknownStatus(1, "XX"))
  {
    var segs := [Segment(dayStart, dayStart + MS_PER_HOUR, "ON", ""),
                 Segment(dayStart + MS_PER_HOUR, dayStart + 2 * MS_PER_HOUR, "XX", "")];
    assert !IsKnownStatus("XX");
    assert LayoutSegment(dayStart, segs[1]).None?;
    assert LayoutFrom(dayStart, segs, 1) == Failure(UnknownStatus(1, "XX"));
    assert LayoutSegment(dayStart, segs[0]).Some?;
  }
}
