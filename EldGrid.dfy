/**
 * The static geometry of the ELD chart (src/components/EldLog.tsx): hour
 * gridlines, row captions and separators, hour ticks, and the canvas that
 * holds them together with the bars of a laid-out day.
 */
module EldGrid {
  import opened Wrappers
  import opened EldLog

  /** A straight line from (x1, y1) to (x2, y2). */
  datatype Line = Line(x1: int, y1: int, x2: int, y2: int)

  /** A text drawn with its baseline starting at (x, y). */
  datatype Caption = Caption(x: int, y: int, text: string)

  /** The label of one hour tick: the hour it names and where it is drawn. */
  datatype Tick = Tick(hour: int, x: int, y: int)

  /** Bottom edge of the four status rows. */
  const GRID_BOTTOM: int := PADDING_TOP + |ROWS| * ROW_HEIGHT

  /** The hours that carry a tick label. */
  const TICK_HOURS: seq<int> := [0, 4, 8, 12, 16, 20, 24]

  /** Baseline of the tick labels, above the grid. */
  const TICK_Y: int := 16

  /** The vertical gridline at hour `h`, spanning all rows. */
  function HourLine(h: int): Line {
    Line(PADDING_LEFT + h * HOUR_WIDTH, PADDING_TOP, PADDING_LEFT + h * HOUR_WIDTH, GRID_BOTTOM)
  }

  /** `[...Array(25).keys()].map(...)`: one gridline per hour boundary 0..24. */
  function HourLines(): (ls: seq<Line>)
    ensures |ls| == HOURS_PER_DAY + 1
    ensures forall h :: 0 <= h < |ls| ==>
      ls[h].x1 == ls[h].x2 && ls[h].y1 == PADDING_TOP && ls[h].y2 == GRID_BOTTOM
    ensures ls[0].x1 == PADDING_LEFT
    ensures forall h :: 0 <= h < HOURS_PER_DAY ==> ls[h + 1].x1 == ls[h].x1 + HOUR_WIDTH
  {
    seq(HOURS_PER_DAY + 1, h => HourLine(h))
  }

  /** The separator under catalogue row `i`, across the whole day band. */
  function Separator(i: int): Line {
    Line(PADDING_LEFT, PADDING_TOP + (i + 1) * ROW_HEIGHT,
         PADDING_LEFT + HOURS_PER_DAY * HOUR_WIDTH, PADDING_TOP + (i + 1) * ROW_HEIGHT)
  }

  /** One separator per catalogue row, in catalogue order. */
  function Separators(): (ls: seq<Line>)
    ensures |ls| == |ROWS|
    ensures forall i :: 0 <= i < |ls| ==>
      && ls[i].y1 == ls[i].y2 == PADDING_TOP + (i + 1) * ROW_HEIGHT
      && ls[i].x1 as real == DAY_LEFT && ls[i].x2 as real == DAY_RIGHT
  {
    seq(|ROWS|, i => Separator(i))
  }

  /** The caption of each catalogue row, left of the grid. */
  function RowCaptions(): (cs: seq<Caption>)
    ensures |cs| == |ROWS|
    ensures forall i :: 0 <= i < |cs| ==>
      && cs[i].text == ROWS[i].caption
      && PADDING_TOP + i * ROW_HEIGHT < cs[i].y < PADDING_TOP + (i + 1) * ROW_HEIGHT
      && cs[i].x < PADDING_LEFT
  {
    seq(|ROWS|, i requires 0 <= i < |ROWS| => Caption(8, PADDING_TOP + i * ROW_HEIGHT + ROW_HEIGHT - 8, ROWS[i].caption))
  }

  /** Tick labels, each drawn 6 pixels left of its hour line. */
  function Ticks(): (ts: seq<Tick>)
    ensures |ts| == |TICK_HOURS|
    ensures forall k :: 0 <= k < |ts| ==>
      && ts[k].hour == TICK_HOURS[k]
      && ts[k].x == HourLine(ts[k].hour).x1 - 6
      && ts[k].y < PADDING_TOP
  {
    seq(|TICK_HOURS|, k requires 0 <= k < |TICK_HOURS| =>
      Tick(TICK_HOURS[k], PADDING_LEFT + TICK_HOURS[k] * HOUR_WIDTH - 6, TICK_Y))
  }

  /** A line lies on the canvas. */
  predicate OnCanvas(l: Line) {
    0 <= l.x1 <= WIDTH && 0 <= l.x2 <= WIDTH && 0 <= l.y1 <= HEIGHT && 0 <= l.y2 <= HEIGHT
  }

  // ---- Properties ----

  /** The canvas is 856 by 136 pixels. */
  lemma CanvasSize()
    ensures WIDTH == 856 && HEIGHT == 136 && GRID_BOTTOM == 128
  {
  }

  /**
   * 25 vertical lines at x = 80 + 32h for h = 0..24, evenly spaced one hour
   * apart, the first on the left edge and the last on the right edge of the
   * day band, each spanning all four rows.
   */
  lemma HourLinesShape()
    ensures |HourLines()| == 25
    ensures forall h :: 0 <= h < 25 ==>
      var l := HourLines()[h];
      l.x1 == l.x2 == 80 + 32 * h && l.y1 == PADDING_TOP && l.y2 == GRID_BOTTOM
    ensures forall h :: 0 <= h < 24 ==> HourLines()[h + 1].x1 - HourLines()[h].x1 == HOUR_WIDTH
    ensures HourLines()[0].x1 as real == DAY_LEFT && HourLines()[24].x1 as real == DAY_RIGHT
  {
  }

  /**
   * Separator i is horizontal at y = 24 + 26(i + 1), spans exactly from the
   * first to the last hour line, and the last one closes the bottom of the grid.
   */
  lemma SeparatorsShape()
    ensures |Separators()| == |ROWS| == 4
    ensures forall i :: 0 <= i < 4 ==>
      var l := Separators()[i];
      l.y1 == l.y2 == 24 + 26 * (i + 1) && l.x1 == HourLines()[0].x1 && l.x2 == HourLines()[24].x1
    ensures Separators()[3].y1 == HourLines()[0].y2
  {
    HourLinesShape();
  }

  /** Row captions follow catalogue order, each baseline inside its own row. */
  lemma RowCaptionsShape()
    ensures |RowCaptions()| == 4
    ensures RowCaptions()[0].text == "Off" && RowCaptions()[1].text == "Sleeper"
    ensures RowCaptions()[2].text == "Driving" && RowCaptions()[3].text == "On duty"
    ensures forall i :: 0 <= i < 4 ==>
      PADDING_TOP + i * ROW_HEIGHT < RowCaptions()[i].y < PADDING_TOP + (i + 1) * ROW_HEIGHT
  {
  }

  /** An hour gets a tick exactly when it is a multiple of four within the day. */
  lemma TickHoursExact(h: int)
    ensures h in TICK_HOURS <==> 0 <= h <= 24 && h % 4 == 0
  {
    if 0 <= h <= 24 && h % 4 == 0 {
      var k := h / 4;
      assert TICK_HOURS[k] == h;
    }
  }

  /** Tick k names hour 4k and is drawn 6 pixels left of that hour's gridline. */
  lemma TicksOnHourLines()
    ensures |Ticks()| == 7
    ensures forall k :: 0 <= k < 7 ==>
      && Ticks()[k].hour == 4 * k
      && Ticks()[k].x == HourLines()[4 * k].x1 - 6
      && Ticks()[k].y < PADDING_TOP
  {
  }

  /** Every gridline and separator lies on the canvas. */
  lemma GridOnCanvas()
    ensures forall l :: l in HourLines() ==> OnCanvas(l)
    ensures forall l :: l in Separators() ==> OnCanvas(l)
  {
  }

  /** A segment starting h whole hours after midnight starts its bar on hour line h. */
  lemma BarStartsOnHourLine(dayStart: int, s: Segment, h: int)
    requires 0 <= h <= 24 && s.start == dayStart + h * MS_PER_HOUR
    requires IsKnownStatus(s.status)
    ensures LayoutSegment(dayStart, s).value.x == HourLines()[h].x1 as real
  {
    BarXAtWholeHour(dayStart, h);
  }

  /** Every bar of a laid-out day lies on the canvas, inside the grid's rows. */
  lemma BarsOnCanvas(dayStart: int, segs: seq<Segment>)
    requires forall j :: 0 <= j < |segs| ==> IsKnownStatus(segs[j].status)
    ensures forall r :: r in Layout(dayStart, segs).value ==>
      && 0.0 <= r.x && r.x + r.width <= WIDTH as real
      && PADDING_TOP < r.y && r.y + BAR_HEIGHT < GRID_BOTTOM
  {
    var rects := Layout(dayStart, segs).value;
    LayoutShape(dayStart, segs);
    forall r | r in rects
      ensures 0.0 <= r.x && r.x + r.width <= WIDTH as real
      ensures PADDING_TOP < r.y && r.y + BAR_HEIGHT < GRID_BOTTOM
    {
      var j :| 0 <= j < |rects| && rects[j] == r;
      assert LayoutSegment(dayStart, segs[j]) == Some(r);
      BarInsideRowBand(RowIndex(segs[j].status));
    }
  }
}
