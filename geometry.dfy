/** Geometry of one bar-chart row: the constants of the view, the frames of the title label,
    the bar and the value label, the bar width, and the row's total width used by the fit check.
    Every CGFloat of the view is modelled as an exact `real`. */
module BarGeometry {

  /** Vertical space between rows; also subtracted from the layer width when sizing bars. */
  const Space: real := 40.0
  const BarHeight: real := 40.0
  /** Horizontal gap after the title label and after the bar; also the bottom margin. */
  const ContentSpace: real := 30.0
  /** Left margin of every row (also counted again on the right by the fit check). */
  const XPos: real := 30.0
  /** Extra width added to the measured width of every text label. */
  const LabelPadding: real := 15.0

  /** The preferred frame size of a text layer showing some string in the label font. */
  datatype TextSize = TextSize(width: real, height: real)

  /** One data point of the chart, with the measured sizes of its title text and of the decimal
      text of its count (text measurement happens outside the model). */
  datatype BarEntry = BarEntry(title: string, count: int, titleSize: TextSize, valueSize: TextSize)

  datatype Rect = Rect(x: real, y: real, width: real, height: real) {
    function MaxX(): real { x + width }
    function MaxY(): real { y + height }
  }

  /** A drawn sublayer of the chart: the title text layer, the bar, or the text layer showing
      the count (kept as the number it renders). */
  datatype Layer = TitleLayer(frame: Rect, title: string) | BarLayer(frame: Rect) | ValueLayer(frame: Rect, value: int)

  /** What the layout reads from its surroundings: the width of the chart's main layer and the
      width of the screen. */
  datatype Display = Display(layerWidth: real, screenWidth: real)

  function Abs(r: real): (a: real)
    ensures a >= 0.0 && (a == r || a == -r)
  {
    if r < 0.0 then -r else r
  }

  /** Top edge of the bar of row `index`. */
  function RowY(index: nat): (y: real)
    ensures y >= Space
  {
    Space + index as real * (BarHeight + Space)
  }

  /** Rows follow input order and never overlap: each bar plus the spacing ends before the next. */
  lemma RowsIncrease(i: nat, j: nat)
    requires i < j
    ensures RowY(i) + BarHeight + Space <= RowY(j)
    ensures RowY(i) < RowY(j)
  {
  }

  /** Frame of a text layer placed at (x, y) whose string measures `size`. */
  function TextFrame(x: real, y: real, size: TextSize): Rect {
    Rect(x, y, size.width + LabelPadding, size.height)
  }

  /** A text frame starts at its point and reaches the padding past the measured width and
      exactly the measured height below it. */
  lemma TextFrameEdges(x: real, y: real, size: TextSize)
    ensures TextFrame(x, y, size).x == x && TextFrame(x, y, size).y == y
    ensures TextFrame(x, y, size).MaxX() == x + size.width + LabelPadding
    ensures TextFrame(x, y, size).MaxY() == y + size.height
  {
  }

  /** Frame of a bar of the given width with its top-left corner at (x, y). */
  function BarFrame(x: real, y: real, width: real): Rect {
    Rect(x, y, width, BarHeight)
  }

  /** A bar frame starts at its point, spans the given width and is one bar height tall. */
  lemma BarFrameEdges(x: real, y: real, width: real)
    ensures BarFrame(x, y, width).x == x && BarFrame(x, y, width).y == y
    ensures BarFrame(x, y, width).MaxX() == x + width
    ensures BarFrame(x, y, width).MaxY() == y + BarHeight
  {
  }

  /** Width of a bar: the value shrunk by the factor, against the layer width minus spacing. */
  function BarWidth(value: int, factor: real, layerWidth: real): (w: real)
    requires factor > 0.0
    ensures w >= 0.0
  {
    Abs(value as real / factor * (layerWidth - Space))
  }

  /** A bar has zero width exactly when its value is zero or the layer is exactly as wide as the
      spacing. */
  lemma BarWidthZero(value: int, factor: real, layerWidth: real)
    requires factor > 0.0
    ensures BarWidth(value, factor, layerWidth) == 0.0 <==> value == 0 || layerWidth == Space
  {
  }

  /** The unshrunk size of a bar: the magnitude of the value times the magnitude of the layer
      width minus spacing. */
  function BarExtent(value: int, layerWidth: real): (s: real)
    ensures s >= 0.0
  {
    var a, b := Abs(value as real), Abs(layerWidth - Space);
    assert a * b >= 0.0;
    a * b
  }

  /** The bar is proportional to the magnitude of the value and inversely so to the factor. */
  lemma BarWidthTimesFactor(value: int, factor: real, layerWidth: real)
    requires factor > 0.0
    ensures BarWidth(value, factor, layerWidth) * factor == BarExtent(value, layerWidth)
  {
  }

  /** A larger factor never gives a wider bar. */
  lemma BarWidthShrinks(value: int, f1: real, f2: real, layerWidth: real)
    requires 0.0 < f1 <= f2
    ensures BarWidth(value, f2, layerWidth) <= BarWidth(value, f1, layerWidth)
  {
    var w1, w2 := BarWidth(value, f1, layerWidth), BarWidth(value, f2, layerWidth);
    BarWidthTimesFactor(value, f1, layerWidth);
    BarWidthTimesFactor(value, f2, layerWidth);
    assert w2 * f2 == w1 * f1;
    assert w1 * f1 <= w1 * f2;
    assert (w2 - w1) * f2 <= 0.0;
  }

  function TitleWidth(e: BarEntry): real {
    e.titleSize.width + LabelPadding
  }

  function ValueWidth(e: BarEntry): real {
    e.valueSize.width + LabelPadding
  }

  /** The title layer, the bar and the value layer of entry `e` drawn as row `index`: the frames
      that `TextFrame` and `BarFrame` give at the points the row computes, written out. */
  function EntryLayers(index: nat, e: BarEntry, factor: real, d: Display): (ls: seq<Layer>)
    requires factor > 0.0
    ensures |ls| == 3
  {
    var titleWidth, barWidth := e.titleSize.width + LabelPadding, BarWidth(e.count, factor, d.layerWidth);
    var yPos := Space + index as real * (BarHeight + Space);
    [TitleLayer(Rect(XPos, yPos + BarHeight / 4.0, titleWidth, e.titleSize.height), e.title),
     BarLayer(Rect(XPos + titleWidth + ContentSpace, yPos, barWidth, BarHeight)),
     ValueLayer(Rect(XPos + titleWidth + barWidth + ContentSpace, yPos + BarHeight / 4.0,
                     e.valueSize.width + LabelPadding, e.valueSize.height), e.count)]
  }

  /** The three layers of a row: a title text layer at the margin, a bar one gap after the
      title's right edge, and a value text layer starting exactly where the bar ends; labels are
      their measured width plus padding, the bar is the scaled bar width by the fixed bar height;
      the bar sits on the row line and both labels a quarter bar lower. */
  lemma EntryGeometry(index: nat, e: BarEntry, factor: real, d: Display)
    requires factor > 0.0
    ensures var ls := EntryLayers(index, e, factor, d);
      && ls[0] == TitleLayer(ls[0].frame, e.title)
      && ls[1] == BarLayer(ls[1].frame)
      && ls[2] == ValueLayer(ls[2].frame, e.count)
      && ls[0].frame.x == XPos
      && ls[1].frame.x == ls[0].frame.MaxX() + ContentSpace
      && ls[2].frame.x == ls[1].frame.MaxX()
      && ls[0].frame.width == TitleWidth(e) && ls[0].frame.height == e.titleSize.height
      && ls[1].frame.width == BarWidth(e.count, factor, d.layerWidth) && ls[1].frame.height == BarHeight
      && ls[2].frame.width == ValueWidth(e) && ls[2].frame.height == e.valueSize.height
      && ls[1].frame.y == RowY(index)
      && ls[0].frame.y == ls[2].frame.y == RowY(index) + BarHeight / 4.0
  {
  }

  /** Width of a row without its bar: both labels and the four fixed paddings. */
  function LabelOnlyWidth(e: BarEntry): real {
    XPos + ContentSpace + ContentSpace + XPos + TitleWidth(e) + ValueWidth(e)
  }

  /** The width the fit check computes for a row: margin, title and gap, bar and gap, and the
      value label with one more margin. It is the right edge of the value label plus two margins. */
  function EntryWidth(e: BarEntry, factor: real, d: Display): (w: real)
    requires factor > 0.0
    ensures w == LabelOnlyWidth(e) + BarWidth(e.count, factor, d.layerWidth)
    ensures w >= LabelOnlyWidth(e)
  {
    XPos + (TitleWidth(e) + ContentSpace) + (BarWidth(e.count, factor, d.layerWidth) + ContentSpace)
      + (XPos + ValueWidth(e))
  }

  /** The check after drawing a row: the row is too wide for the screen, which happens exactly
      when the bar is wider than the room the labels and paddings leave on the screen. */
  predicate TooBig(e: BarEntry, factor: real, d: Display): (b: bool)
    requires factor > 0.0
    ensures b <==> BarWidth(e.count, factor, d.layerWidth) > d.screenWidth - LabelOnlyWidth(e)
  {
    EntryWidth(e, factor, d) > d.screenWidth
  }

  /** A row passes the check exactly when its value label ends two margins before the screen edge. */
  lemma FitsOnScreen(index: nat, e: BarEntry, factor: real, d: Display)
    requires factor > 0.0
    ensures EntryWidth(e, factor, d) == EntryLayers(index, e, factor, d)[2].frame.MaxX() + 2.0 * XPos
    ensures !TooBig(e, factor, d) <==> EntryLayers(index, e, factor, d)[2].frame.MaxX() + 2.0 * XPos <= d.screenWidth
  {
    EntryGeometry(index, e, factor, d);
  }

  /** Height of the scrollable content for `n` rows: one bar and one spacing per row plus the margin. */
  function ContentHeight(n: nat): (h: real)
    ensures n == 0 ==> h == ContentSpace
    ensures n > 0 ==> h == RowY(n - 1) + BarHeight + ContentSpace
  {
    (BarHeight + Space) * n as real + ContentSpace
  }

  /** Every bar of the first `n` rows lies above the bottom margin of the content. */
  lemma ContentCoversBars(n: nat, i: nat)
    requires i < n
    ensures RowY(i) + BarHeight + ContentSpace <= ContentHeight(n)
  {
    if i < n - 1 {
      RowsIncrease(i, n - 1);
    }
  }
}
