/** The chart view as an object: the layers drawn into its main layer, the fit flag and the
    current-entry cursor that `ShowEntry` leaves behind, and the scroll view's content size.
    Setting the data entries runs the widen-until-fits loop in place. */
module BarChart {
  import opened BarGeometry
  import opened LayoutSearch

  class BarChartView {
    /** The view's own frame, assigned by whoever places the view. */
    var frame: Rect
    var scrollFrame: Rect
    /** The scroll view's content size. */
    var contentWidth: real
    var contentHeight: real
    var mainLayerFrame: Rect
    /** The sublayers of the main layer, in drawing order. */
    var sublayers: seq<Layer>
    var entryTooBig: bool
    var currentEntry: int
    var dataEntries: seq<BarEntry>

    constructor (frame: Rect)
      ensures this.frame == frame
      ensures scrollFrame == Rect(0.0, 0.0, 0.0, 0.0)
      ensures contentWidth == 0.0 && contentHeight == 0.0
      ensures mainLayerFrame == Rect(0.0, 0.0, 0.0, 0.0)
      ensures sublayers == [] && dataEntries == []
      ensures !entryTooBig && currentEntry == 0
    {
      this.frame := frame;
      scrollFrame := Rect(0.0, 0.0, 0.0, 0.0);
      contentWidth, contentHeight := 0.0, 0.0;
      mainLayerFrame := Rect(0.0, 0.0, 0.0, 0.0);
      sublayers := [];
      entryTooBig := false;
      currentEntry := 0;
      dataEntries := [];
    }

    /** The scroll view fills the view; its content is as wide as the view and one row height
        per entry plus the bottom margin tall. */
    method LayoutSubviews()
      modifies this`scrollFrame, this`contentWidth, this`contentHeight
      ensures scrollFrame == Rect(0.0, 0.0, frame.width, frame.height)
      ensures contentWidth == frame.width
      ensures contentHeight == ContentHeight(|dataEntries|)
    {
      scrollFrame := Rect(0.0, 0.0, frame.width, frame.height);
      contentWidth := frame.width;
      contentHeight := (BarHeight + Space) * |dataEntries| as real + ContentSpace;
    }

    /** Replaces the entries and redraws the chart: entries are drawn one by one under a shared
        factor, and the first too-wide row clears everything and restarts from entry 0 with a
        factor 0.2 larger. The loop ends exactly when some factor fits every entry, which the
        precondition states; the chart left behind is the one for the least such factor. */
    method SetDataEntries(entries: seq<BarEntry>, screenWidth: real)
      requires AllCanFit(entries, Display(contentWidth, screenWidth))
      modifies this`dataEntries, this`mainLayerFrame, this`sublayers, this`entryTooBig, this`currentEntry
      ensures dataEntries == entries
      ensures mainLayerFrame == Rect(0.0, 0.0, contentWidth, contentHeight)
      ensures sublayers == Chart(entries, Display(contentWidth, screenWidth))
      ensures entries != [] ==> !entryTooBig && currentEntry == |entries| - 1
      ensures entries == [] ==> entryTooBig == old(entryTooBig) && currentEntry == old(currentEntry)
    {
      dataEntries := entries;
      sublayers := [];
      mainLayerFrame := Rect(0.0, 0.0, contentWidth, contentHeight);
      ghost var d := Display(mainLayerFrame.width, screenWidth);
      ghost var last := Restarts(entries, d);
      var factor: real := 3.0;
      ghost var k: nat := 0;
      var index: nat := 0;
      while index < |dataEntries|
        invariant dataEntries == entries && mainLayerFrame == Rect(0.0, 0.0, contentWidth, contentHeight)
        invariant index <= |entries|
        invariant factor == Factor(k) && k <= last
        invariant forall i {:trigger Fits(entries[i], k, d)} :: 0 <= i < index ==> Fits(entries[i], k, d)
        invariant sublayers == Layers(entries, index, k, d)
        invariant index == 0 ==> entryTooBig == old(entryTooBig) && currentEntry == old(currentEntry)
        invariant index > 0 ==> !entryTooBig && 0 <= currentEntry < |entries|
        invariant index > 0 ==> currentEntry == index - 1 || index == 1
        decreases last - k, |entries| - index
      {
        currentEntry := index;
        ShowEntry(index, dataEntries[index], factor, screenWidth, d);
        ghost var shown, passes := index, k;
        while entryTooBig
          invariant dataEntries == entries && mainLayerFrame == Rect(0.0, 0.0, contentWidth, contentHeight)
          invariant index < |entries|
          invariant factor == Factor(k) && k <= last
          invariant forall i {:trigger Fits(entries[i], k, d)} :: 0 <= i < index ==> Fits(entries[i], k, d)
          invariant entryTooBig == !Fits(entries[index], k, d)
          invariant sublayers == Layers(entries, index + 1, k, d)
          invariant currentEntry == shown < |entries|
          invariant (index == shown && k == passes) || (index == 0 && k > passes)
          decreases last - k
        {
          OverflowBeforeLast(entries, d, k, index);
          sublayers := [];
          index := 0;
          factor := factor + 0.2;
          k := k + 1;
          ShowEntry(index, dataEntries[index], factor, screenWidth, d);
        }
        FitsExtend(entries, d, k, index);
        index := index + 1;
      }
      FitIsLast(entries, d, k);
      mainLayerFrame := Rect(0.0, 0.0, contentWidth, contentHeight);
    }

    /** Draws entry `entry` as row `index` (title, bar, value label, appended in that order) and
        records whether the row is wider than the screen. */
    method ShowEntry(index: nat, entry: BarEntry, factor: real, screenWidth: real, ghost d: Display)
      requires factor > 0.0 && d == Display(mainLayerFrame.width, screenWidth)
      modifies this`sublayers, this`entryTooBig
      ensures sublayers == old(sublayers) + EntryLayers(index, entry, factor, d)
      ensures entryTooBig == TooBig(entry, factor, d)
    {
      var xPos := XPos;
      var yPos := Space + index as real * (BarHeight + Space);
      var titleBar := DrawTitle(xPos, yPos + BarHeight / 4.0, entry.title, entry.titleSize);
      var progressBar := DrawBar(xPos + titleBar.frame.width + ContentSpace, yPos,
                                 BarWidth(entry.count, factor, mainLayerFrame.width));
      var text := DrawTextValue(xPos + titleBar.frame.width + progressBar.frame.width + ContentSpace,
                                yPos + BarHeight / 4.0, entry.count, entry.valueSize);
      var entryWidth := xPos + (titleBar.frame.width + ContentSpace) + (progressBar.frame.width + ContentSpace)
                        + (xPos + text.frame.width);
      entryTooBig := entryWidth > screenWidth;
    }

    /** Appends a text layer for the title, as wide as its measured text plus padding. */
    method DrawTitle(xPos: real, yPos: real, title: string, size: TextSize) returns (layer: Layer)
      modifies this`sublayers
      ensures layer == TitleLayer(TextFrame(xPos, yPos, size), title)
      ensures sublayers == old(sublayers) + [layer]
    {
      layer := TitleLayer(Rect(xPos, yPos, size.width + LabelPadding, size.height), title);
      sublayers := sublayers + [layer];
    }

    /** Appends a bar of the given width and the fixed bar height. */
    method DrawBar(xPos: real, yPos: real, width: real) returns (layer: Layer)
      modifies this`sublayers
      ensures layer == BarLayer(BarFrame(xPos, yPos, width))
      ensures sublayers == old(sublayers) + [layer]
    {
      layer := BarLayer(Rect(xPos, yPos, width, BarHeight));
      sublayers := sublayers + [layer];
    }

    /** Appends the text layer showing the count, as wide as its measured text plus padding. */
    method DrawTextValue(xPos: real, yPos: real, value: int, size: TextSize) returns (layer: Layer)
      modifies this`sublayers
      ensures layer == ValueLayer(TextFrame(xPos, yPos, size), value)
      ensures sublayers == old(sublayers) + [layer]
    {
      layer := ValueLayer(Rect(xPos, yPos, size.width + LabelPadding, size.height), value);
      sublayers := sublayers + [layer];
    }
  }
}
