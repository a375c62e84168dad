/** The widen-until-fits search: the shared shrink factor after `k` restarts, when an entry fits,
    when the search can succeed at all, the number of restarts it makes, and the layer list it
    leaves behind. */
module LayoutSearch {
  import opened BarGeometry

  /** The shrink factor after `k` restarts: it starts at 3.0 and each restart adds 0.2. */
  function Factor(k: nat): (f: real)
    ensures f >= 3.0
    ensures f > k as real / 5.0
  {
    3.0 + k as real / 5.0
  }

  lemma FactorStep(k: nat)
    ensures Factor(k + 1) == Factor(k) + 0.2
  {
  }

  lemma FactorGrows(j: nat, k: nat)
    requires j <= k
    ensures Factor(k) - Factor(j) == (k - j) as real * 0.2
    ensures Factor(j) <= Factor(k)
  {
  }

  /** Entry `e` passes the width check under the factor of `k` restarts. */
  predicate Fits(e: BarEntry, k: nat, d: Display) {
    !TooBig(e, Factor(k), d)
  }

  /** Every entry passes the width check under one shared factor. */
  predicate AllFit(entries: seq<BarEntry>, k: nat, d: Display) {
    forall i {:trigger Fits(entries[i], k, d)} :: 0 <= i < |entries| ==> Fits(entries[i], k, d)
  }

  /** Once an entry fits, it fits under every larger factor. */
  lemma FitMonotone(e: BarEntry, j: nat, k: nat, d: Display)
    requires j <= k && Fits(e, j, d)
    ensures Fits(e, k, d)
  {
    FactorGrows(j, k);
    BarWidthShrinks(e.count, Factor(j), Factor(k), d.layerWidth);
  }

  /** Whether some factor makes `e` fit: its labels alone are narrower than the screen, or it
      already fits at the initial factor (a row of zero bar width that exactly fills the screen). */
  predicate CanFit(e: BarEntry, d: Display) {
    LabelOnlyWidth(e) < d.screenWidth || Fits(e, 0, d)
  }

  predicate AllCanFit(entries: seq<BarEntry>, d: Display) {
    forall i {:trigger CanFit(entries[i], d)} :: 0 <= i < |entries| ==> CanFit(entries[i], d)
  }

  function Quotient(a: real, b: real): (q: real)
    requires a >= 0.0 && b > 0.0
    ensures q >= 0.0 && q * b == a
  {
    a / b
  }

  /** A number of restarts after which `e` fits, when it can fit at all. */
  function EntryBound(e: BarEntry, d: Display): nat {
    if Fits(e, 0, d) || LabelOnlyWidth(e) >= d.screenWidth then 0
    else
      var x := Quotient(5.0 * BarExtent(e.count, d.layerWidth), d.screenWidth - LabelOnlyWidth(e));
      x.Floor + 1
  }

  /** Past the bound, the factor times the room left for the bar exceeds the unshrunk bar size. */
  lemma FactorBeyond(size: real, gap: real, k: nat)
    requires size >= 0.0 && gap > 0.0
    requires Quotient(5.0 * size, gap).Floor + 1 <= k
    ensures Factor(k) * gap > size
  {
    var x := Quotient(5.0 * size, gap);
    assert k as real > x;
    assert Factor(k) > x / 5.0;
    assert Factor(k) * gap > (x / 5.0) * gap;
  }

  lemma NarrowerThanGap(w: real, f: real, gap: real, size: real)
    requires f > 0.0 && w * f == size && f * gap > size
    ensures w < gap
  {
  }

  /** Past the bound, the bar is narrower than the room `gap` its labels leave on the screen. */
  lemma BarBelowGap(value: int, layerWidth: real, gap: real, k: nat)
    requires gap > 0.0 && Quotient(5.0 * BarExtent(value, layerWidth), gap).Floor + 1 <= k
    ensures BarWidth(value, Factor(k), layerWidth) < gap
  {
    var size := BarExtent(value, layerWidth);
    FactorBeyond(size, gap, k);
    BarWidthTimesFactor(value, Factor(k), layerWidth);
    NarrowerThanGap(BarWidth(value, Factor(k), layerWidth), Factor(k), gap, size);
  }

  lemma FitsFromBound(e: BarEntry, d: Display, k: nat)
    requires CanFit(e, d) && EntryBound(e, d) <= k
    ensures Fits(e, k, d)
  {
    if Fits(e, 0, d) {
      FitMonotone(e, 0, k, d);
    } else {
      BarBelowGap(e.count, d.layerWidth, d.screenWidth - LabelOnlyWidth(e), k);
    }
  }

  /** The search can succeed exactly when some factor makes the entry fit. */
  lemma CanFitIff(e: BarEntry, d: Display)
    ensures CanFit(e, d) <==> exists k: nat :: Fits(e, k, d)
  {
    if CanFit(e, d) {
      FitsFromBound(e, d, EntryBound(e, d));
    }
    if k: nat :| Fits(e, k, d) {
      var w := BarWidth(e.count, Factor(k), d.layerWidth);
      if LabelOnlyWidth(e) >= d.screenWidth {
        BarWidthZero(e.count, Factor(k), d.layerWidth);
        BarWidthZero(e.count, Factor(0), d.layerWidth);
        assert w == 0.0;
        assert BarWidth(e.count, Factor(0), d.layerWidth) == 0.0;
      }
    }
  }

  /** An entry that cannot fit makes every pass overflow, so the restart loop never ends. */
  lemma NeverFits(entries: seq<BarEntry>, d: Display, i: nat)
    requires i < |entries| && !CanFit(entries[i], d)
    ensures forall k: nat :: !AllFit(entries, k, d)
  {
    CanFitIff(entries[i], d);
    forall k: nat
      ensures !AllFit(entries, k, d)
    {
      assert !Fits(entries[i], k, d);
    }
  }

  /** A restart count after which every entry fits. */
  function RestartBound(entries: seq<BarEntry>, d: Display): (b: nat)
    ensures forall i {:trigger EntryBound(entries[i], d)} :: 0 <= i < |entries| ==> EntryBound(entries[i], d) <= b
  {
    if entries == [] then 0
    else
      var rest := RestartBound(entries[1..], d);
      assert forall i :: 1 <= i < |entries| ==> entries[i] == entries[1..][i - 1];
      var first := EntryBound(entries[0], d);
      if first < rest then rest else first
  }

  lemma AllFitFromBound(entries: seq<BarEntry>, d: Display, k: nat)
    requires AllCanFit(entries, d) && RestartBound(entries, d) <= k
    ensures AllFit(entries, k, d)
  {
    forall i | 0 <= i < |entries|
      ensures Fits(entries[i], k, d)
    {
      FitsFromBound(entries[i], d, k);
    }
  }

  /** The least restart count from `k` on under which every entry fits. */
  function FirstFit(entries: seq<BarEntry>, d: Display, k: nat): (r: nat)
    requires AllCanFit(entries, d) && k <= RestartBound(entries, d)
    ensures k <= r <= RestartBound(entries, d)
    ensures AllFit(entries, r, d)
    ensures forall j: nat :: k <= j < r ==> !AllFit(entries, j, d)
    decreases RestartBound(entries, d) - k
  {
    if AllFit(entries, k, d) then k
    else
      AllFitFromBound(entries, d, RestartBound(entries, d));
      FirstFit(entries, d, k + 1)
  }

  /** The number of restarts the layout makes: the least one under which every entry fits. */
  /** When every entry can fit, some restart count is the least one under which all of them fit. */
  lemma LeastFitExists(entries: seq<BarEntry>, d: Display)
    requires AllCanFit(entries, d)
    ensures exists r: nat :: AllFit(entries, r, d) && forall j: nat :: j < r ==> !AllFit(entries, j, d)
  {
    var r := FirstFit(entries, d, 0);
    assert AllFit(entries, r, d) && forall j: nat :: j < r ==> !AllFit(entries, j, d);
  }

  ghost function Restarts(entries: seq<BarEntry>, d: Display): (r: nat)
    requires AllCanFit(entries, d)
    ensures AllFit(entries, r, d)
    ensures forall j: nat :: j < r ==> !AllFit(entries, j, d)
  {
    LeastFitExists(entries, d);
    var r: nat :| AllFit(entries, r, d) && forall j: nat :: j < r ==> !AllFit(entries, j, d);
    r
  }

  /** A pass that fits its first `n` entries and then entry `n` fits its first `n + 1`. */
  lemma FitsExtend(entries: seq<BarEntry>, d: Display, k: nat, n: nat)
    requires n < |entries| && Fits(entries[n], k, d)
    requires forall i {:trigger Fits(entries[i], k, d)} :: 0 <= i < n ==> Fits(entries[i], k, d)
    ensures forall i {:trigger Fits(entries[i], k, d)} :: 0 <= i < n + 1 ==> Fits(entries[i], k, d)
  {
  }

  /** A pass in which some entry overflows is not the last one. */
  lemma OverflowBeforeLast(entries: seq<BarEntry>, d: Display, k: nat, i: nat)
    requires AllCanFit(entries, d) && i < |entries| && !Fits(entries[i], k, d)
    ensures k != Restarts(entries, d)
  {
  }

  /** A pass in which every entry fits, reached without skipping a count, is the last one. */
  lemma FitIsLast(entries: seq<BarEntry>, d: Display, k: nat)
    requires AllCanFit(entries, d) && AllFit(entries, k, d) && k <= Restarts(entries, d)
    ensures k == Restarts(entries, d)
  {
  }

  /** The layers drawn for the first `n` entries under the factor of `k` restarts. */
  function Layers(entries: seq<BarEntry>, n: nat, k: nat, d: Display): (ls: seq<Layer>)
    requires n <= |entries|
    ensures |ls| == 3 * n
  {
    if n == 0 then []
    else Layers(entries, n - 1, k, d) + EntryLayers(n - 1, entries[n - 1], Factor(k), d)
  }

  /** Layers come as one title/bar/value triple per entry, in input order, all under one factor:
      layer `3 * i + j` is layer `j` of entry `i`'s triple. */
  lemma {:induction false} LayersAt(entries: seq<BarEntry>, n: nat, k: nat, d: Display, i: nat, j: nat)
    requires i < n <= |entries| && j < 3
    ensures Layers(entries, n, k, d)[3 * i + j] == EntryLayers(i, entries[i], Factor(k), d)[j]
  {
    var prev := Layers(entries, n - 1, k, d);
    var last := EntryLayers(n - 1, entries[n - 1], Factor(k), d);
    assert Layers(entries, n, k, d) == prev + last;
    if i < n - 1 {
      LayersAt(entries, n - 1, k, d, i, j);
      assert (prev + last)[3 * i + j] == prev[3 * i + j];
    } else {
      assert (prev + last)[3 * i + j] == last[j];
    }
  }

  /** Later entries are drawn strictly lower: a bar and the spacing end before the next bar, and
      the labels of a row sit above the labels of every later row. */
  lemma LayersOrdered(entries: seq<BarEntry>, n: nat, k: nat, d: Display, i: nat, j: nat)
    requires i < j < n <= |entries|
    ensures Layers(entries, n, k, d)[3 * i + 1].frame.MaxY() + Space <= Layers(entries, n, k, d)[3 * j + 1].frame.y
    ensures Layers(entries, n, k, d)[3 * i].frame.y < Layers(entries, n, k, d)[3 * j].frame.y
    ensures Layers(entries, n, k, d)[3 * i + 2].frame.y < Layers(entries, n, k, d)[3 * j + 2].frame.y
  {
    LayersAt(entries, n, k, d, i, 0);
    LayersAt(entries, n, k, d, i, 1);
    LayersAt(entries, n, k, d, i, 2);
    LayersAt(entries, n, k, d, j, 0);
    LayersAt(entries, n, k, d, j, 1);
    LayersAt(entries, n, k, d, j, 2);
    EntryGeometry(i, entries[i], Factor(k), d);
    EntryGeometry(j, entries[j], Factor(k), d);
    RowsIncrease(i, j);
  }

  /** The chart the layout leaves behind: every entry under the final factor. */
  ghost function Chart(entries: seq<BarEntry>, d: Display): (c: seq<Layer>)
    requires AllCanFit(entries, d)
    ensures |c| == 3 * |entries|
  {
    Layers(entries, |entries|, Restarts(entries, d), d)
  }

  /** The finished chart holds one triple per entry, in order, all computed with the single final
      factor (at least 3.0, grown by 0.2 per restart); every entry passes the width check under it
      and every bar lies above the bottom margin of the content. An empty list draws nothing
      after no restart. */
  lemma ChartLayout(entries: seq<BarEntry>, d: Display)
    requires AllCanFit(entries, d)
    ensures |Chart(entries, d)| == 3 * |entries|
    ensures Factor(Restarts(entries, d)) == 3.0 + 0.2 * Restarts(entries, d) as real
    ensures forall i, j :: 0 <= i < |entries| && 0 <= j < 3 ==>
      Chart(entries, d)[3 * i + j] == EntryLayers(i, entries[i], Factor(Restarts(entries, d)), d)[j]
    ensures forall i :: 0 <= i < |entries| ==> !TooBig(entries[i], Factor(Restarts(entries, d)), d)
    ensures forall i :: 0 <= i < |entries| ==>
      Chart(entries, d)[3 * i + 1].frame.MaxY() + ContentSpace <= ContentHeight(|entries|)
    ensures entries == [] ==> Chart(entries, d) == [] && Restarts(entries, d) == 0
  {
    var k := Restarts(entries, d);
    var ls := Chart(entries, d);
    forall i, j | 0 <= i < |entries| && 0 <= j < 3
      ensures ls[3 * i + j] == EntryLayers(i, entries[i], Factor(k), d)[j]
    {
      LayersAt(entries, |entries|, k, d, i, j);
    }
    forall i | 0 <= i < |entries|
      ensures !TooBig(entries[i], Factor(k), d)
      ensures ls[3 * i + 1].frame.MaxY() + ContentSpace <= ContentHeight(|entries|)
    {
      assert Fits(entries[i], k, d);
      LayersAt(entries, |entries|, k, d, i, 1);
      EntryGeometry(i, entries[i], Factor(k), d);
      ContentCoversBars(|entries|, i);
    }
    if entries == [] {
      assert AllFit(entries, 0, d);
    }
  }
}
