/**
  Properties of a radar series' layout: how many shape blocks and marker
  elements it writes, what each block carries, and how the setters show up in
  the output.
 */
module SeriesProperties {
  import opened Wrappers
  import opened Values
  import opened XmlText
  import opened Series
  import opened SeriesLayout

  /** The number of shape-properties blocks among `items`. */
  function CountShapes(items: seq<Item>): nat
    decreases |items|
  {
    if |items| == 0 then 0
    else (if items[0].ShapeItem? then 1 else 0) + CountShapes(items[1..])
  }

  /** The number of marker elements among `items`. */
  function CountMarkers(items: seq<Item>): nat
    decreases |items|
  {
    if |items| == 0 then 0
    else (if items[0].MarkerItem? then 1 else 0) + CountMarkers(items[1..])
  }

  lemma {:induction false} CountConcat(a: seq<Item>, b: seq<Item>)
    ensures CountShapes(a + b) == CountShapes(a) + CountShapes(b)
    ensures CountMarkers(a + b) == CountMarkers(a) + CountMarkers(b)
    decreases |a|
  {
    if |a| == 0 {
      assert a + b == b;
    } else {
      assert (a + b)[0] == a[0];
      assert (a + b)[1..] == a[1..] + b;
      CountConcat(a[1..], b);
    }
  }

  /** A sequence of shape blocks only has as many blocks as entries, and no marker. */
  lemma {:induction false} CountAllShapes(items: seq<Item>)
    requires forall i :: 0 <= i < |items| ==> items[i].ShapeItem?
    ensures CountShapes(items) == |items|
    ensures CountMarkers(items) == 0
    decreases |items|
  {
    if |items| > 0 {
      CountAllShapes(items[1..]);
    }
  }

  /**
    A series writes one leading block exactly when a colour or a line width is
    set, one block per entry of `colors`, and one marker element unless markers
    are shown with the `:default` symbol.
   */
  lemma LayoutCounts(s: RadarSeries)
    ensures CountShapes(ExpectedItems(s))
      == (if s.color.Some? || s.lnWidth.Some? then 1 else 0) + |s.colors|
    ensures CountMarkers(ExpectedItems(s))
      == (if s.showMarker && s.markerSymbol == DefaultSymbol then 0 else 1)
  {
    var lead, marker, points := LeadItems(s), MarkerItems(s), PointItems(s.colors, s.lnWidth);
    CountConcat(lead + marker, points);
    CountConcat(lead, marker);
    CountAllShapes(points);
  }

  /** Every block, the leading one and the per-point ones, carries the series' line width. */
  lemma EveryBlockCarriesWidth(s: RadarSeries)
    ensures forall i :: 0 <= i < |ExpectedItems(s)| && ExpectedItems(s)[i].ShapeItem? ==>
      ExpectedItems(s)[i].shape.width == s.lnWidth
  {
    var items := ExpectedItems(s);
    var k := |LeadItems(s)| + |MarkerItems(s)|;
    forall i | 0 <= i < |items| && items[i].ShapeItem?
      ensures items[i].shape.width == s.lnWidth
    {
      if k <= i {
        assert items[i] == PointItems(s.colors, s.lnWidth)[i - k];
      }
    }
  }

  /**
    The per-point blocks follow the leading block and the marker, in list
    order: block i is filled with colour i.
   */
  lemma PointBlocksInOrder(s: RadarSeries)
    ensures var k := |LeadItems(s)| + |MarkerItems(s)|;
      && |ExpectedItems(s)| == k + |s.colors|
      && forall i :: 0 <= i < |s.colors| ==>
           ExpectedItems(s)[k + i] == ShapeItem(Shape(Some(s.colors[i]), s.lnWidth))
  {
  }

  /**
    Reading the marker element back, whatever follows it: "none" while markers
    are hidden, the symbol when it is not `:default`, and no marker otherwise.
   */
  lemma MarkerCases(s: RadarSeries, t: string)
    requires AttrSafe(s.markerSymbol)
    requires OpensNoItem(t)
    ensures !s.showMarker ==>
      ParseItems(MarkerXml(s.showMarker, s.markerSymbol) + t) == Some(([MarkerItem("none")], t))
    ensures s.showMarker && s.markerSymbol != DefaultSymbol ==>
      ParseItems(MarkerXml(s.showMarker, s.markerSymbol) + t) == Some(([MarkerItem(s.markerSymbol)], t))
    ensures s.showMarker && s.markerSymbol == DefaultSymbol ==>
      ParseItems(MarkerXml(s.showMarker, s.markerSymbol) + t) == Some(([], t))
  {
    MarkerLayout(s);
    assert ItemSafe(MarkerItem("none"));
    ParseRenderRoundTrip(MarkerItems(s), t);
  }

  /**
    Reading the leading block back, whatever follows it: one block carrying the
    colour and the width when either is set, and nothing otherwise.
   */
  lemma LeadCases(s: RadarSeries, t: string)
    requires s.color.Some? ==> AttrSafe(s.color.value)
    requires s.lnWidth.Some? ==> AttrSafe(s.lnWidth.value)
    requires OpensNoItem(t)
    ensures s.color.Some? || s.lnWidth.Some? ==>
      ParseItems(ShapeXml(s.color, s.lnWidth) + t) == Some(([ShapeItem(Shape(s.color, s.lnWidth))], t))
    ensures s.color.None? && s.lnWidth.None? ==>
      ParseItems(ShapeXml(s.color, s.lnWidth) + t) == Some(([], t))
  {
    LeadLayout(s);
    ParseRenderRoundTrip(LeadItems(s), t);
  }

  /** A new series writes the "none" marker, and a leading block only for a line width option. */
  lemma NewSeriesLayout(opts: SeriesOptions)
    ensures ExpectedItems(NewSeries(opts))
      == (if opts.lnWidth.Some? then [ShapeItem(Shape(None, opts.lnWidth))] else []) + [MarkerItem("none")]
  {
    var s := NewSeries(opts);
    assert PointItems(s.colors, s.lnWidth) == [];
  }

  /** `colors=` replaces the list: after two assignments only the second list is written. */
  lemma ColorsReplaceWholesale(s: RadarSeries, a: seq<string>, b: seq<string>)
    ensures SetColors(s, Arr(a)).Success?
    ensures var s' := SetColors(SetColors(s, Arr(a)).value, Arr(b)).value;
      ExpectedItems(s') == LeadItems(s) + MarkerItems(s) + PointItems(b, s.lnWidth)
  {
  }

  /** Setting a colour makes the leading block carry it, in both fills. */
  lemma SetColorLeads(s: RadarSeries, c: string)
    ensures ExpectedItems(SetColor(s, Some(c)))[0] == ShapeItem(Shape(Some(c), s.lnWidth))
  {
  }

  /** Setting a line width puts it on every block the series writes. */
  lemma SetLnWidthEverywhere(s: RadarSeries, w: string)
    ensures var s' := SetLnWidth(s, Some(w));
      && CountShapes(ExpectedItems(s')) == 1 + |s.colors|
      && forall i :: 0 <= i < |ExpectedItems(s')| && ExpectedItems(s')[i].ShapeItem? ==>
           ExpectedItems(s')[i].shape.width == Some(w)
  {
    var s' := SetLnWidth(s, Some(w));
    LayoutCounts(s');
    EveryBlockCarriesWidth(s');
  }
}
