/**
  What a reader of a radar series' XML sees: the sequence of shape-properties
  blocks and marker elements that opens the body, followed by the data-source
  text. `ExpectedItems` is the layout the series promises; `ParseItems` reads
  the layout back from the text; `SeriesBodyDecodes` connects the two.
 */
module SeriesLayout {
  import opened Wrappers
  import opened Values
  import opened XmlText
  import opened Series

  /** One element of the styling part of a series body. */
  datatype Item = ShapeItem(shape: Shape) | MarkerItem(symbol: string)

  const FillOpen: string := "<a:solidFill><a:srgbClr val=\""
  const FillClose: string := "/></a:solidFill>"
  const WidthOpen: string := " w=\""
  const MarkerOpen: string := "<c:marker><c:symbol val=\""
  const MarkerClose: string := "/></c:marker>"

  /** A marker element naming `symbol`. */
  function MarkerItemXml(symbol: string): string {
    MarkerOpen + symbol + "\"" + MarkerClose
  }

  function ItemXml(it: Item): string {
    match it
    case ShapeItem(sh) => ShapeBlockXml(sh)
    case MarkerItem(sym) => MarkerItemXml(sym)
  }

  /** The items written one after the other. */
  function RenderItems(items: seq<Item>): string {
    Concat(Texts(items, ItemXml))
  }

  // ---------------------------------------------------------------------------
  // The promised layout
  // ---------------------------------------------------------------------------

  function LeadItems(s: RadarSeries): seq<Item> {
    if s.color.Some? || s.lnWidth.Some? then [ShapeItem(Shape(s.color, s.lnWidth))] else []
  }

  function MarkerItems(s: RadarSeries): seq<Item> {
    if !s.showMarker then [MarkerItem("none")]
    else if s.markerSymbol != DefaultSymbol then [MarkerItem(s.markerSymbol)]
    else []
  }

  /** Block i fills with colour i and shares the series' line width. */
  function PointItems(colors: seq<string>, lnWidth: Option<string>): (r: seq<Item>)
    ensures |r| == |colors|
  {
    seq(|colors|, i requires 0 <= i < |colors| => ShapeItem(Shape(Some(colors[i]), lnWidth)))
  }

  /** The styling layout of a series: leading block, marker, per-point blocks. */
  function ExpectedItems(s: RadarSeries): seq<Item> {
    LeadItems(s) + MarkerItems(s) + PointItems(s.colors, s.lnWidth)
  }

  /** Every attribute value the series writes can be read back. */
  predicate SeriesSafe(s: RadarSeries) {
    && (s.color.Some? ==> AttrSafe(s.color.value))
    && (s.lnWidth.Some? ==> AttrSafe(s.lnWidth.value))
    && AttrSafe(s.markerSymbol)
    && forall i :: 0 <= i < |s.colors| ==> AttrSafe(s.colors[i])
  }

  predicate ShapeSafe(sh: Shape) {
    && (sh.fill.Some? ==> AttrSafe(sh.fill.value))
    && (sh.width.Some? ==> AttrSafe(sh.width.value))
  }

  predicate ItemSafe(it: Item) {
    match it
    case ShapeItem(sh) => ShapeSafe(sh)
    case MarkerItem(sym) => AttrSafe(sym)
  }

  /** Text that does not open another shape block or marker element. */
  predicate OpensNoItem(t: string) {
    !StartsWith(t, "<c:spPr>") && !StartsWith(t, "<c:marker>")
  }

  // ---------------------------------------------------------------------------
  // Decoders
  // ---------------------------------------------------------------------------

  /** An optional solid fill: its colour and the text after it. */
  function ParseOptFill(s: string): (r: Option<(Option<string>, string)>)
    ensures r.Some? ==> |r.value.1| <= |s|
  {
    if StartsWith(s, FillOpen) then
      var p :- ReadAttr(s[|FillOpen|..]);
      var u :- Strip(p.1, FillClose);
      Some((Some(p.0), u))
    else Some((None, s))
  }

  /** An optional ` w="..."` attribute: its value and the text after it. */
  function ParseOptWidth(s: string): (r: Option<(Option<string>, string)>)
    ensures r.Some? ==> |r.value.1| <= |s|
  {
    if StartsWith(s, WidthOpen) then
      var p :- ReadAttr(s[|WidthOpen|..]);
      Some((Some(p.0), p.1))
    else Some((None, s))
  }

  /** One shape-properties block, accepted only when both of its fills agree. */
  function ParseShape(s: string): (r: Option<(Shape, string)>)
    ensures r.Some? ==> |r.value.1| < |s|
  {
    var t1 :- Strip(s, "<c:spPr>");
    var f1 :- ParseOptFill(t1);
    var t2 :- Strip(f1.1, "<a:ln");
    var w :- ParseOptWidth(t2);
    var t3 :- Strip(w.1, ">");
    var f2 :- ParseOptFill(t3);
    var t4 :- Strip(f2.1, "</a:ln></c:spPr>");
    if f2.0 == f1.0 then Some((Shape(f1.0, w.0), t4)) else None
  }

  /** One marker element: its symbol and the text after it. */
  function ParseMarker(s: string): (r: Option<(string, string)>)
    ensures r.Some? ==> |r.value.1| < |s|
  {
    var t :- Strip(s, MarkerOpen);
    var p :- ReadAttr(t);
    var u :- Strip(p.1, MarkerClose);
    Some((p.0, u))
  }

  /** Reads blocks and markers until the text opens neither; returns them and the rest. */
  function ParseItems(s: string): (r: Option<(seq<Item>, string)>)
    decreases |s|
  {
    if StartsWith(s, "<c:spPr>") then
      var p :- ParseShape(s);
      var q :- ParseItems(p.1);
      Some(([ShapeItem(p.0)] + q.0, q.1))
    else if StartsWith(s, "<c:marker>") then
      var p :- ParseMarker(s);
      var q :- ParseItems(p.1);
      Some(([MarkerItem(p.0)] + q.0, q.1))
    else Some(([], s))
  }

  // ---------------------------------------------------------------------------
  // Round trips
  // ---------------------------------------------------------------------------

  /** A text whose k-th character differs from that of `p` does not start with `p`. */
  lemma DiffersAt(s: string, p: string, k: nat)
    requires k < |p| && k < |s| && s[k] != p[k]
    ensures !StartsWith(s, p)
  {
    if |p| <= |s| {
      assert s[..|p|][k] != p[k];
    }
  }

  lemma {:induction false} OptFillRoundTrip(f: Option<string>, u: string)
    requires f.Some? ==> AttrSafe(f.value)
    requires f.None? ==> !StartsWith(u, FillOpen)
    ensures ParseOptFill(OptFillXml(f) + u) == Some((f, u))
  {
    if f.Some? {
      FillRoundTrip(f.value, u);
    } else {
      assert OptFillXml(f) + u == u;
    }
  }

  lemma FillRoundTrip(c: string, u: string)
    requires AttrSafe(c)
    ensures ParseOptFill(FillXml(c) + u) == Some((Some(c), u))
  {
    var v := c + "\"" + (FillClose + u);
    FillSplit(c, u);
    StripConcat(FillOpen, v);
    ReadAttrRoundTrip(c, FillClose + u);
    StripConcat(FillClose, u);
    FillSteps(FillOpen + v, v, (c, FillClose + u), u);
  }

  lemma FillSplit(c: string, u: string)
    ensures FillXml(c) + u == FillOpen + (c + "\"" + (FillClose + u))
  {
  }

  /** ParseOptFill on a text that opens a fill, step by step. */
  lemma FillSteps(s: string, v: string, p: (string, string), u: string)
    requires Strip(s, FillOpen) == Some(v)
    requires ReadAttr(v) == Some(p)
    requires Strip(p.1, FillClose) == Some(u)
    ensures ParseOptFill(s) == Some((Some(p.0), u))
  {
  }

  lemma {:induction false} OptWidthRoundTrip(w: Option<string>, u: string)
    requires w.Some? ==> AttrSafe(w.value)
    requires w.None? ==> !StartsWith(u, WidthOpen)
    ensures ParseOptWidth(WidthXml(w) + u) == Some((w, u))
  {
    if w.Some? {
      var v := w.value;
      var s := WidthXml(w) + u;
      assert s == WidthOpen + (v + "\"" + u);
      StripConcat(WidthOpen, v + "\"" + u);
      ReadAttrRoundTrip(v, u);
    } else {
      assert WidthXml(w) + u == u;
    }
  }

  /** A shape block reads back as the shape it was written from, whatever follows it. */
  lemma {:induction false} ShapeRoundTrip(sh: Shape, t: string)
    requires ShapeSafe(sh)
    ensures ParseShape(ShapeBlockXml(sh) + t) == Some((sh, t))
  {
    var F := OptFillXml(sh.fill);
    var W := WidthXml(sh.width);
    var u4 := "</a:ln></c:spPr>" + t;
    var u3 := F + u4;
    var u2 := ">" + u3;
    var u1 := "<a:ln" + (W + u2);
    var u0 := F + u1;
    ShapeBlockSplit(sh, t);
    StripConcat("<c:spPr>", u0);
    FillThenLine(sh.fill, W + u2);
    StripConcat("<a:ln", W + u2);
    WidthThenClose(sh.width, u3);
    StripConcat(">", u3);
    FillThenEnd(sh.fill, t);
    StripConcat("</a:ln></c:spPr>", t);
    ShapeSteps(ShapeBlockXml(sh) + t, sh, u0, u1, W + u2, u2, u3, u4, t);
  }

  lemma ShapeBlockSplit(sh: Shape, t: string)
    ensures ShapeBlockXml(sh) + t
      == "<c:spPr>" + (OptFillXml(sh.fill) + ("<a:ln" + (WidthXml(sh.width) + (">" + (OptFillXml(sh.fill) + ("</a:ln></c:spPr>" + t))))))
  {
    var F, W, E := OptFillXml(sh.fill), WidthXml(sh.width), "</a:ln></c:spPr>";
    assert E == "</a:ln>" + "</c:spPr>";
    assert ShapeBlockXml(sh) == "<c:spPr>" + F + "<a:ln" + W + ">" + F + E;
    Regroup("<c:spPr>", F, "<a:ln", W, ">", F, E + t);
  }

  lemma Regroup(a: string, b: string, c: string, d: string, e: string, f: string, g: string)
    ensures a + b + c + d + e + f + g == a + (b + (c + (d + (e + (f + g)))))
  {
  }

  lemma FillThenLine(f: Option<string>, u: string)
    requires f.Some? ==> AttrSafe(f.value)
    ensures ParseOptFill(OptFillXml(f) + ("<a:ln" + u)) == Some((f, "<a:ln" + u))
  {
    if f.None? {
      DiffersAt("<a:ln" + u, FillOpen, 3);
    }
    OptFillRoundTrip(f, "<a:ln" + u);
  }

  lemma WidthThenClose(w: Option<string>, u: string)
    requires w.Some? ==> AttrSafe(w.value)
    ensures ParseOptWidth(WidthXml(w) + (">" + u)) == Some((w, ">" + u))
  {
    if w.None? {
      DiffersAt(">" + u, WidthOpen, 0);
    }
    OptWidthRoundTrip(w, ">" + u);
  }

  lemma FillThenEnd(f: Option<string>, t: string)
    requires f.Some? ==> AttrSafe(f.value)
    ensures ParseOptFill(OptFillXml(f) + ("</a:ln></c:spPr>" + t)) == Some((f, "</a:ln></c:spPr>" + t))
  {
    if f.None? {
      DiffersAt("</a:ln></c:spPr>" + t, FillOpen, 1);
    }
    OptFillRoundTrip(f, "</a:ln></c:spPr>" + t);
  }

  /** ParseShape, step by step. */
  lemma ShapeSteps(s: string, sh: Shape, u0: string, u1: string, v: string, u2: string, u3: string, u4: string, t: string)
    requires Strip(s, "<c:spPr>") == Some(u0)
    requires ParseOptFill(u0) == Some((sh.fill, u1))
    requires Strip(u1, "<a:ln") == Some(v)
    requires ParseOptWidth(v) == Some((sh.width, u2))
    requires Strip(u2, ">") == Some(u3)
    requires ParseOptFill(u3) == Some((sh.fill, u4))
    requires Strip(u4, "</a:ln></c:spPr>") == Some(t)
    ensures ParseShape(s) == Some((sh, t))
  {
  }

  /** A marker element reads back as its symbol, whatever follows it. */
  lemma {:induction false} MarkerRoundTrip(sym: string, t: string)
    requires AttrSafe(sym)
    ensures ParseMarker(MarkerItemXml(sym) + t) == Some((sym, t))
  {
    var u := sym + "\"" + (MarkerClose + t);
    assert MarkerItemXml(sym) + t == MarkerOpen + u;
    StripConcat(MarkerOpen, u);
    ReadAttrRoundTrip(sym, MarkerClose + t);
    StripConcat(MarkerClose, t);
    MarkerSteps(MarkerOpen + u, u, (sym, MarkerClose + t), t);
  }

  /** ParseMarker, step by step. */
  lemma MarkerSteps(s: string, u: string, p: (string, string), t: string)
    requires Strip(s, MarkerOpen) == Some(u)
    requires ReadAttr(u) == Some(p)
    requires Strip(p.1, MarkerClose) == Some(t)
    ensures ParseMarker(s) == Some((p.0, t))
  {
  }

  lemma ParseShapeItem(sh: Shape, rest: string)
    requires ShapeSafe(sh)
    ensures ParseItems(ShapeBlockXml(sh) + rest)
      == (match ParseItems(rest)
          case None => None
          case Some(q) => Some(([ShapeItem(sh)] + q.0, q.1)))
  {
    var s := ShapeBlockXml(sh) + rest;
    ShapeBlockSplit(sh, rest);
    StripConcat("<c:spPr>", s[|"<c:spPr>"|..]);
    ShapeRoundTrip(sh, rest);
  }

  lemma ParseMarkerItem(sym: string, rest: string)
    requires AttrSafe(sym)
    ensures ParseItems(MarkerItemXml(sym) + rest)
      == (match ParseItems(rest)
          case None => None
          case Some(q) => Some(([MarkerItem(sym)] + q.0, q.1)))
  {
    var s := MarkerItemXml(sym) + rest;
    assert s == "<c:marker>" + ("<c:symbol val=\"" + sym + "\"" + MarkerClose + rest);
    StripConcat("<c:marker>", "<c:symbol val=\"" + sym + "\"" + MarkerClose + rest);
    DiffersAt(s, "<c:spPr>", 3);
    MarkerRoundTrip(sym, rest);
  }

  lemma ParseItemStep(it: Item, rest: string)
    requires ItemSafe(it)
    ensures ParseItems(ItemXml(it) + rest)
      == (match ParseItems(rest)
          case None => None
          case Some(q) => Some(([it] + q.0, q.1)))
  {
    match it
    case ShapeItem(sh) => ParseShapeItem(sh, rest);
    case MarkerItem(sym) => ParseMarkerItem(sym, rest);
  }

  /** Decoding undoes rendering: any safe items, followed by text that opens no item. */
  lemma {:induction false} ParseRenderRoundTrip(items: seq<Item>, t: string)
    requires forall i :: 0 <= i < |items| ==> ItemSafe(items[i])
    requires OpensNoItem(t)
    ensures ParseItems(RenderItems(items) + t) == Some((items, t))
    decreases |items|
  {
    if |items| == 0 {
      assert Texts(items, ItemXml) == [];
      assert RenderItems(items) + t == t;
    } else {
      var rest := RenderItems(items[1..]) + t;
      RenderCons(items);
      assert RenderItems(items) + t == ItemXml(items[0]) + rest;
      ParseRenderRoundTrip(items[1..], t);
      ParseItemStep(items[0], rest);
      assert [items[0]] + items[1..] == items;
    }
  }

  // ---------------------------------------------------------------------------
  // The serialiser writes the promised layout
  // ---------------------------------------------------------------------------

  lemma RenderConcat(a: seq<Item>, b: seq<Item>)
    ensures RenderItems(a + b) == RenderItems(a) + RenderItems(b)
  {
    TextsJoin(a, b, ItemXml);
    ConcatJoin(Texts(a, ItemXml), Texts(b, ItemXml));
  }

  lemma PointHead(c: string, W: string)
    ensures "<c:spPr><a:solidFill>" + "<a:srgbClr val=\"" + c + "\"/>" + "</a:solidFill><a:ln" + W
      == "<c:spPr>" + FillXml(c) + "<a:ln" + W
  {
    SplitSpPrFill();
    SplitFillLine();
  }

  lemma SplitSpPrFill()
    ensures "<c:spPr><a:solidFill>" + "<a:srgbClr val=\"" == "<c:spPr>" + "<a:solidFill><a:srgbClr val=\""
  {}

  lemma SplitFillLine()
    ensures "\"/>" + "</a:solidFill><a:ln" == "\"/></a:solidFill>" + "<a:ln"
  {}

  lemma PointTail(c: string)
    ensures "><a:solidFill><a:srgbClr val=\"" + c + "\"/></a:solidFill></a:ln></c:spPr>"
      == ">" + FillXml(c) + "</a:ln>" + "</c:spPr>"
  {
    assert "><a:solidFill><a:srgbClr val=\"" == ">" + "<a:solidFill><a:srgbClr val=\"";
    assert "\"/></a:solidFill></a:ln></c:spPr>" == "\"/></a:solidFill>" + "</a:ln>" + "</c:spPr>";
  }

  /** The per-point block is laid out exactly like the leading block, filled with its colour. */
  lemma PointIsShapeBlock(c: string, lnWidth: Option<string>)
    ensures PointXml(c, lnWidth) == ShapeBlockXml(Shape(Some(c), lnWidth))
  {
    var W := WidthXml(lnWidth);
    PointHead(c, W);
    PointTail(c);
    var head := "<c:spPr>" + FillXml(c) + "<a:ln" + W;
    var tail := ">" + FillXml(c) + "</a:ln>" + "</c:spPr>";
    assert PointXml(c, lnWidth) == head + tail;
    assert ShapeBlockXml(Shape(Some(c), lnWidth)) == head + tail;
  }

  /** The per-point text renders one shape item per colour, in list order. */
  lemma PointsLayout(colors: seq<string>, lnWidth: Option<string>)
    ensures PointsXml(colors, lnWidth) == RenderItems(PointItems(colors, lnWidth))
  {
    var texts, items := Texts(colors, c => PointXml(c, lnWidth)), Texts(PointItems(colors, lnWidth), ItemXml);
    forall i | 0 <= i < |colors|
      ensures texts[i] == items[i]
    {
      PointIsShapeBlock(colors[i], lnWidth);
    }
    assert texts == items;
  }

  lemma RenderCons(items: seq<Item>)
    requires |items| > 0
    ensures RenderItems(items) == ItemXml(items[0]) + RenderItems(items[1..])
  {
    TextsTail(items, ItemXml);
    ConcatCons(Texts(items, ItemXml));
  }

  lemma RenderOne(it: Item)
    ensures RenderItems([it]) == ItemXml(it)
  {
    RenderCons([it]);
    assert Texts([it][1..], ItemXml) == [];
  }

  lemma MarkerText(sym: string)
    ensures RenderItems([MarkerItem(sym)]) == "<c:marker><c:symbol val=\"" + sym + "\"/></c:marker>"
  {
    RenderOne(MarkerItem(sym));
  }

  lemma MarkerLayout(s: RadarSeries)
    ensures MarkerXml(s.showMarker, s.markerSymbol) == RenderItems(MarkerItems(s))
  {
    if !s.showMarker {
      MarkerText("none");
      assert "<c:marker><c:symbol val=\"" + "none" + "\"/></c:marker>" == "<c:marker><c:symbol val=\"none\"/></c:marker>";
    } else if s.markerSymbol != DefaultSymbol {
      MarkerText(s.markerSymbol);
    }
  }

  lemma LeadLayout(s: RadarSeries)
    ensures ShapeXml(s.color, s.lnWidth) == RenderItems(LeadItems(s))
  {
    if s.color.Some? || s.lnWidth.Some? {
      RenderOne(ShapeItem(Shape(s.color, s.lnWidth)));
    } else {
      assert Texts(LeadItems(s), ItemXml) == [];
    }
  }

  lemma ExpectedRender(s: RadarSeries)
    ensures RenderItems(ExpectedItems(s))
      == RenderItems(LeadItems(s)) + RenderItems(MarkerItems(s)) + RenderItems(PointItems(s.colors, s.lnWidth))
  {
    RenderConcat(LeadItems(s) + MarkerItems(s), PointItems(s.colors, s.lnWidth));
    RenderConcat(LeadItems(s), MarkerItems(s));
  }

  /** The body is the rendered layout followed by the labels' and then the data's XML. */
  lemma SeriesLayoutHolds(s: RadarSeries)
    ensures SeriesBody(s) == RenderItems(ExpectedItems(s)) + (LabelsXml(s.labels) + DataXml(s.data))
  {
    LeadLayout(s);
    MarkerLayout(s);
    PointsLayout(s.colors, s.lnWidth);
    ExpectedRender(s);
  }

  /**
    Reading the body back yields the promised layout, then exactly the labels'
    XML followed by the data's XML.
   */
  lemma SeriesBodyDecodes(s: RadarSeries)
    requires SeriesSafe(s)
    requires OpensNoItem(LabelsXml(s.labels) + DataXml(s.data))
    ensures ParseItems(SeriesBody(s)) == Some((ExpectedItems(s), LabelsXml(s.labels) + DataXml(s.data)))
  {
    var tail := LabelsXml(s.labels) + DataXml(s.data);
    SeriesLayoutHolds(s);
    ExpectedItemsSafe(s);
    ParseRenderRoundTrip(ExpectedItems(s), tail);
  }

  lemma ExpectedItemsSafe(s: RadarSeries)
    requires SeriesSafe(s)
    ensures forall i :: 0 <= i < |ExpectedItems(s)| ==> ItemSafe(ExpectedItems(s)[i])
  {
    var items := ExpectedItems(s);
    var k := |LeadItems(s)| + |MarkerItems(s)|;
    forall i | 0 <= i < |items|
      ensures ItemSafe(items[i])
    {
      if k <= i {
        assert items[i] == PointItems(s.colors, s.lnWidth)[i - k];
      }
    }
  }
}
