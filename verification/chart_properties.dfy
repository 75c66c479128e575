/**
  Properties of a radar chart's XML: the head reads back as the style and the
  vary-colours flag, series text is appended in insertion order just before
  the tail, a new chart's text is fixed, the lazy axes are stable, and a
  second serialisation repeats the first.
 */
module ChartProperties {
  import opened Wrappers
  import opened Values
  import opened XmlText
  import opened Series
  import opened ChartAxes
  import opened RadarChart

  /** The boolean whose `to_s` is this text, if any. */
  function BoolNamed(text: string): (r: Option<bool>)
    ensures r.Some? <==> text in {"true", "false"}
    ensures r.Some? ==> BoolText(r.value) == text
  {
    if text == "true" then Some(true) else if text == "false" then Some(false) else None
  }

  /** Reads the opening tag, the radar style and the vary-colours flag; returns them and the rest. */
  function ParseChartHead(s: string): (r: Option<(RadarStyle, bool, string)>)
    ensures r.Some? ==> |r.value.2| < |s|
  {
    var t1 :- Strip(s, "<c:radarChart>");
    var t2 :- Strip(t1, "<c:radarStyle val=\"");
    var p :- ReadAttr(t2);
    var st :- StyleNamed(p.0);
    var t3 :- Strip(p.1, "/>");
    var t4 :- Strip(t3, "<c:varyColors val=\"");
    var q :- ReadAttr(t4);
    var b :- BoolNamed(q.0);
    var t5 :- Strip(q.1, "/>");
    Some((st, b, t5))
  }

  lemma NamesAreSafe(st: RadarStyle, b: bool)
    ensures AttrSafe(StyleName(st)) && AttrSafe(BoolText(b))
  {
  }

  lemma ChartHeadSplit(c: Chart, rest: string)
    ensures ChartHeadXml(c) + rest
      == "<c:radarChart>" + ("<c:radarStyle val=\"" + (StyleName(RadarStyleOf(c)) + "\"" + ("/>"
         + ("<c:varyColors val=\"" + (BoolText(c.varyColors) + "\"" + ("/>" + rest))))))
  {
    assert "\"/>" == "\"" + "/>";
  }

  /** The head of a chart's text reads back as its style and its vary-colours flag. */
  lemma ChartHeadRoundTrip(c: Chart, rest: string)
    ensures ParseChartHead(ChartHeadXml(c) + rest) == Some((RadarStyleOf(c), c.varyColors, rest))
  {
    var name, flag := StyleName(RadarStyleOf(c)), BoolText(c.varyColors);
    NamesAreSafe(RadarStyleOf(c), c.varyColors);
    var u3 := "/>" + rest;
    var u2 := "<c:varyColors val=\"" + (flag + "\"" + u3);
    var u1 := "/>" + u2;
    var u0 := "<c:radarStyle val=\"" + (name + "\"" + u1);
    ChartHeadSplit(c, rest);
    StripConcat("<c:radarChart>", u0);
    StripConcat("<c:radarStyle val=\"", name + "\"" + u1);
    ReadAttrRoundTrip(name, u1);
    StripConcat("/>", u2);
    StripConcat("<c:varyColors val=\"", flag + "\"" + u3);
    ReadAttrRoundTrip(flag, u3);
    StripConcat("/>", rest);
    NamesInvert(RadarStyleOf(c), c.varyColors);
    ChartHeadSteps(ChartHeadXml(c) + rest, u0, name + "\"" + u1, (name, u1), u2, flag + "\"" + u3, (flag, u3), rest,
      RadarStyleOf(c), c.varyColors);
  }

  /** Names read back as the style and the flag they were written from. */
  lemma NamesInvert(st: RadarStyle, b: bool)
    ensures StyleNamed(StyleName(st)) == Some(st)
    ensures BoolNamed(BoolText(b)) == Some(b)
  {
  }

  /** ParseChartHead, step by step. */
  lemma ChartHeadSteps(s: string, t1: string, t2: string, p: (string, string), t4: string, t5: string,
                       q: (string, string), rest: string, st: RadarStyle, b: bool)
    requires Strip(s, "<c:radarChart>") == Some(t1)
    requires Strip(t1, "<c:radarStyle val=\"") == Some(t2)
    requires ReadAttr(t2) == Some(p)
    requires StyleNamed(p.0) == Some(st)
    requires Strip(p.1, "/>") == Some(t4)
    requires Strip(t4, "<c:varyColors val=\"") == Some(t5)
    requires ReadAttr(t5) == Some(q)
    requires BoolNamed(q.0) == Some(b)
    requires Strip(q.1, "/>") == Some(rest)
    ensures ParseChartHead(s) == Some((st, b, rest))
  {
  }

  /** Reading a chart's body back yields its style and flag, then the series and the tail. */
  lemma ChartBodyDecodes(c: Chart, ctx: Context)
    ensures var axes := AxesOf(c, ctx.catId, ctx.valId).0;
      ParseChartHead(ChartBody(c, ctx))
        == Some((RadarStyleOf(c), c.varyColors,
                 SeriesListXml(c.series, ctx.seriesFrame) + ChartTailXml(c, axes, ctx)))
  {
    var axes := AxesOf(c, ctx.catId, ctx.valId).0;
    var rest := SeriesListXml(c.series, ctx.seriesFrame) + ChartTailXml(c, axes, ctx);
    assert ChartBody(c, ctx) == ChartHeadXml(c) + rest;
    ChartHeadRoundTrip(c, rest);
  }

  /** Adding a series appends its text to the series text. */
  lemma SeriesListAppend(ss: seq<RadarSeries>, s: RadarSeries, frames: nat -> Frame)
    ensures SeriesListXml(ss + [s], frames) == SeriesListXml(ss, frames) + SeriesXml(s, frames(|ss|))
  {
    var x := SeriesXml(s, frames(|ss|));
    assert SeriesTexts(ss + [s], frames) == SeriesTexts(ss, frames) + [x];
    ConcatAppend(SeriesTexts(ss, frames), x);
  }

  /** The series text of a concatenation: the second part's frames continue the numbering. */
  lemma SeriesListConcat(a: seq<RadarSeries>, b: seq<RadarSeries>, frames: nat -> Frame)
    ensures SeriesListXml(a + b, frames) == SeriesListXml(a, frames) + SeriesListXml(b, (i: nat) => frames(|a| + i))
  {
    var shifted := (i: nat) => frames(|a| + i);
    assert SeriesTexts(a + b, frames) == SeriesTexts(a, frames) + SeriesTexts(b, shifted);
    ConcatJoin(SeriesTexts(a, frames), SeriesTexts(b, shifted));
  }

  /**
    Adding a series inserts its text just before the data labels and axes and
    leaves the text before it unchanged.
   */
  lemma AddSeriesExtendsOutput(c: Chart, s: RadarSeries, ctx: Context)
    ensures var axes := AxesOf(c, ctx.catId, ctx.valId).0;
      && ChartBody(c, ctx)
           == ChartHeadXml(c) + SeriesListXml(c.series, ctx.seriesFrame) + ChartTailXml(c, axes, ctx)
      && ChartBody(AddSeries(c, s), ctx)
           == ChartHeadXml(c) + SeriesListXml(c.series, ctx.seriesFrame)
              + SeriesXml(s, ctx.seriesFrame(|c.series|)) + ChartTailXml(c, axes, ctx)
  {
    var c' := AddSeries(c, s);
    BodyParts(c, ctx);
    BodyParts(c', ctx);
    AddSeriesKeepsEnds(c, s, ctx);
    SeriesListAppend(c.series, s, ctx.seriesFrame);
  }

  lemma BodyParts(c: Chart, ctx: Context)
    ensures ChartBody(c, ctx)
      == ChartHeadXml(c) + SeriesListXml(c.series, ctx.seriesFrame) + ChartTailXml(c, AxesOf(c, ctx.catId, ctx.valId).0, ctx)
  {
  }

  lemma AddSeriesKeepsEnds(c: Chart, s: RadarSeries, ctx: Context)
    ensures ChartHeadXml(AddSeries(c, s)) == ChartHeadXml(c)
    ensures AxesOf(AddSeries(c, s), ctx.catId, ctx.valId).0 == AxesOf(c, ctx.catId, ctx.valId).0
    ensures var axes := AxesOf(c, ctx.catId, ctx.valId).0;
      ChartTailXml(AddSeries(c, s), axes, ctx) == ChartTailXml(c, axes, ctx)
  {
    assert RadarStyleOf(AddSeries(c, s)) == RadarStyleOf(c);
  }

  /**
    A new chart writes the standard style, varied colours, no series and no
    data labels, then both passes over freshly built axes.
   */
  lemma FreshChartXml(ctx: Context)
    ensures var axes := NewAxes(ctx.catId, ctx.valId);
      ParseChartHead(ChartBody(NewChart(), ctx))
        == Some((Standard, true, ctx.axesXml(axes, true) + "</c:radarChart>" + ctx.axesXml(axes, false)))
  {
    EmptyChartDecodes(NewChart(), ctx);
  }

  lemma EmptyChartDecodes(c: Chart, ctx: Context)
    requires c.series == [] && c.dLbls.None? && c.axes.None?
    ensures var axes := NewAxes(ctx.catId, ctx.valId);
      ParseChartHead(ChartBody(c, ctx))
        == Some((RadarStyleOf(c), c.varyColors, ctx.axesXml(axes, true) + "</c:radarChart>" + ctx.axesXml(axes, false)))
  {
    var axes := AxesOf(c, ctx.catId, ctx.valId).0;
    var tail := ctx.axesXml(axes, true) + "</c:radarChart>" + ctx.axesXml(axes, false);
    assert SeriesListXml(c.series, ctx.seriesFrame) + ChartTailXml(c, axes, ctx) == tail by {
      assert SeriesListXml(c.series, ctx.seriesFrame) == "";
      assert ChartTailXml(c, axes, ctx) == "" + tail;
    }
    ChartBodyDecodes(c, ctx);
  }

  /** The axes are built once: a second access returns the same container, whatever ids it offers. */
  lemma AxesMemoised(c: Chart, catId: int, valId: int, catId': int, valId': int)
    ensures var (a, c1) := AxesOf(c, catId, valId);
      AxesOf(c1, catId', valId') == (a, c1)
  {
  }

  /** Repeated `cat_axis` and `val_axis` reads return the same axes, in their own slots. */
  lemma AxisAccessorsStable(c: Chart, catId: int, valId: int, catId': int, valId': int)
    requires Valid(c)
    ensures var (cat, c1) := CatAxisOf(c, catId, valId);
      && cat.CatAxis?
      && CatAxisOf(c1, catId', valId') == (cat, c1)
      && ValAxisOf(c1, catId', valId').0 == c1.axes.value.valAxis
      && ValAxisOf(c1, catId', valId').0.ValAxis?
  {
  }

  /** Serialising again, after the lazy getters have run, writes the same text and changes nothing. */
  lemma SerializeIdempotent(c: Chart, ctx: Context, catId': int, valId': int)
    ensures var (x1, c1) := Serialize(c, ctx);
      var ctx' := ctx.(catId := catId', valId := valId');
      Serialize(c1, ctx').0 == x1 && Serialize(c1, ctx').1 == c1
  {
    var (x1, c1) := Serialize(c, ctx);
    var ctx' := ctx.(catId := catId', valId := valId');
    assert RadarStyleOf(c1) == RadarStyleOf(c);
    assert AxesOf(c1, catId', valId').0 == AxesOf(c, ctx.catId, ctx.valId).0;
    assert ChartBody(c1, ctx') == ChartBody(c, ctx);
  }

  /** Assigning a valid style makes the getter, and the written head, report it. */
  lemma SetStyleShows(c: Chart, st: RadarStyle, ctx: Context)
    ensures SetRadarStyle(c, Sym(StyleName(st))).Success?
    ensures var c' := SetRadarStyle(c, Sym(StyleName(st))).value;
      && RadarStyleOf(c') == st
      && ParseChartHead(ChartBody(c', ctx)).Some?
      && ParseChartHead(ChartBody(c', ctx)).value.0 == st
  {
    var c' := SetRadarStyle(c, Sym(StyleName(st))).value;
    ChartBodyDecodes(c', ctx);
  }
}
