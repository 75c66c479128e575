/**
  The library's own usage scenarios, stated about the model: a new chart's
  defaults, assigning radar styles, a chart with one series built from data
  and labels, and a styled series with a colour and a line width.
 */
module Scenarios {
  import opened Wrappers
  import opened Values
  import opened XmlText
  import opened Series
  import opened SeriesLayout
  import opened ChartAxes
  import opened RadarChart
  import opened ChartProperties

  /** A new chart is standard-styled, makes radar series, and builds both axes on demand. */
  lemma InitialChart(catId: int, valId: int)
    ensures RadarStyleOf(NewChart()) == Standard
    ensures NewChart().seriesType == RadarSeriesType
    ensures CatAxisOf(NewChart(), catId, valId).0 == CatAxis(catId)
    ensures ValAxisOf(NewChart(), catId, valId).0 == ValAxis(valId)
  {
  }

  /** `:inverted` is refused; `:filled` and then `:marker` are each reported back. */
  lemma RadarStyleAssignments()
    ensures SetRadarStyle(NewChart(), Sym("inverted")) == Failure(ArgumentError("RadarChart.radar_style"))
    ensures SetRadarStyle(NewChart(), Sym("filled")).Success?
    ensures var c1 := SetRadarStyle(NewChart(), Sym("filled")).value;
      && RadarStyleOf(c1) == Filled
      && SetRadarStyle(c1, Sym("marker")).Success?
      && RadarStyleOf(SetRadarStyle(c1, Sym("marker")).value) == Marker
    ensures SetRadarStyle(NewChart(), Str("filled")).Failure?
  {
  }

  /** A series built from data and labels alone writes only the "none" marker before their XML. */
  lemma SeriesFromData(labels: AxDataSource, data: NumDataSource)
    requires OpensNoItem(labels.xml + data.xml)
    ensures var s := NewSeries(SeriesOptions(None, Some(labels), Some(data), None));
      ParseItems(SeriesBody(s)) == Some(([MarkerItem("none")], labels.xml + data.xml))
  {
    var s := NewSeries(SeriesOptions(None, Some(labels), Some(data), None));
    assert SeriesSafe(s) by {
      assert AttrSafe(DefaultSymbol);
    }
    assert ExpectedItems(s) == [MarkerItem("none")] by {
      assert PointItems(s.colors, s.lnWidth) == [];
    }
    assert LabelsXml(s.labels) + DataXml(s.data) == labels.xml + data.xml;
    SeriesBodyDecodes(s);
  }

  /** A list holding one series writes that series in the first position's frame. */
  lemma OneSeriesList(s: RadarSeries, frames: nat -> Frame)
    ensures SeriesListXml([s], frames) == SeriesXml(s, frames(0))
  {
    SeriesListAppend([], s, frames);
    assert [] + [s] == [s];
  }

  /** A new chart holding one series writes that series between its head and the axes. */
  lemma ChartWithOneSeries(s: RadarSeries, ctx: Context)
    ensures var c := AddSeries(NewChart(), s);
      var axes := NewAxes(ctx.catId, ctx.valId);
      ParseChartHead(ChartBody(c, ctx))
        == Some((Standard, true,
                 SeriesXml(s, ctx.seriesFrame(0))
                 + (ctx.axesXml(axes, true) + "</c:radarChart>" + ctx.axesXml(axes, false))))
  {
    var c := AddSeries(NewChart(), s);
    var axes := NewAxes(ctx.catId, ctx.valId);
    var tail := ctx.axesXml(axes, true) + "</c:radarChart>" + ctx.axesXml(axes, false);
    OneSeriesList(s, ctx.seriesFrame);
    assert ChartTailXml(c, AxesOf(c, ctx.catId, ctx.valId).0, ctx) == tail;
    ChartBodyDecodes(c, ctx);
  }

  /**
    A series given a colour and a line width writes exactly one shape block,
    carrying that colour and that width, before its marker.
   */
  lemma StyledSeries(color: string, width: string)
    requires AttrSafe(color) && AttrSafe(width)
    ensures var s := SetLnWidth(SetColor(NewSeries(SeriesOptions(None, None, None, None)), Some(color)), Some(width));
      ParseItems(SeriesBody(s)) == Some(([ShapeItem(Shape(Some(color), Some(width))), MarkerItem("none")], ""))
  {
    var s := SetLnWidth(SetColor(NewSeries(SeriesOptions(None, None, None, None)), Some(color)), Some(width));
    assert SeriesSafe(s) by {
      assert AttrSafe(DefaultSymbol);
    }
    assert ExpectedItems(s) == [ShapeItem(Shape(Some(color), Some(width))), MarkerItem("none")] by {
      assert PointItems(s.colors, s.lnWidth) == [];
    }
    assert LabelsXml(s.labels) + DataXml(s.data) == "";
    SeriesBodyDecodes(s);
  }
}
