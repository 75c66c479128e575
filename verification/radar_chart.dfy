/**
  `Axlsx::RadarChart`: the radar style, the series in insertion order, the
  optional chart-level data labels and the lazily built axes, and the
  `<c:radarChart>` element it writes inside the Chart base class's text.
 */
module RadarChart {
  import opened Wrappers
  import opened Values
  import opened XmlText
  import opened Series
  import opened ChartAxes

  /** The three values `radar_style` may take. */
  datatype RadarStyle = Standard | Marker | Filled

  /** The name of the style's Ruby symbol, as written in `<c:radarStyle val=...>`. */
  function StyleName(st: RadarStyle): string {
    match st
    case Standard => "standard"
    case Marker => "marker"
    case Filled => "filled"
  }

  /** The style whose symbol has this name, if any. */
  function StyleNamed(name: string): (r: Option<RadarStyle>)
    ensures r.Some? <==> name in {"standard", "marker", "filled"}
    ensures r.Some? ==> StyleName(r.value) == name
  {
    if name == "standard" then Some(Standard)
    else if name == "marker" then Some(Marker)
    else if name == "filled" then Some(Filled)
    else None
  }

  /** The class `add_series` instantiates: the base class's default, or the radar series. */
  datatype SeriesType = PlainSeries | RadarSeriesType

  /** Chart-level data labels; what they write is not part of this model. */
  datatype DataLabels = DataLabels(xml: string)

  /**
    A radar chart. `radarStyle` and `axes` are None until first read, as the
    library builds them lazily.
   */
  datatype Chart = Chart(
    radarStyle: Option<RadarStyle>,
    varyColors: bool,
    series: seq<RadarSeries>,
    dLbls: Option<DataLabels>,
    axes: Option<Axes>,
    seriesType: SeriesType)

  /** Once built, the axes hold a category axis and a value axis in their own slots. */
  predicate Valid(c: Chart) {
    c.axes.Some? ==> WellFormed(c.axes.value)
  }

  // ---------------------------------------------------------------------------
  // Construction, accessors and setters
  // ---------------------------------------------------------------------------

  /** A new radar chart: colours varied, no series, no data labels, radar series type. */
  function NewChart(): (c: Chart)
    ensures Valid(c)
    ensures c.varyColors && c.series == [] && c.dLbls.None?
    ensures c.seriesType == RadarSeriesType
    ensures c.radarStyle.None? && c.axes.None?
  {
    Chart(None, true, [], None, None, RadarSeriesType)
  }

  /** The `radar_style` getter: `:standard` until another style is assigned. */
  function RadarStyleOf(c: Chart): RadarStyle {
    c.radarStyle.GetOr(Standard)
  }

  /** `radar_style=` accepts only the symbols `:standard`, `:marker` and `:filled`. */
  function SetRadarStyle(c: Chart, v: Value): (r: Result<Chart, Error>)
    ensures r.Success? <==> v in {Sym("standard"), Sym("marker"), Sym("filled")}
    ensures r.Success? ==> StyleName(RadarStyleOf(r.value)) == v.name
    ensures r.Success? ==> r.value.(radarStyle := c.radarStyle) == c
    ensures r.Failure? ==> r.error == ArgumentError("RadarChart.radar_style")
  {
    if v.Sym? && StyleNamed(v.name).Some? then Success(c.(radarStyle := StyleNamed(v.name)))
    else Failure(ArgumentError("RadarChart.radar_style"))
  }

  /**
    `axes`: the container, built from the given ids on first access and
    remembered afterwards. Returns the container and the chart that now holds it.
   */
  function AxesOf(c: Chart, catId: int, valId: int): (r: (Axes, Chart))
    ensures r.1.axes == Some(r.0)
    ensures c.axes.Some? ==> r.0 == c.axes.value && r.1 == c
    ensures c.axes.None? ==> r.0 == NewAxes(catId, valId) && r.1 == c.(axes := Some(r.0))
    ensures Valid(c) ==> WellFormed(r.0) && Valid(r.1)
  {
    match c.axes
    case Some(a) => (a, c)
    case None =>
      var a := NewAxes(catId, valId);
      (a, c.(axes := Some(a)))
  }

  /** `cat_axis`: the axis in the `:cat_axis` slot. */
  function CatAxisOf(c: Chart, catId: int, valId: int): (r: (Axis, Chart))
    requires Valid(c)
    ensures r.0.CatAxis? && Valid(r.1)
    ensures r.1.axes.Some? && r.0 == r.1.axes.value.catAxis
  {
    var (a, c') := AxesOf(c, catId, valId);
    (a.catAxis, c')
  }

  /** `val_axis`: the axis in the `:val_axis` slot. */
  function ValAxisOf(c: Chart, catId: int, valId: int): (r: (Axis, Chart))
    requires Valid(c)
    ensures r.0.ValAxis? && Valid(r.1)
    ensures r.1.axes.Some? && r.0 == r.1.axes.value.valAxis
  {
    var (a, c') := AxesOf(c, catId, valId);
    (a.valAxis, c')
  }

  /** The series list grows at its end; in the library a new series appends itself to its chart. */
  function AddSeries(c: Chart, s: RadarSeries): (r: Chart)
    ensures r.series == c.series + [s]
    ensures r.(series := c.series) == c
  {
    c.(series := c.series + [s])
  }

  // ---------------------------------------------------------------------------
  // Serialisation
  // ---------------------------------------------------------------------------

  /**
    What the collaborators outside this model contribute: the Chart base
    class's text around the block, the Series base class's text around the
    body of the series at each position, the text of the axes with and
    without ids, and the ids a freshly built axis pair would receive.
   */
  datatype Context = Context(
    chartFrame: Frame,
    seriesFrame: nat -> Frame,
    axesXml: (Axes, bool) -> string,
    catId: int,
    valId: int)

  /** The text of each series, inside the frame for its position. */
  function SeriesTexts(ss: seq<RadarSeries>, frames: nat -> Frame): (r: seq<string>)
    ensures |r| == |ss|
  {
    seq(|ss|, i requires 0 <= i < |ss| => SeriesXml(ss[i], frames(i)))
  }

  /** Every series in insertion order (`@series.each { |ser| ser.to_xml_string(str) }`). */
  function SeriesListXml(ss: seq<RadarSeries>, frames: nat -> Frame): string {
    Concat(SeriesTexts(ss, frames))
  }

  function DataLabelsXml(d: Option<DataLabels>): string {
    if d.Some? then d.value.xml else ""
  }

  /** The opening tag, the radar style, and the vary-colours flag. */
  function ChartHeadXml(c: Chart): string {
    "<c:radarChart>" + "<c:radarStyle val=\"" + StyleName(RadarStyleOf(c)) + "\"/>"
    + "<c:varyColors val=\"" + BoolText(c.varyColors) + "\"/>"
  }

  /** Data labels, the axes with ids, the closing tag, then the axes again without ids. */
  function ChartTailXml(c: Chart, axes: Axes, ctx: Context): string {
    DataLabelsXml(c.dLbls) + ctx.axesXml(axes, true) + "</c:radarChart>" + ctx.axesXml(axes, false)
  }

  /** The text `to_xml_string` yields to the Chart base class. */
  function ChartBody(c: Chart, ctx: Context): string {
    var axes := AxesOf(c, ctx.catId, ctx.valId).0;
    ChartHeadXml(c) + SeriesListXml(c.series, ctx.seriesFrame) + ChartTailXml(c, axes, ctx)
  }

  /**
    `to_xml_string`: the chart's text, and the chart after the lazy `axes` and
    `radar_style` getters it calls have remembered their values.
   */
  function Serialize(c: Chart, ctx: Context): (r: (string, Chart))
    ensures Valid(c) ==> Valid(r.1)
    ensures r.1.radarStyle == Some(RadarStyleOf(c))
    ensures r.1.axes == Some(AxesOf(c, ctx.catId, ctx.valId).0)
    ensures r.1.(axes := c.axes, radarStyle := c.radarStyle) == c
  {
    var (_, c') := AxesOf(c, ctx.catId, ctx.valId);
    (ctx.chartFrame.open + ChartBody(c, ctx) + ctx.chartFrame.close,
     c'.(radarStyle := Some(RadarStyleOf(c))))
  }
}
