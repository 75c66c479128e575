/**
  `Axlsx::RadarSeries`: the styling of one radar-chart series and the
  DrawingML it writes inside the `<c:ser>` element of the Series base class.
 */
module Series {
  import opened Wrappers
  import opened Values
  import opened XmlText

  /** The marker-symbol sentinel `:default`: leave the marker to the chart type. */
  const DefaultSymbol: string := "default"

  /**
    One radar series. `color` and `lnWidth` (in EMUs, kept as the string the
    library appends) are absent until set; `markerSymbol` is the name of the
    Ruby symbol, `DefaultSymbol` standing for `:default`.
   */
  datatype RadarSeries = RadarSeries(
    color: Option<string>,
    colors: seq<string>,
    lnWidth: Option<string>,
    showMarker: bool,
    markerSymbol: string,
    labels: Option<AxDataSource>,
    data: Option<NumDataSource>)

  /** The options `initialize` reads itself; the data sources arrive already wrapped. */
  datatype SeriesOptions = SeriesOptions(
    markerSymbol: Option<string>,
    labels: Option<AxDataSource>,
    data: Option<NumDataSource>,
    lnWidth: Option<string>)

  // ---------------------------------------------------------------------------
  // Construction and guarded setters
  // ---------------------------------------------------------------------------

  /** A new series: no colours, markers hidden, the `:default` symbol unless one is given. */
  function NewSeries(opts: SeriesOptions): (s: RadarSeries)
    ensures s.colors == [] && !s.showMarker && s.color.None?
    ensures opts.markerSymbol.None? ==> s.markerSymbol == DefaultSymbol
    ensures opts.markerSymbol.Some? ==> s.markerSymbol == opts.markerSymbol.value
    ensures s.labels == opts.labels && s.data == opts.data && s.lnWidth == opts.lnWidth
  {
    RadarSeries(None, [], opts.lnWidth, false, opts.markerSymbol.GetOr(DefaultSymbol), opts.labels, opts.data)
  }

  /** `color=` stores whatever it is given. */
  function SetColor(s: RadarSeries, v: Option<string>): (r: RadarSeries)
    ensures r.color == v
    ensures r.(color := s.color) == s
  {
    s.(color := v)
  }

  /** `colors=` accepts only an Array, which replaces the previous list. */
  function SetColors(s: RadarSeries, v: Value): (r: Result<RadarSeries, Error>)
    ensures r.Success? <==> v.Arr?
    ensures r.Success? ==> r.value.colors == v.items && r.value.(colors := s.colors) == s
    ensures r.Failure? ==> r.error == ArgumentError("RadarSeries.colors")
  {
    if v.Arr? then Success(s.(colors := v.items))
    else Failure(ArgumentError("RadarSeries.colors"))
  }

  /** `ln_width=` stores whatever it is given; the 0..20116800 EMU range is not enforced. */
  function SetLnWidth(s: RadarSeries, v: Option<string>): (r: RadarSeries)
    ensures r.lnWidth == v
    ensures r.(lnWidth := s.lnWidth) == s
  {
    s.(lnWidth := v)
  }

  /** `show_marker=` accepts only a boolean. */
  function SetShowMarker(s: RadarSeries, v: Value): (r: Result<RadarSeries, Error>)
    ensures r.Success? <==> v.Bool?
    ensures r.Success? ==> r.value.showMarker == v.b && r.value.(showMarker := s.showMarker) == s
    ensures r.Failure? ==> r.error == ArgumentError("show_marker")
  {
    if v.Bool? then Success(s.(showMarker := v.b))
    else Failure(ArgumentError("show_marker"))
  }

  /**
    `marker_symbol=` accepts only a symbol from the permitted marker symbols,
    which the shape-property subsystem defines and this model takes as given.
   */
  function SetMarkerSymbol(s: RadarSeries, v: Value, permitted: set<string>): (r: Result<RadarSeries, Error>)
    ensures r.Success? <==> v.Sym? && v.name in permitted
    ensures r.Success? ==> r.value.markerSymbol == v.name && r.value.(markerSymbol := s.markerSymbol) == s
    ensures r.Failure? ==> r.error == ArgumentError("marker_symbol")
  {
    if v.Sym? && v.name in permitted then Success(s.(markerSymbol := v.name))
    else Failure(ArgumentError("marker_symbol"))
  }

  /** The private `data=`: only a NumDataSource is accepted. */
  function SetData(s: RadarSeries, v: Value): (r: Result<RadarSeries, Error>)
    ensures r.Success? <==> v.NumSource?
    ensures r.Success? ==> r.value.data == Some(v.num) && r.value.(data := s.data) == s
    ensures r.Failure? ==> r.error == ArgumentError("Series.data")
  {
    if v.NumSource? then Success(s.(data := Some(v.num)))
    else Failure(ArgumentError("Series.data"))
  }

  /** The private `labels=`: only an AxDataSource is accepted. */
  function SetLabels(s: RadarSeries, v: Value): (r: Result<RadarSeries, Error>)
    ensures r.Success? <==> v.AxSource?
    ensures r.Success? ==> r.value.labels == Some(v.ax) && r.value.(labels := s.labels) == s
    ensures r.Failure? ==> r.error == ArgumentError("Series.labels")
  {
    if v.AxSource? then Success(s.(labels := Some(v.ax)))
    else Failure(ArgumentError("Series.labels"))
  }

  // ---------------------------------------------------------------------------
  // Serialisation
  // ---------------------------------------------------------------------------

  /** The contents of one `<c:spPr>` block: the colour of both fills, and the line width. */
  datatype Shape = Shape(fill: Option<string>, width: Option<string>)

  /** A solid fill naming one RGB colour. */
  function FillXml(color: string): string {
    "<a:solidFill><a:srgbClr val=\"" + color + "\"/></a:solidFill>"
  }

  function OptFillXml(color: Option<string>): string {
    if color.Some? then FillXml(color.value) else ""
  }

  /** The ` w="..."` attribute of `<a:ln`, present only with a line width. */
  function WidthXml(lnWidth: Option<string>): string {
    if lnWidth.Some? then " w=\"" + lnWidth.value + "\"" else ""
  }

  /** A shape-properties block: fill, then a line carrying the width and the same fill. */
  function ShapeBlockXml(sh: Shape): string {
    "<c:spPr>" + OptFillXml(sh.fill) + "<a:ln" + WidthXml(sh.width) + ">" + OptFillXml(sh.fill) + "</a:ln>" + "</c:spPr>"
  }

  /** The leading shape-properties block, written only when a colour or a line width is set. */
  function ShapeXml(color: Option<string>, lnWidth: Option<string>): string {
    if color.Some? || lnWidth.Some? then ShapeBlockXml(Shape(color, lnWidth)) else ""
  }

  /** The marker element: "none" while markers are hidden, nothing for the `:default` symbol. */
  function MarkerXml(showMarker: bool, symbol: string): string {
    if !showMarker then "<c:marker><c:symbol val=\"none\"/></c:marker>"
    else if symbol != DefaultSymbol then "<c:marker><c:symbol val=\"" + symbol + "\"/></c:marker>"
    else ""
  }

  /** The block written for one entry of `colors`. */
  function PointXml(c: string, lnWidth: Option<string>): string {
    "<c:spPr><a:solidFill>" + "<a:srgbClr val=\"" + c + "\"/>" + "</a:solidFill><a:ln" + WidthXml(lnWidth)
    + "><a:solidFill><a:srgbClr val=\"" + c + "\"/></a:solidFill></a:ln></c:spPr>"
  }

  /** `colors.each_with_index`: one block per entry of `colors`, one after the other. */
  function PointsXml(colors: seq<string>, lnWidth: Option<string>): string {
    Concat(Texts(colors, c => PointXml(c, lnWidth)))
  }

  function LabelsXml(labels: Option<AxDataSource>): string {
    if labels.Some? then labels.value.xml else ""
  }

  function DataXml(data: Option<NumDataSource>): string {
    if data.Some? then data.value.xml else ""
  }

  /** The text `to_xml_string` yields to the Series base class. */
  function SeriesBody(s: RadarSeries): string {
    ShapeXml(s.color, s.lnWidth) + MarkerXml(s.showMarker, s.markerSymbol) + PointsXml(s.colors, s.lnWidth)
    + LabelsXml(s.labels) + DataXml(s.data)
  }

  /** The whole series element, with the base class's opaque text around the body. */
  function SeriesXml(s: RadarSeries, frame: Frame): string {
    frame.open + SeriesBody(s) + frame.close
  }
}
