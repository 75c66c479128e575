# Radar charts in caxlsx, modelled in Dafny

This project models the radar-chart part of caxlsx, the Ruby library that
writes Office Open XML spreadsheets. It has two classes:

- `Axlsx::RadarSeries` holds one series' styling: a colour, a list of
  per-point colours, a line width, the marker switch and the marker symbol.
  It also holds the series' label and data sources, and writes the
  DrawingML for its body.
- `Axlsx::RadarChart` holds the radar style (`:standard`, `:marker` or
  `:filled`), the series in insertion order, the optional data labels and
  the lazily built axis pair. It writes the `<c:radarChart>` element.

The model is functional. Each object is an immutable datatype. A validating
setter returns either the updated value or an `ArgumentError` naming the
rejected attribute, and on failure the caller keeps the old value. Serialisers are pure
functions to strings.

Each serialiser has a decoder as its partner, and a round-trip lemma
connects the two:

- `SeriesLayout.ParseItems` reads the shape-properties blocks and marker
  elements at the start of a series body.
- `ChartProperties.ParseChartHead` reads the chart's opening tag, its radar
  style and its vary-colours flag.

The layout a series promises is stated separately, as a list of items
(`SeriesLayout.ExpectedItems`). The decoders assume that an attribute value
contains no double quote (`XmlText.AttrSafe`), because the library writes
values without escaping.

Modules, one per file:

| file | module | contents |
|---|---|---|
| wrappers.dfy | Wrappers | `Option` and `Result` |
| xml_text.dfy | XmlText | prefix stripping, reading an attribute value up to its closing quote, and texts written one after the other |
| values.dfy | Values | the Ruby values a setter may receive, `ArgumentError`, opaque data-source XML, the base-class frame |
| radar_series.dfy | Series | the series record, its constructor, its setters and its XML |
| series_layout.dfy | SeriesLayout | the promised layout, the decoders and the round trips |
| series_properties.dfy | SeriesProperties | counts, order and contents of the blocks; how each setter shows in the output |
| axes.dfy | ChartAxes | the two-slot axes container |
| radar_chart.dfy | RadarChart | the chart record, its getters and setters, and its XML |
| chart_properties.dfy | ChartProperties | head round trip, series order, lazy-axes stability, idempotent serialisation |
| scenarios.dfy | Scenarios | the library's own usage scenarios, stated about the model |

## Model

| member | source | states |
|---|---|---|
| Series.NewSeries | lib/axlsx/drawing/radar_series.rb:45-53 | a new series has no colours and markers hidden; its marker symbol is `:default` unless an option names one; it takes labels, data and line width from the options |
| Series.SetColor | lib/axlsx/drawing/radar_series.rb:56-58 | `color=` stores any string, or nil, and changes nothing else |
| Series.SetColors | lib/axlsx/drawing/radar_series.rb:61-64 | `colors=` succeeds exactly for an Array, which replaces the list and changes nothing else; any other value raises `ArgumentError` naming `RadarSeries.colors` |
| Series.SetLnWidth | lib/axlsx/drawing/radar_series.rb:67-69 | `ln_width=` stores any string, or nil, and changes nothing else |
| Series.SetShowMarker | lib/axlsx/drawing/radar_series.rb:72-75 | `show_marker=` succeeds exactly for a boolean and otherwise raises; on success only the flag changes |
| Series.SetMarkerSymbol | lib/axlsx/drawing/radar_series.rb:78-81 | `marker_symbol=` succeeds exactly for a permitted symbol and otherwise raises; on success only the symbol changes |
| Series.SetData | lib/axlsx/drawing/radar_series.rb:129-132 | `data=` succeeds exactly for a NumDataSource and otherwise raises naming `Series.data`; on success only the data changes |
| Series.SetLabels | lib/axlsx/drawing/radar_series.rb:135-138 | `labels=` succeeds exactly for an AxDataSource and otherwise raises naming `Series.labels`; on success only the labels change |
| XmlText.ReadAttrRoundTrip | lib/axlsx/drawing/radar_series.rb:91 | a quote-free value written between quotes reads back as itself, with the text after the quote |
| SeriesLayout.ShapeRoundTrip | lib/axlsx/drawing/radar_series.rb:89-102 | a `<c:spPr>` block reads back as its fill colour (the same in both fills) and its line width |
| SeriesLayout.MarkerRoundTrip | lib/axlsx/drawing/radar_series.rb:105-109 | a marker element reads back as its symbol |
| SeriesLayout.ParseRenderRoundTrip | lib/axlsx/drawing/radar_series.rb:87-119 | any run of blocks and markers, followed by text that opens neither, reads back as exactly those items and that text |
| SeriesLayout.PointIsShapeBlock | lib/axlsx/drawing/radar_series.rb:111-119 | the block written for one entry of `colors` is a shape block filled with that colour, carrying the series' line width |
| SeriesLayout.PointsLayout | lib/axlsx/drawing/radar_series.rb:111-119 | the per-point text is one such block per colour, in list order |
| Series.SeriesBody | lib/axlsx/drawing/radar_series.rb:86-124 | `to_xml_string`'s block; what it writes is stated by SeriesLayout.SeriesLayoutHolds (the order of its parts) and SeriesLayout.SeriesBodyDecodes (what a reader recovers from it) |
| SeriesLayout.SeriesLayoutHolds | lib/axlsx/drawing/radar_series.rb:86-124 | the series body is the leading block, the marker, the per-point blocks, then the labels' XML and then the data's XML |
| SeriesLayout.SeriesBodyDecodes | lib/axlsx/drawing/radar_series.rb:86-124 | reading a series body back yields its promised layout followed by the labels' and data's XML |
| SeriesProperties.LayoutCounts | lib/axlsx/drawing/radar_series.rb:88-119 | a series writes one leading block if a colour or width is set, one block per colour, and one marker unless markers are shown with `:default` |
| SeriesProperties.EveryBlockCarriesWidth | lib/axlsx/drawing/radar_series.rb:94-117 | every block the series writes carries the series' line width |
| SeriesProperties.PointBlocksInOrder | lib/axlsx/drawing/radar_series.rb:111-119 | the per-point blocks come after the leading block and the marker; block i is filled with colour i |
| SeriesProperties.LeadCases | lib/axlsx/drawing/radar_series.rb:88-103 | whatever follows it, the leading text reads back as one block carrying the colour and the width when either is set, and as no block otherwise |
| SeriesProperties.MarkerCases | lib/axlsx/drawing/radar_series.rb:105-109 | whatever follows it, the marker text reads back as the "none" marker while markers are hidden, as the symbol's marker when the symbol is not `:default`, and as no marker otherwise |
| SeriesProperties.NewSeriesLayout | lib/axlsx/drawing/radar_series.rb:45-53 | a new series writes the "none" marker, preceded by a block only when a line width is given |
| SeriesProperties.ColorsReplaceWholesale | lib/axlsx/drawing/radar_series.rb:61-64 | after two `colors=` calls only the second list is written |
| SeriesProperties.SetColorLeads | lib/axlsx/drawing/radar_series.rb:56-58 | after `color=` the first item written is a block carrying that colour |
| SeriesProperties.SetLnWidthEverywhere | lib/axlsx/drawing/radar_series.rb:67-69 | after `ln_width=` the series writes 1 + (number of colours) blocks, and every one of them carries the width |
| ChartAxes.NewAxes | lib/axlsx/drawing/radar_chart.rb:70-72 | a new container holds a category axis in `:cat_axis` and a value axis in `:val_axis`, with the given ids |
| RadarChart.NewChart | lib/axlsx/drawing/radar_chart.rb:37-42 | a new chart varies colours, has no series and no data labels, and makes radar series |
| RadarChart.StyleNamed | lib/axlsx/drawing/radar_chart.rb:45-48 | exactly the names standard, marker and filled denote a style, and each style's name reads back as itself |
| RadarChart.SetRadarStyle | lib/axlsx/drawing/radar_chart.rb:45-48 | `radar_style=` succeeds exactly for `:standard`, `:marker` or `:filled` and otherwise raises naming `RadarChart.radar_style`; on success the getter reports that style and nothing else changes |
| RadarChart.AxesOf | lib/axlsx/drawing/radar_chart.rb:70-72 | the axes are built from the given ids on first access and returned unchanged afterwards |
| RadarChart.CatAxisOf | lib/axlsx/drawing/radar_chart.rb:12-14 | `cat_axis` returns a category axis, the one in the container's `:cat_axis` slot |
| RadarChart.ValAxisOf | lib/axlsx/drawing/radar_chart.rb:19-21 | `val_axis` returns a value axis, the one in the container's `:val_axis` slot |
| RadarChart.AddSeries | lib/axlsx/drawing/radar_chart.rb:59 | a new series goes at the end of the list and nothing else changes |
| RadarChart.Serialize | lib/axlsx/drawing/radar_chart.rb:54-65 | after serialising, the chart holds the style the getter reported and the axes it wrote; series, data labels, vary-colours and series type are unchanged |
| RadarChart.ChartBody | lib/axlsx/drawing/radar_chart.rb:54-65 | `to_xml_string`'s block; what it writes is stated by ChartProperties.ChartBodyDecodes (head, then series text, then tail), ChartProperties.AddSeriesExtendsOutput and ChartProperties.FreshChartXml |
| RadarChart.RadarStyleOf | lib/axlsx/drawing/radar_chart.rb:27-29 | the `radar_style` getter; that it reports `:standard` until a style is assigned and the assigned style afterwards is stated by RadarChart.SetRadarStyle, Scenarios.InitialChart and ChartProperties.SetStyleShows; that reading it is remembered is stated by RadarChart.Serialize |
| ChartProperties.ChartHeadRoundTrip | lib/axlsx/drawing/radar_chart.rb:56-58 | the chart head reads back as the chart's radar style and vary-colours flag |
| ChartProperties.ChartBodyDecodes | lib/axlsx/drawing/radar_chart.rb:54-65 | the chart body reads back as its style and flag, followed by the series text and the tail |
| XmlText.ConcatJoin | lib/axlsx/drawing/radar_chart.rb:59 | the series text of two lists joined is the first list's text followed by the second's |
| ChartProperties.SeriesListConcat | lib/axlsx/drawing/radar_chart.rb:59 | series are written in list order, and the positions of the second part continue those of the first |
| ChartProperties.AddSeriesExtendsOutput | lib/axlsx/drawing/radar_chart.rb:54-65 | adding a series inserts its text just before the tail and leaves the text before it unchanged |
| ChartProperties.FreshChartXml | lib/axlsx/drawing/radar_chart.rb:37-42 | a new chart writes the standard style, varied colours, and directly after them both passes over freshly built axes |
| ChartProperties.AxesMemoised | lib/axlsx/drawing/radar_chart.rb:70-72 | a second axes access returns the same container, whatever ids it would have drawn |
| ChartProperties.AxisAccessorsStable | lib/axlsx/drawing/radar_chart.rb:12-21 | repeated `cat_axis` reads return the same category axis; `val_axis` then returns the value axis of the same container |
| ChartProperties.SerializeIdempotent | lib/axlsx/drawing/radar_chart.rb:27-72 | serialising a second time writes the same text and leaves the chart as it was |
| ChartProperties.SetStyleShows | lib/axlsx/drawing/radar_chart.rb:45-57 | a style that was assigned is reported by the getter and written in the head |
| Scenarios.InitialChart | test/drawing/tc_radar_chart.rb:15-20 | a new chart is standard-styled, makes radar series, and has a category axis and a value axis |
| Scenarios.RadarStyleAssignments | test/drawing/tc_radar_chart.rb:22-28 | `:inverted` is refused; `:filled` and then `:marker` are each accepted and reported back |
| Scenarios.SeriesFromData | test/drawing/tc_radar_chart.rb:38-39 | a series built from data and labels alone writes only the "none" marker before their XML |
| Scenarios.ChartWithOneSeries | test/drawing/tc_radar_chart.rb:38-45 | a new chart holding one series writes that series between the head and the axes |
| Scenarios.StyledSeries | lib/axlsx/drawing/radar_series.rb:88-109 | a series given a colour and a line width writes exactly one block, carrying both, before the "none" marker |

## Left out

- The Series and Chart base classes are not part of this model. The text they write around a body (`super do … end`) is an opaque frame passed in from outside. This covers the title, the index and order elements, the graphic frame and the plot area.
- The base classes' option pass (`parse_options`, `title:`) is not modelled. `NewSeries` covers only what the radar series' own constructor sets, and `NewChart` takes no options.
- What the axes write is a function parameter, taking the container and the `ids:` flag. Axis ids, which the library draws at random, are parameters too.
- Building a data source from a plain array (`AxDataSource.new`, `NumDataSource.new`) is not modelled. A data source is its already serialised XML.
- Series.SetMarkerSymbol: the set of permitted marker symbols is a parameter, because it is defined by the shape-property validators outside the radar chart. The model also holds the symbol as its name, so a String with a permitted name, which the validator's behaviour for Strings would decide, is not modelled.
- Series.SetShowMarker: only genuine booleans are accepted. The library's boolean validator is defined outside the radar chart; any non-boolean truthy or falsy surrogates it may also accept are not modelled.
- Series.SetShowMarker: the attribute named in its `ArgumentError` ("show_marker") is a placeholder. The error comes from the library's boolean validator, which is not part of this model, and its message is not modelled.
- Series.SetMarkerSymbol: the attribute named in its `ArgumentError` ("marker_symbol") is a placeholder. The error comes from the library's marker-symbol validator, which is not part of this model, and its message is not modelled.
- Series.NewSeries: Ruby's `||` treats `false` like `nil`, so `marker_symbol: false` gives `:default`. The model's options have no `false`, so that case does not arise.
- Series.SetColors: an Array is modelled as a list of strings. An Array holding other values is not modelled. Such a value passes `colors=` and reaches `String#<<` when the series is written, and that call would either fail or, for an Integer, append the character with that code point.
- Series.SetColors: in-place changes to the stored Array are not modelled. The library stores the caller's Array by reference and `colors` hands it back, so `series.colors << "FF0000"`, or a later change to the Array the caller passed, changes what is written without going through `colors=`. In the model such a change corresponds to a fresh `SetColors` with the new list.
- Series.SetColor, Series.SetLnWidth: only a String or nil is modelled. `color=` and `ln_width=` store any Ruby value without a check. A `false` colour or width would act like nil in the guards at radar_series.rb:88, 90, 94, 98 and 115. An Integer width, such as 12700 EMUs, would be appended by `String#<<` as the character with that code point, not as its digits.
- No value is escaped, and a line width is not checked against the 0..20116800 EMU range. Neither happens in the library either. The decoders therefore need quote-free attribute values (`XmlText.AttrSafe`), and the series decoder needs the data-source text not to open another shape block or marker (`SeriesLayout.OpensNoItem`).
- RadarChart.RadarStyleOf: the `radar_style` getter remembers `:standard` on first read. The model splits this into a pure getter with the same result, and `Serialize`, which returns the chart with the style and the axes remembered.
- The `d_lbls` accessor of the Chart base class is not modelled. The radar chart sets it to nil in its constructor, and when present it writes opaque text before the axes.
- Validating the output against the DrawingML schema is not part of this model. Nor is packaging the chart into a workbook, or the `catAxis`, `valAxis` and `radarStyle` aliases, which are the same methods under other names.
