/** The values a Panel item can carry. Only the metrics grid attaches data
    to its items (one row of metric cards each); every other panel passes
    NULL, which is `None` in `Panels.PanelItem`. */
module Items {

  /** One named time series as the metrics grid stores it
      (src/MetricsPanel.c:15-23). `paletteSlot` stands for the chart colour
      attribute CHART_COLOR_1 + paletteSlot. */
  datatype MetricData = MetricData(
    name: string,
    current: real,
    minValue: real,
    maxValue: real,
    history: seq<real>,
    paletteSlot: int)

  /** A MetricRow: the cards shown on one grid row (src/MetricsPanel.c:25-28). */
  datatype ItemData = MetricRow(cards: seq<MetricData>)
}
