/**
 * The widget library's copy of the data functions
 * (`vendor/dashboard-widgets/dist/lib/data-transform.js`). Its
 * `calculateMetrics`, `generateQuestionStats`, `prepareMetricData` and
 * `calculateDelta` are the engine's, modelled once in `DataBinding`;
 * `prepareChartData` differs: only a funnel gets `stages`.
 */
module DataTransform {
  import opened JsValues
  import DataBinding

  /** The chart types that get `stages` in this copy. */
  const StageTypes: set<string> := {"funnel"}

  /** `prepareChartData` of the widget library. */
  function PrepareChartData(responses: seq<DataBinding.Response>, questionId: Option<string>, chartType: string): (r: DataBinding.ChartPayload)
    ensures r.Stages? <==> chartType == "funnel"
    ensures DataBinding.Entries(r) == DataBinding.Entries(DataBinding.PrepareChartData(responses, questionId, chartType, DataBinding.EngineStageTypes))
  {
    DataBinding.PrepareChartData(responses, questionId, chartType, StageTypes)
  }

  /** A line or area chart gets `segments` here and `stages` from the engine, over the same entries. */
  lemma LineAndAreaDiffer(responses: seq<DataBinding.Response>, questionId: Option<string>, chartType: string)
    requires chartType == "line" || chartType == "area"
    ensures PrepareChartData(responses, questionId, chartType).Segments?
    ensures DataBinding.PrepareChartData(responses, questionId, chartType, DataBinding.EngineStageTypes).Stages?
  {
  }
}

/**
 * The widget library's binder (`vendor/dashboard-widgets/dist/lib/widget-data-binder.js`).
 * It binds like the engine's, with the library's chart data, except that an
 * array of bindings always becomes a keyed object, even with one element.
 */
module WidgetBinder {
  import opened JsValues
  import DataBinding
  import DataTransform

  /** `bindWidgetData` of the widget library. */
  function BindWidgetData(widget: DataBinding.Widget, responses: seq<DataBinding.Response>): (r: DataBinding.WidgetData)
    ensures widget.data.NoData? ==> r == DataBinding.DefaultData(widget, responses)
    ensures widget.data.OneBinding? ==>
      r == DataBinding.BindSingleDataSource(widget.data.binding, responses, widget.variant, DataTransform.StageTypes)
    ensures widget.data.Bindings? <==> r.Keyed?
    ensures widget.data.Bindings? ==> r == DataBinding.Keyed(DataBinding.KeyedData(widget.data.items, responses, DataTransform.StageTypes))
  {
    match widget.data
    case NoData => DataBinding.DefaultData(widget, responses)
    case Bindings(items) => DataBinding.Keyed(DataBinding.KeyedData(items, responses, DataTransform.StageTypes))
    case OneBinding(binding) => DataBinding.BindSingleDataSource(binding, responses, widget.variant, DataTransform.StageTypes)
  }

  /** A one-binding array is wrapped under its key: `binding.id`, or `data0`. */
  lemma OneBindingArrayWrapped(widget: DataBinding.Widget, responses: seq<DataBinding.Response>)
    requires widget.data.Bindings? && |widget.data.items| == 1
    ensures var b := widget.data.items[0];
      BindWidgetData(widget, responses) ==
        DataBinding.Keyed(map[OrElse(b.id, "data0") := DataBinding.BindSingleDataSource(b, responses, None, DataTransform.StageTypes)])
  {
    var items := widget.data.items;
    var e := DataBinding.BoundEntries(items, responses, DataTransform.StageTypes);
    assert e[..0] == [];
    assert NatToString(0) == "0";
    assert DataBinding.BindingKey(items[0], 0) == OrElse(items[0].id, "data0");
    assert DataBinding.Assign(e) == map[][e[0].0 := e[0].1];
  }

  /** On a chart or table with a one-binding array, the engine unwraps and this binder does not. */
  lemma EngineUnwrapsOneBindingChart(widget: DataBinding.Widget, responses: seq<DataBinding.Response>)
    requires widget.data.Bindings? && |widget.data.items| == 1
    requires widget.kind == Some("chart") || widget.kind == Some("table")
    ensures !DataBinding.BindWidgetData(widget, responses).Keyed?
    ensures BindWidgetData(widget, responses).Keyed?
    ensures DataBinding.BindWidgetData(widget, responses) != BindWidgetData(widget, responses)
  {
  }
}
