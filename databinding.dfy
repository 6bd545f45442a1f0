/**
 * The dashboard engine's data binding (`vendor/dashboard-engine/dist/data-binding.js`):
 * response metrics, the answer distribution of a question, and the data a
 * widget is bound to. Which chart types get `stages` instead of `segments`
 * is a parameter, as the widget library's copy of this code differs from
 * the engine's only there. Times are integer timestamps; percentages and
 * the completion rate's decimal text are left out (floating point).
 */
module DataBinding {
  import opened JsValues

  /** A stored answer; `blockId` and `answer` may be `undefined` in preview data. */
  datatype Answer = Answer(id: string, responseId: Option<string>, blockId: Option<string>, answer: Option<Value>, createdAt: int)

  datatype Response = Response(
    id: Option<string>,
    sessionId: Option<string>,
    completedAt: Option<int>,
    createdAt: int,
    answers: seq<Answer>,
    respondentName: Option<string>)

  // ---------------------------------------------------------------------
  // Metrics

  /** The builder's snake_case metric names that have a camelCase form. */
  const SnakeNames: set<string> :=
    {"total_responses", "completed_responses", "completion_rate", "avg_completion_time", "opt_in_rate", "avg_donation"}

  /** `normalizeMetricName` : `mapping[name] || name`. */
  function NormalizeMetricName(name: Option<string>): (r: Option<string>)
    ensures name.None? || name.value !in SnakeNames ==> r == name
    ensures r.None? <==> name.None?
    ensures r.Some? ==> r.value !in SnakeNames
  {
    match name
    case Some("total_responses") => Some("totalResponses")
    case Some("completed_responses") => Some("completedResponses")
    case Some("completion_rate") => Some("completionRate")
    case Some("avg_completion_time") => Some("avgCompletionTime")
    case Some("opt_in_rate") => Some("optInRate")
    case Some("avg_donation") => Some("avgDonation")
    case _ => name
  }

  /** A camelCase name is never a snake_case one, so normalizing twice changes nothing. */
  lemma NormalizeMetricNameIdempotent(name: Option<string>)
    ensures NormalizeMetricName(NormalizeMetricName(name)) == NormalizeMetricName(name)
  {
  }

  datatype DashboardMetrics = DashboardMetrics(totalResponses: nat, completedResponses: nat, lastResponseAt: Option<int>)

  function CompletedCount(responses: seq<Response>): (n: nat)
    ensures n <= |responses|
  {
    if responses == [] then 0
    else CompletedCount(responses[..|responses| - 1]) + (if responses[|responses| - 1].completedAt.Some? then 1 else 0)
  }

  /** `response.completedAt || response.createdAt` */
  function Stamp(r: Response): int
  {
    if r.completedAt.Some? then r.completedAt.value else r.createdAt
  }

  /** The `reduce` keeping the latest stamp. */
  function Latest(responses: seq<Response>): (r: Option<int>)
    ensures r.None? <==> responses == []
    ensures r.Some? ==> forall i | 0 <= i < |responses| :: Stamp(responses[i]) <= r.value
    ensures r.Some? ==> exists i | 0 <= i < |responses| :: Stamp(responses[i]) == r.value
  {
    if responses == [] then None
    else
      var n := |responses| - 1;
      var date := Stamp(responses[n]);
      var latest := Latest(responses[..n]);
      assert forall i | 0 <= i < n :: responses[..n][i] == responses[i];
      if latest.None? || date > latest.value then Some(date) else latest
  }

  /** The positions of the responses that have a completion time. */
  function CompletedSet(responses: seq<Response>): set<nat>
  {
    set i: nat | i < |responses| && responses[i].completedAt.Some?
  }

  /** `calculateMetrics`, without the completion rate's rounding. */
  function CalculateMetrics(responses: seq<Response>): (m: DashboardMetrics)
    ensures m.totalResponses == |responses| && m.completedResponses <= m.totalResponses
    ensures m.completedResponses == |CompletedSet(responses)|
    ensures m.lastResponseAt == Latest(responses)
  {
    CompletedCountIsFilter(responses);
    DashboardMetrics(|responses|, CompletedCount(responses), Latest(responses))
  }

  /** The completed count is the number of responses with a completion time. */
  lemma {:induction false} CompletedCountIsFilter(responses: seq<Response>)
    ensures CompletedCount(responses) == |CompletedSet(responses)|
  {
    if responses != [] {
      var n := |responses| - 1;
      CompletedCountIsFilter(responses[..n]);
      var before := CompletedSet(responses[..n]);
      var after := CompletedSet(responses);
      if responses[n].completedAt.Some? {
        assert after == before + {n};
      } else {
        assert after == before;
      }
    }
  }

  // ---------------------------------------------------------------------
  // Question statistics

  /** The distribution key of an answer: the string, else `String(.value)`, else `.text`, else JSON. */
  function AnswerKey(answer: Option<Value>): string
  {
    match answer
    case None => "undefined"
    case Some(v) =>
      if v.VStr? then v.s
      else if Field(v, "value").Some? then ToJsString(Field(v, "value").value)
      else if Field(v, "text").Some? then ToJsString(Field(v, "text").value)
      else Stringify(v)
  }

  /** The answers to the question, in order, from completed responses only. */
  function AnswersFor(responses: seq<Response>, questionId: Option<string>): seq<Option<Value>>
  {
    if responses == [] then []
    else
      var r := responses[|responses| - 1];
      AnswersFor(responses[..|responses| - 1], questionId) + (if r.completedAt.Some? then AnswersIn(r.answers, questionId) else [])
  }

  function AnswersIn(answers: seq<Answer>, questionId: Option<string>): seq<Option<Value>>
  {
    if answers == [] then []
    else
      var a := answers[|answers| - 1];
      AnswersIn(answers[..|answers| - 1], questionId) + (if a.blockId == questionId then [a.answer] else [])
  }

  function Keys(answers: seq<Option<Value>>): (r: seq<string>)
    ensures |r| == |answers|
  {
    seq(|answers|, i requires 0 <= i < |answers| => AnswerKey(answers[i]))
  }

  function Occurrences(keys: seq<string>, k: string): nat
  {
    if keys == [] then 0 else Occurrences(keys[..|keys| - 1], k) + (if keys[|keys| - 1] == k then 1 else 0)
  }

  predicate Distinct(s: seq<string>)
  {
    forall i, j | 0 <= i < j < |s| :: s[i] != s[j]
  }

  /** A distribution: the counts, and the keys in the order they were first seen. */
  datatype Tabulation = Tabulation(counts: map<string, nat>, order: seq<string>)

  /** `distribution[value] = (distribution[value] || 0) + 1` for each key in turn. */
  function Tabulate(keys: seq<string>): Tabulation
  {
    if keys == [] then Tabulation(map[], [])
    else
      var n := |keys| - 1;
      var t := Tabulate(keys[..n]);
      var k := keys[n];
      if k in t.counts then Tabulation(t.counts[k := t.counts[k] + 1], t.order)
      else Tabulation(t.counts[k := 1], t.order + [k])
  }

  /** The order lists each counted key once. */
  lemma {:induction false} TabulateOrder(keys: seq<string>)
    ensures forall k :: k in Tabulate(keys).order <==> k in Tabulate(keys).counts
    ensures Distinct(Tabulate(keys).order)
  {
    if keys != [] {
      TabulateOrder(keys[..|keys| - 1]);
    }
  }

  /** The distribution counts each key of the answers, and only those. */
  lemma {:induction false} TabulateCounts(keys: seq<string>)
    ensures forall k :: k in Tabulate(keys).counts <==> k in keys
    ensures forall k | k in Tabulate(keys).counts :: Tabulate(keys).counts[k] == Occurrences(keys, k)
  {
    if keys != [] {
      var n := |keys| - 1;
      var k := keys[n];
      TabulateCounts(keys[..n]);
      OccurrencesAbsent(keys[..n], k);
      assert keys == keys[..n] + [k];
    }
  }

  lemma {:induction false} OccurrencesAbsent(keys: seq<string>, k: string)
    ensures k !in keys ==> Occurrences(keys, k) == 0
  {
    if keys != [] && k !in keys {
      OccurrencesAbsent(keys[..|keys| - 1], k);
    }
  }

  datatype QuestionStats = QuestionStats(questionId: Option<string>, totalAnswers: nat, distribution: map<string, nat>, order: seq<string>)

  /** What `generateQuestionStats` computes, without the percentages. */
  function Stats(responses: seq<Response>, questionId: Option<string>): (s: QuestionStats)
    ensures forall k :: k in s.order <==> k in s.distribution
    ensures Distinct(s.order)
  {
    var keys := Keys(AnswersFor(responses, questionId));
    var t := Tabulate(keys);
    TabulateOrder(keys);
    QuestionStats(questionId, |keys|, t.counts, t.order)
  }

  /** `generateQuestionStats` */
  method GenerateQuestionStats(responses: seq<Response>, questionId: Option<string>) returns (stats: QuestionStats)
    ensures stats == Stats(responses, questionId)
  {
    var answers := AnswersFor(responses, questionId);
    ghost var keys := Keys(answers);
    var distribution: map<string, nat> := map[];
    var order: seq<string> := [];
    for i := 0 to |answers|
      invariant Tabulation(distribution, order) == Tabulate(keys[..i])
    {
      assert keys[..i + 1][..i] == keys[..i];
      var value := AnswerKey(answers[i]);
      if value in distribution {
        distribution := distribution[value := distribution[value] + 1];
      } else {
        distribution := distribution[value := 1];
        order := order + [value];
      }
    }
    assert keys[..|answers|] == keys;
    stats := QuestionStats(questionId, |answers|, distribution, order);
  }

  /** The counts of the keys in `order`, added. */
  function SumOver(order: seq<string>, counts: map<string, nat>): nat
    requires forall k | k in order :: k in counts
  {
    if order == [] then 0 else SumOver(order[..|order| - 1], counts) + counts[order[|order| - 1]]
  }

  lemma {:induction false} SumOverAgree(order: seq<string>, a: map<string, nat>, b: map<string, nat>)
    requires forall k | k in order :: k in a && k in b && a[k] == b[k]
    ensures SumOver(order, a) == SumOver(order, b)
  {
    if order != [] {
      SumOverAgree(order[..|order| - 1], a, b);
    }
  }

  lemma {:induction false} SumOverBump(order: seq<string>, counts: map<string, nat>, k: string)
    requires forall x | x in order :: x in counts
    requires Distinct(order) && k in order
    ensures SumOver(order, counts[k := counts[k] + 1]) == SumOver(order, counts) + 1
  {
    var n := |order| - 1;
    var bumped := counts[k := counts[k] + 1];
    if order[n] == k {
      assert k !in order[..n];
      SumOverAgree(order[..n], counts, bumped);
    } else {
      assert k in order[..n] by {
        var i :| 0 <= i < |order| && order[i] == k;
        assert i < n && order[..n][i] == k;
      }
      SumOverBump(order[..n], counts, k);
    }
  }

  /** The distribution's counts add up to the number of answers. */
  lemma {:induction false} TabulateTotal(keys: seq<string>)
    ensures forall k | k in Tabulate(keys).order :: k in Tabulate(keys).counts
    ensures SumOver(Tabulate(keys).order, Tabulate(keys).counts) == |keys|
  {
    if keys != [] {
      var n := |keys| - 1;
      var t := Tabulate(keys[..n]);
      TabulateTotal(keys[..n]);
      TabulateOrder(keys[..n]);
      TabulateOrder(keys);
      var k := keys[n];
      if k in t.counts {
        SumOverBump(t.order, t.counts, k);
      } else {
        SumOverAgree(t.order, t.counts, t.counts[k := 1]);
        assert (t.order + [k])[..|t.order|] == t.order;
      }
    }
  }

  /** `totalAnswers` equals the sum of the distribution's counts. */
  lemma StatsTotal(responses: seq<Response>, questionId: Option<string>)
    ensures var s := Stats(responses, questionId);
      (forall k | k in s.order :: k in s.distribution) && SumOver(s.order, s.distribution) == s.totalAnswers
  {
    TabulateOrder(Keys(AnswersFor(responses, questionId)));
    TabulateTotal(Keys(AnswersFor(responses, questionId)));
  }

  /** Only completed responses count: adding an incomplete one changes nothing. */
  lemma IncompleteIgnored(responses: seq<Response>, r: Response, questionId: Option<string>)
    requires r.completedAt.None?
    ensures Stats(responses + [r], questionId) == Stats(responses, questionId)
  {
    assert (responses + [r])[..|responses|] == responses;
    assert AnswersFor(responses + [r], questionId) == AnswersFor(responses, questionId);
  }

  // ---------------------------------------------------------------------
  // Widget data

  /** A metric value: a number, or the completion rate of `completed` out of `total` (shown as text with one decimal). */
  datatype MetricValue = Number(n: int) | Rate(completed: nat, total: nat)

  datatype MetricData = MetricData(value: MetricValue, caption: Option<string>)

  /** The metric names `prepareMetricData` knows, in either spelling. */
  predicate KnownMetric(metricType: Option<string>)
  {
    NormalizeMetricName(metricType) in {Some("totalResponses"), Some("completionRate"), Some("completedResponses")}
  }

  /**
   * `prepareMetricData` : the total is the number of responses, the
   * completed count is the number of responses with a completion time,
   * and the rate is the one out of the other; an unknown name gives 0.
   */
  function PrepareMetricData(responses: seq<Response>, metricType: Option<string>): (r: MetricData)
    ensures NormalizeMetricName(metricType) == Some("totalResponses") ==> r.value == Number(|responses|)
    ensures NormalizeMetricName(metricType) == Some("completedResponses") ==> r.value == Number(|CompletedSet(responses)|)
    ensures NormalizeMetricName(metricType) == Some("completionRate") ==> r.value == Rate(|CompletedSet(responses)|, |responses|)
    ensures r.value.Rate? ==> r.value.completed <= r.value.total
    ensures r.caption.None? <==> metricType.None?
    ensures !KnownMetric(metricType) ==> r == MetricData(Number(0), metricType)
  {
    var metrics := CalculateMetrics(responses);
    match NormalizeMetricName(metricType)
    case Some("totalResponses") => MetricData(Number(metrics.totalResponses), Some("Total Responses"))
    case Some("completionRate") => MetricData(Rate(metrics.completedResponses, metrics.totalResponses), Some("Completion Rate"))
    case Some("completedResponses") => MetricData(Number(metrics.completedResponses), Some("Completed"))
    case _ => MetricData(Number(0), metricType)
  }

  /** A snake_case alias gives the same metric as its camelCase name. */
  lemma MetricAliasesAgree(responses: seq<Response>)
    ensures PrepareMetricData(responses, Some("total_responses")) == PrepareMetricData(responses, Some("totalResponses"))
    ensures PrepareMetricData(responses, Some("completed_responses")) == PrepareMetricData(responses, Some("completedResponses"))
    ensures PrepareMetricData(responses, Some("completion_rate")) == PrepareMetricData(responses, Some("completionRate"))
  {
  }

  datatype Segment = Segment(caption: string, value: nat)

  /** `{ segments }` or `{ stages }` (the stages' percentages are left out). */
  datatype ChartPayload = Segments(segments: seq<Segment>) | Stages(stages: seq<Segment>)

  function Entries(p: ChartPayload): seq<Segment>
  {
    if p.Segments? then p.segments else p.stages
  }

  function SegmentTotal(s: seq<Segment>): nat
  {
    if s == [] then 0 else SegmentTotal(s[..|s| - 1]) + s[|s| - 1].value
  }

  /** The chart types that get `stages` in the engine's copy. */
  const EngineStageTypes: set<string> := {"funnel", "line", "area"}

  /** `prepareChartData` : one entry per distinct answer key, in first-seen order, valued with its count. */
  function PrepareChartData(responses: seq<Response>, questionId: Option<string>, chartType: string, stageTypes: set<string>): (r: ChartPayload)
    ensures r.Stages? <==> chartType in stageTypes
    ensures var s := Stats(responses, questionId);
      |Entries(r)| == |s.order| &&
      forall i | 0 <= i < |s.order| :: Entries(r)[i] == Segment(s.order[i], s.distribution[s.order[i]])
  {
    var s := Stats(responses, questionId);
    var segments := seq(|s.order|, i requires 0 <= i < |s.order| => Segment(s.order[i], s.distribution[s.order[i]]));
    if chartType in stageTypes then Stages(segments) else Segments(segments)
  }

  lemma {:induction false} SegmentTotalIsSum(segments: seq<Segment>, order: seq<string>, counts: map<string, nat>)
    requires forall k | k in order :: k in counts
    requires |segments| == |order| && forall i | 0 <= i < |order| :: segments[i] == Segment(order[i], counts[order[i]])
    ensures SegmentTotal(segments) == SumOver(order, counts)
  {
    if order != [] {
      var n := |order| - 1;
      SegmentTotalIsSum(segments[..n], order[..n], counts);
    }
  }

  /** A chart's values add up to the number of answers to the question. */
  lemma ChartTotal(responses: seq<Response>, questionId: Option<string>, chartType: string, stageTypes: set<string>)
    ensures SegmentTotal(Entries(PrepareChartData(responses, questionId, chartType, stageTypes))) == Stats(responses, questionId).totalAnswers
  {
    var s := Stats(responses, questionId);
    StatsTotal(responses, questionId);
    SegmentTotalIsSum(Entries(PrepareChartData(responses, questionId, chartType, stageTypes)), s.order, s.distribution);
  }

  datatype Layout = Layout(x: int, y: int, w: int, h: int)

  datatype Source = Source(kind: string, value: Option<string>)

  datatype Binding = Binding(id: Option<string>, source: Option<Source>, aggregation: Option<string>)

  /** A widget's `data`: absent, one binding, or an array of them. */
  datatype DataField = NoData | OneBinding(binding: Binding) | Bindings(items: seq<Binding>)

  /** A widget of the dashboard config; `variant` is `presentation.chart.variant`. */
  datatype Widget = Widget(
    id: Option<string>,
    kind: Option<string>,
    title: Option<string>,
    content: Option<string>,
    component: Option<string>,
    variant: Option<string>,
    data: DataField,
    layout: Option<Layout>)

  /** The data handed to a widget; `NoWidgetData` is `{}`. */
  datatype WidgetData =
    | MetricWidget(metric: MetricData)
    | ChartWidget(chart: ChartPayload)
    | TextWidget(content: string)
    | SummaryWidget(summary: string)
    | Keyed(entries: map<string, WidgetData>)
    | NoWidgetData

  const SummaryPlaceholder := "AI summary would be generated here"

  /**
   * `getDefaultDataForWidget` : data of the widget's own kind (a metric, a
   * chart, a text or the AI summary) and `{}` for any other widget; only a
   * metric looks at the responses, and only at how many there are.
   */
  function DefaultData(widget: Widget, responses: seq<Response>): (r: WidgetData)
    ensures r.MetricWidget? <==> widget.kind == Some("metric")
    ensures r.ChartWidget? <==> widget.kind == Some("chart")
    ensures r.TextWidget? <==> widget.kind == Some("text")
    ensures r.SummaryWidget? <==> widget.kind == Some("custom") && widget.component == Some("ai-summary")
    ensures !r.Keyed?
    ensures r.MetricWidget? ==> r.metric == MetricData(Number(|responses|), Some(OrElse(widget.title, "Total Responses")))
    ensures r.ChartWidget? ==> Entries(r.chart) == []
    ensures r.TextWidget? ==> r.content == OrElse(widget.content, "")
    ensures r.SummaryWidget? ==> r.summary == SummaryPlaceholder
  {
    match widget.kind
    case Some("metric") => MetricWidget(MetricData(Number(CalculateMetrics(responses).totalResponses), Some(OrElse(widget.title, "Total Responses"))))
    case Some("chart") => ChartWidget(Segments([]))
    case Some("text") => TextWidget(OrElse(widget.content, ""))
    case Some("custom") => if widget.component == Some("ai-summary") then SummaryWidget(SummaryPlaceholder) else NoWidgetData
    case _ => NoWidgetData
  }

  /** The label of a count: `Responses to ${questionId}`. */
  function ResponsesTo(questionId: Option<string>): string
  {
    "Responses to " + (if questionId.Some? then questionId.value else "undefined")
  }

  /** `bindSingleDataSource` ; `variant` is the widget's chart variant. */
  function BindSingleDataSource(binding: Binding, responses: seq<Response>, variant: Option<string>, stageTypes: set<string>): (r: WidgetData)
    ensures !r.Keyed?
    ensures binding.source.None? || binding.source.value.kind !in {"metric", "question"} ==> r == NoWidgetData
    ensures binding.source.Some? && binding.source.value.kind == "metric" ==>
      r == MetricWidget(PrepareMetricData(responses, binding.source.value.value))
    ensures binding.source.Some? && binding.source.value.kind == "question" && binding.aggregation == Some("count") ==>
      r == MetricWidget(MetricData(Number(Stats(responses, binding.source.value.value).totalAnswers), Some(ResponsesTo(binding.source.value.value))))
    ensures binding.source.Some? && binding.source.value.kind == "question" && binding.aggregation != Some("count") ==>
      r.ChartWidget? && Entries(r.chart) == Entries(PrepareChartData(responses, binding.source.value.value, "donut", stageTypes))
    ensures binding.source.Some? && binding.source.value.kind == "question" && binding.aggregation in {Some("distribution"), Some("percentage")} ==>
      r.ChartWidget? && (r.chart.Stages? <==> OrElse(variant, "donut") in stageTypes)
    ensures binding.source.Some? && binding.source.value.kind == "question" && binding.aggregation !in {Some("count"), Some("distribution"), Some("percentage")} ==>
      r.ChartWidget? && (r.chart.Stages? <==> "donut" in stageTypes)
  {
    if binding.source.None? then NoWidgetData
    else
      var source := binding.source.value;
      if source.kind == "metric" then MetricWidget(PrepareMetricData(responses, source.value))
      else if source.kind == "question" then
        match binding.aggregation
        case Some("count") => MetricWidget(MetricData(Number(Stats(responses, source.value).totalAnswers), Some(ResponsesTo(source.value))))
        case Some("distribution") => ChartWidget(PrepareChartData(responses, source.value, OrElse(variant, "donut"), stageTypes))
        case Some("percentage") => ChartWidget(PrepareChartData(responses, source.value, OrElse(variant, "donut"), stageTypes))
        case _ => ChartWidget(PrepareChartData(responses, source.value, "donut", stageTypes))
      else NoWidgetData
  }

  /** The key of the binding at `index`: `binding.id || data<index>`. */
  function BindingKey(binding: Binding, index: nat): string
  {
    OrElse(binding.id, "data" + NatToString(index))
  }

  /** `obj[key] = value` for each entry in turn, starting from `{}`. */
  function Assign<K, V>(entries: seq<(K, V)>): map<K, V>
  {
    if entries == [] then map[]
    else
      var n := |entries| - 1;
      Assign(entries[..n])[entries[n].0 := entries[n].1]
  }

  /** The keys of the object are exactly the entries' keys. */
  lemma {:induction false} AssignDomain<K, V>(entries: seq<(K, V)>, k: K)
    ensures k in Assign(entries) <==> exists i | 0 <= i < |entries| :: entries[i].0 == k
  {
    if entries != [] {
      var n := |entries| - 1;
      AssignDomain(entries[..n], k);
      assert forall i | 0 <= i < n :: entries[..n][i] == entries[i];
    }
  }

  /** A key holds the value of the last entry with that key: a later entry overwrites an earlier one. */
  lemma {:induction false} AssignLastWins<K, V>(entries: seq<(K, V)>, i: nat)
    requires i < |entries|
    requires forall j | i < j < |entries| :: entries[j].0 != entries[i].0
    ensures entries[i].0 in Assign(entries) && Assign(entries)[entries[i].0] == entries[i].1
  {
    var n := |entries| - 1;
    if i < n {
      assert forall j | i < j < n :: entries[..n][j] == entries[j];
      AssignLastWins(entries[..n], i);
      assert entries[..n][i] == entries[i];
    }
  }

  /** Each binding under its key, bound with no chart variant. */
  function BoundEntries(bindings: seq<Binding>, responses: seq<Response>, stageTypes: set<string>): (e: seq<(string, WidgetData)>)
    ensures |e| == |bindings|
    ensures forall i | 0 <= i < |bindings| :: e[i] == (BindingKey(bindings[i], i), BindSingleDataSource(bindings[i], responses, None, stageTypes))
  {
    seq(|bindings|, i requires 0 <= i < |bindings| => (BindingKey(bindings[i], i), BindSingleDataSource(bindings[i], responses, None, stageTypes)))
  }

  /** The `data` object `bindMultipleDataSources` fills, as a value. */
  function KeyedData(bindings: seq<Binding>, responses: seq<Response>, stageTypes: set<string>): map<string, WidgetData>
  {
    Assign(BoundEntries(bindings, responses, stageTypes))
  }

  /** The keys of the data object are exactly the bindings' keys. */
  lemma KeyedDomain(bindings: seq<Binding>, responses: seq<Response>, stageTypes: set<string>, k: string)
    ensures k in KeyedData(bindings, responses, stageTypes) <==> exists i | 0 <= i < |bindings| :: BindingKey(bindings[i], i) == k
  {
    var e := BoundEntries(bindings, responses, stageTypes);
    AssignDomain(e, k);
    if k in KeyedData(bindings, responses, stageTypes) {
      var i :| 0 <= i < |e| && e[i].0 == k;
      assert BindingKey(bindings[i], i) == k;
    }
  }

  /** A binding's key holds its data unless a later binding has the same key. */
  lemma KeyedLastWins(bindings: seq<Binding>, responses: seq<Response>, stageTypes: set<string>, i: nat)
    requires i < |bindings|
    requires forall j | i < j < |bindings| :: BindingKey(bindings[j], j) != BindingKey(bindings[i], i)
    ensures var data := KeyedData(bindings, responses, stageTypes);
      BindingKey(bindings[i], i) in data && data[BindingKey(bindings[i], i)] == BindSingleDataSource(bindings[i], responses, None, stageTypes)
  {
    AssignLastWins(BoundEntries(bindings, responses, stageTypes), i);
  }

  /** `bindMultipleDataSources` */
  method BindMultipleDataSources(bindings: seq<Binding>, responses: seq<Response>, stageTypes: set<string>) returns (data: map<string, WidgetData>)
    ensures data == KeyedData(bindings, responses, stageTypes)
  {
    ghost var e := BoundEntries(bindings, responses, stageTypes);
    data := map[];
    for index := 0 to |bindings|
      invariant data == Assign(e[..index])
    {
      assert e[..index + 1][..index] == e[..index];
      var key := BindingKey(bindings[index], index);
      data := data[key := BindSingleDataSource(bindings[index], responses, None, stageTypes)];
    }
    assert e[..|bindings|] == e;
  }

  /** A list of bindings that is bound as one: a single binding on a chart or a table. */
  predicate UnwrapsList(widget: Widget)
  {
    widget.data.Bindings? && |widget.data.items| == 1 && widget.kind in {Some("chart"), Some("table")}
  }

  /**
   * `bindWidgetData` : the result is keyed exactly for a list of bindings
   * that is not a single binding on a chart or table, and its keys are then
   * the bindings' keys; a lone binding gets the widget's chart variant.
   */
  function BindWidgetData(widget: Widget, responses: seq<Response>): (r: WidgetData)
    ensures r.Keyed? <==> widget.data.Bindings? && !UnwrapsList(widget)
    ensures r.Keyed? ==> forall k :: k in r.entries <==> exists i | 0 <= i < |widget.data.items| :: BindingKey(widget.data.items[i], i) == k
    ensures widget.data.NoData? ==> r == DefaultData(widget, responses)
    ensures widget.data.OneBinding? ==> r == BindSingleDataSource(widget.data.binding, responses, widget.variant, EngineStageTypes)
    ensures widget.data.Bindings? && |widget.data.items| == 1 && widget.kind in {Some("chart"), Some("table")} ==>
      r == BindSingleDataSource(widget.data.items[0], responses, widget.variant, EngineStageTypes)
    ensures widget.data.Bindings? && (|widget.data.items| != 1 || widget.kind !in {Some("chart"), Some("table")}) ==>
      r == Keyed(KeyedData(widget.data.items, responses, EngineStageTypes))
  {
    match widget.data
    case NoData => DefaultData(widget, responses)
    case Bindings(items) =>
      if |items| == 1 && (widget.kind == Some("chart") || widget.kind == Some("table")) then
        BindSingleDataSource(items[0], responses, widget.variant, EngineStageTypes)
      else
        assert forall k :: k in KeyedData(items, responses, EngineStageTypes) <==>
                 exists i | 0 <= i < |items| :: BindingKey(items[i], i) == k by {
          forall k {
            KeyedDomain(items, responses, EngineStageTypes, k);
          }
        }
        Keyed(KeyedData(items, responses, EngineStageTypes))
    case OneBinding(binding) => BindSingleDataSource(binding, responses, widget.variant, EngineStageTypes)
  }

  datatype Direction = Up | Down | Neutral

  /** The delta without its rounded percentage. */
  datatype Delta = Delta(direction: Direction, absolute: int)

  /** `calculateDelta` */
  function CalculateDelta(current: int, previous: int): (r: Option<Delta>)
    ensures r.None? <==> previous == 0
    ensures r.Some? ==> r.value.absolute == current - previous
    ensures r.Some? ==> (r.value.direction == Up <==> current > previous) && (r.value.direction == Down <==> current < previous)
  {
    if previous == 0 then None
    else
      var diff := current - previous;
      Some(Delta(if diff > 0 then Up else if diff < 0 then Down else Neutral, diff))
  }

  /** Swapping the two values flips the direction. */
  lemma DeltaAntisymmetric(a: int, b: int)
    requires a != 0 && b != 0
    ensures CalculateDelta(a, b).value.direction == Up <==> CalculateDelta(b, a).value.direction == Down
    ensures CalculateDelta(a, b).value.absolute == -CalculateDelta(b, a).value.absolute
  {
  }
}
