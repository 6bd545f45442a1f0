/**
 * The dashboard engine (`vendor/dashboard-engine/dist/DashboardEngine.js`):
 * checking a dashboard config, finding widgets whose layouts overlap,
 * binding every widget, and bringing preview data into the response shape.
 * Issues carry their field and widget id; their message texts are left out.
 */
module Dashboard {
  import opened JsValues
  import DataBinding

  type Widget = DataBinding.Widget
  type Layout = DataBinding.Layout

  /** A dashboard config; `widgets` is `None` when it is missing, falsy or not an array. */
  datatype DashboardConfig = DashboardConfig(widgets: Option<seq<Widget>>)

  datatype Issue = Issue(field: string, widgetId: Option<string>)

  datatype ValidationResult = ValidationResult(valid: bool, errors: seq<Issue>, warnings: seq<Issue>)

  /** How a widget is named in messages: `widget.title || widget.id`. */
  function Name(w: Widget): Option<string>
  {
    Either(w.title, w.id)
  }

  // ---------------------------------------------------------------------
  // Overlaps

  /** `widgetsOverlap` : strict intersection of the two rectangles; a missing layout overlaps nothing. */
  predicate WidgetsOverlap(a: Option<Layout>, b: Option<Layout>)
  {
    a.Some? && b.Some? &&
    a.value.x < b.value.x + b.value.w && a.value.x + a.value.w > b.value.x &&
    a.value.y < b.value.y + b.value.h && a.value.y + a.value.h > b.value.y
  }

  /** The grid cell at (`px`, `py`) lies inside the layout. */
  predicate Covers(l: Layout, px: int, py: int)
  {
    l.x <= px < l.x + l.w && l.y <= py < l.y + l.h
  }

  /** Overlap does not depend on the order of the two widgets. */
  lemma OverlapSymmetric(a: Option<Layout>, b: Option<Layout>)
    ensures WidgetsOverlap(a, b) <==> WidgetsOverlap(b, a)
  {
  }

  /** Rectangles that only share an edge do not overlap. */
  lemma EdgesDoNotOverlap(a: Layout, b: Layout)
    requires a.x + a.w == b.x || a.y + a.h == b.y
    ensures !WidgetsOverlap(Some(a), Some(b))
  {
  }

  /** For layouts of positive size, overlapping means sharing a grid cell. */
  lemma OverlapIffCommonCell(a: Layout, b: Layout)
    requires a.w > 0 && a.h > 0 && b.w > 0 && b.h > 0
    ensures WidgetsOverlap(Some(a), Some(b)) <==> exists px, py :: Covers(a, px, py) && Covers(b, px, py)
  {
    if WidgetsOverlap(Some(a), Some(b)) {
      var px := if a.x < b.x then b.x else a.x;
      var py := if a.y < b.y then b.y else a.y;
      assert Covers(a, px, py) && Covers(b, px, py);
    }
  }

  /** The pair of widget names reported for an overlap. */
  datatype OverlapPair = OverlapPair(widget1: Option<string>, widget2: Option<string>)

  /** The overlapping pairs (`i`, `j`) with `j` below `m`, for a fixed `i`, in order of `j`. */
  function Row(ws: seq<Widget>, i: nat, m: nat): (r: seq<(nat, nat)>)
    requires i < |ws| && m <= |ws|
    ensures forall k | 0 <= k < |r| :: r[k].0 == i && i < r[k].1 < m
    decreases m
  {
    if m <= i + 1 then []
    else Row(ws, i, m - 1) + (if WidgetsOverlap(ws[i].layout, ws[m - 1].layout) then [(i, m - 1)] else [])
  }

  /** The overlapping pairs (`i`, `j`), `i < j`, with `i` below `n`, in index order. */
  function Upto(ws: seq<Widget>, n: nat): (r: seq<(nat, nat)>)
    requires n <= |ws|
    ensures forall k | 0 <= k < |r| :: r[k].0 < n && r[k].0 < r[k].1 < |ws|
  {
    if n == 0 then [] else Upto(ws, n - 1) + Row(ws, n - 1, |ws|)
  }

  /** Every overlapping pair of positions, in the order the nested loops meet them. */
  function OverlapIndices(ws: seq<Widget>): seq<(nat, nat)>
  {
    Upto(ws, |ws|)
  }

  function Named(ws: seq<Widget>, p: (nat, nat)): OverlapPair
    requires p.0 < |ws| && p.1 < |ws|
  {
    OverlapPair(Name(ws[p.0]), Name(ws[p.1]))
  }

  /** The inner loop of `detectWidgetOverlaps` : the pairs (`i`, `j`) for every later `j`. */
  method OverlapsWith(ws: seq<Widget>, i: nat) returns (row: seq<OverlapPair>)
    requires i < |ws|
    ensures |row| == |Row(ws, i, |ws|)|
    ensures forall k | 0 <= k < |row| :: row[k] == Named(ws, Row(ws, i, |ws|)[k])
  {
    row := [];
    for j := i + 1 to |ws|
      invariant |row| == |Row(ws, i, j)|
      invariant forall k | 0 <= k < |row| :: row[k] == Named(ws, Row(ws, i, j)[k])
    {
      if WidgetsOverlap(ws[i].layout, ws[j].layout) {
        assert Row(ws, i, j + 1) == Row(ws, i, j) + [(i, j)];
        row := row + [OverlapPair(Name(ws[i]), Name(ws[j]))];
      } else {
        assert Row(ws, i, j + 1) == Row(ws, i, j);
      }
    }
  }

  /** `detectWidgetOverlaps` */
  method DetectWidgetOverlaps(ws: seq<Widget>) returns (overlaps: seq<OverlapPair>)
    ensures |overlaps| == |OverlapIndices(ws)|
    ensures forall k | 0 <= k < |overlaps| :: overlaps[k] == Named(ws, OverlapIndices(ws)[k])
  {
    overlaps := [];
    for i := 0 to |ws|
      invariant |overlaps| == |Upto(ws, i)|
      invariant forall k | 0 <= k < |overlaps| :: overlaps[k] == Named(ws, Upto(ws, i)[k])
    {
      var row := OverlapsWith(ws, i);
      ghost var before := Upto(ws, i);
      assert Upto(ws, i + 1) == before + Row(ws, i, |ws|);
      overlaps := overlaps + row;
    }
  }

  lemma {:induction false} RowMembers(ws: seq<Widget>, i: nat, m: nat, p: (nat, nat))
    requires i < |ws| && m <= |ws|
    ensures p in Row(ws, i, m) <==> p.0 == i && i < p.1 < m && WidgetsOverlap(ws[i].layout, ws[p.1].layout)
    decreases m
  {
    if m > i + 1 {
      RowMembers(ws, i, m - 1, p);
    }
  }

  lemma {:induction false} UptoMembers(ws: seq<Widget>, n: nat, p: (nat, nat))
    requires n <= |ws|
    ensures p in Upto(ws, n) <==> p.0 < n && p.0 < p.1 < |ws| && WidgetsOverlap(ws[p.0].layout, ws[p.1].layout)
  {
    if n > 0 {
      UptoMembers(ws, n - 1, p);
      RowMembers(ws, n - 1, |ws|, p);
    }
  }

  /** A pair of positions is reported exactly when the first comes before the second and their layouts overlap. */
  lemma OverlapIndicesMembers(ws: seq<Widget>, i: nat, j: nat)
    ensures (i, j) in OverlapIndices(ws) <==> i < j < |ws| && WidgetsOverlap(ws[i].layout, ws[j].layout)
  {
    UptoMembers(ws, |ws|, (i, j));
  }

  /** `p` comes before `q` in the order of the nested loops. */
  predicate Before(p: (nat, nat), q: (nat, nat))
  {
    p.0 < q.0 || (p.0 == q.0 && p.1 < q.1)
  }

  predicate InLoopOrder(r: seq<(nat, nat)>)
  {
    forall a, b | 0 <= a < b < |r| :: Before(r[a], r[b])
  }

  lemma {:induction false} RowOrdered(ws: seq<Widget>, i: nat, m: nat)
    requires i < |ws| && m <= |ws|
    ensures InLoopOrder(Row(ws, i, m))
    decreases m
  {
    if m > i + 1 {
      RowOrdered(ws, i, m - 1);
      var r := Row(ws, i, m);
      var r0 := Row(ws, i, m - 1);
      forall a, b | 0 <= a < b < |r|
        ensures Before(r[a], r[b])
      {
        assert r[a] == r0[a];
        if b < |r0| {
          assert r[b] == r0[b];
          assert Before(r0[a], r0[b]);
        } else {
          assert r[b] == (i, m - 1);
          assert r0[a].0 == i && r0[a].1 < m - 1;
        }
      }
    }
  }

  lemma {:induction false} UptoOrdered(ws: seq<Widget>, n: nat)
    requires n <= |ws|
    ensures InLoopOrder(Upto(ws, n))
  {
    if n > 0 {
      UptoOrdered(ws, n - 1);
      RowOrdered(ws, n - 1, |ws|);
      var r := Upto(ws, n);
      var r0 := Upto(ws, n - 1);
      var row := Row(ws, n - 1, |ws|);
      forall a, b | 0 <= a < b < |r|
        ensures Before(r[a], r[b])
      {
        if b < |r0| {
          assert r[a] == r0[a] && r[b] == r0[b];
          assert Before(r0[a], r0[b]);
        } else if a < |r0| {
          assert r[a] == r0[a] && r[b] == row[b - |r0|];
          assert r0[a].0 < n - 1 && row[b - |r0|].0 == n - 1;
        } else {
          assert r[a] == row[a - |r0|] && r[b] == row[b - |r0|];
          assert Before(row[a - |r0|], row[b - |r0|]);
        }
      }
    }
  }

  /** The pairs come in loop order, so no pair is reported twice. */
  lemma OverlapsReportedOnce(ws: seq<Widget>)
    ensures var r := OverlapIndices(ws); forall a, b | 0 <= a < b < |r| :: Before(r[a], r[b]) && r[a] != r[b]
  {
    UptoOrdered(ws, |ws|);
  }

  // ---------------------------------------------------------------------
  // Validation

  /** The errors for a missing `id`, `type` or `layout`. */
  function RequiredFieldErrors(w: Widget): seq<Issue>
  {
    (if !NonEmpty(w.id) then [Issue("widget.id", w.id)] else [])
    + (if !NonEmpty(w.kind) then [Issue("widget.type", w.id)] else [])
    + (if w.layout.None? then [Issue("widget.layout", w.id)] else [])
  }

  /** The errors for a layout outside the 12-column grid. */
  function LayoutErrors(w: Widget): seq<Issue>
  {
    if w.layout.None? then []
    else
      var l := w.layout.value;
      (if l.x < 0 || l.x >= 12 then [Issue("widget.layout.x", w.id)] else [])
      + (if l.w <= 0 || l.w > 12 then [Issue("widget.layout.w", w.id)] else [])
      + (if l.h <= 0 then [Issue("widget.layout.h", w.id)] else [])
  }

  /** The errors one widget contributes, in the order they are pushed. */
  function WidgetErrors(w: Widget): seq<Issue>
  {
    RequiredFieldErrors(w) + LayoutErrors(w)
  }

  /** The source a chart or table reads: that of its binding, or of its first binding. */
  function DataSourceOf(w: Widget): Option<DataBinding.Source>
  {
    match w.data
    case NoData => None
    case OneBinding(b) => b.source
    case Bindings(items) => if items == [] then None else items[0].source
  }

  /** The data-binding warning of a chart or table, if any. */
  function BindingWarnings(w: Widget): seq<Issue>
  {
    if w.kind == Some("chart") || w.kind == Some("table") then
      var source := DataSourceOf(w);
      if source.None? then [Issue("widget.data", w.id)]
      else if source.value.value == Some("b0") then [Issue("widget.data.source.value", w.id)]
      else if !NonEmpty(source.value.value) then [Issue("widget.data.source.value", w.id)]
      else []
    else []
  }

  function AllErrors(ws: seq<Widget>): seq<Issue>
  {
    if ws == [] then [] else AllErrors(ws[..|ws| - 1]) + WidgetErrors(ws[|ws| - 1])
  }

  function AllBindingWarnings(ws: seq<Widget>): seq<Issue>
  {
    if ws == [] then [] else AllBindingWarnings(ws[..|ws| - 1]) + BindingWarnings(ws[|ws| - 1])
  }

  /** One warning per overlapping pair, on the first widget's name. */
  function OverlapWarnings(ws: seq<Widget>): (r: seq<Issue>)
    ensures |r| == |OverlapIndices(ws)|
  {
    var ps := OverlapIndices(ws);
    seq(|ps|, k requires 0 <= k < |ps| => Issue("widget.layout", Name(ws[ps[k].0])))
  }

  /** The checks for `id`, `type` and `layout`. */
  method CheckRequiredFields(w: Widget, errors: seq<Issue>) returns (errors': seq<Issue>)
    ensures errors' == errors + RequiredFieldErrors(w)
  {
    var found: seq<Issue> := [];
    if !NonEmpty(w.id) {
      found := found + [Issue("widget.id", w.id)];
    }
    if !NonEmpty(w.kind) {
      found := found + [Issue("widget.type", w.id)];
    }
    if w.layout.None? {
      found := found + [Issue("widget.layout", w.id)];
    }
    errors' := errors + found;
  }

  /** The check for an unbound chart or table. */
  method CheckBinding(w: Widget, warnings: seq<Issue>) returns (warnings': seq<Issue>)
    ensures warnings' == warnings + BindingWarnings(w)
  {
    warnings' := warnings;
    if w.kind == Some("chart") || w.kind == Some("table") {
      var source := DataSourceOf(w);
      if source.None? {
        warnings' := warnings' + [Issue("widget.data", w.id)];
      } else if source.value.value == Some("b0") {
        warnings' := warnings' + [Issue("widget.data.source.value", w.id)];
      } else if !NonEmpty(source.value.value) {
        warnings' := warnings' + [Issue("widget.data.source.value", w.id)];
      }
    }
  }

  /** The checks of the layout's position and size. */
  method CheckLayout(w: Widget, errors: seq<Issue>) returns (errors': seq<Issue>)
    ensures errors' == errors + LayoutErrors(w)
  {
    var found: seq<Issue> := [];
    if w.layout.Some? {
      var l := w.layout.value;
      if l.x < 0 || l.x >= 12 {
        found := found + [Issue("widget.layout.x", w.id)];
      }
      if l.w <= 0 || l.w > 12 {
        found := found + [Issue("widget.layout.w", w.id)];
      }
      if l.h <= 0 {
        found := found + [Issue("widget.layout.h", w.id)];
      }
    }
    errors' := errors + found;
  }

  /** The checks of one widget, in the order the source makes them. */
  method CheckWidget(w: Widget, errors: seq<Issue>, warnings: seq<Issue>) returns (errors': seq<Issue>, warnings': seq<Issue>)
    ensures errors' == errors + WidgetErrors(w)
    ensures warnings' == warnings + BindingWarnings(w)
  {
    errors' := CheckRequiredFields(w, errors);
    warnings' := CheckBinding(w, warnings);
    errors' := CheckLayout(w, errors');
  }

  /** The loop over the widgets. */
  method CheckWidgets(ws: seq<Widget>) returns (errors: seq<Issue>, warnings: seq<Issue>)
    ensures errors == AllErrors(ws) && warnings == AllBindingWarnings(ws)
  {
    errors, warnings := [], [];
    for i := 0 to |ws|
      invariant errors == AllErrors(ws[..i])
      invariant warnings == AllBindingWarnings(ws[..i])
    {
      assert ws[..i + 1][..i] == ws[..i];
      errors, warnings := CheckWidget(ws[i], errors, warnings);
    }
    assert ws[..|ws|] == ws;
  }

  /** One warning per reported overlap. */
  method AddOverlapWarnings(ws: seq<Widget>, warnings: seq<Issue>) returns (warnings': seq<Issue>)
    ensures warnings' == warnings + OverlapWarnings(ws)
  {
    var overlaps := DetectWidgetOverlaps(ws);
    var found: seq<Issue> := [];
    for k := 0 to |overlaps|
      invariant |found| == k
      invariant forall m | 0 <= m < k :: found[m] == OverlapWarnings(ws)[m]
    {
      found := found + [Issue("widget.layout", overlaps[k].widget1)];
    }
    warnings' := warnings + found;
  }

  /** `validateConfig` */
  method ValidateConfig(config: Option<DashboardConfig>) returns (r: ValidationResult)
    ensures r.valid <==> r.errors == []
    ensures config.None? ==> r == ValidationResult(false, [Issue("config", None)], [])
    ensures config.Some? && config.value.widgets.None? ==> r == ValidationResult(false, [Issue("widgets", None)], [])
    ensures config.Some? && config.value.widgets.Some? ==>
      var ws := config.value.widgets.value;
      r.errors == AllErrors(ws) && r.warnings == AllBindingWarnings(ws) + OverlapWarnings(ws)
  {
    if config.None? {
      return ValidationResult(false, [Issue("config", None)], []);
    }
    if config.value.widgets.None? {
      return ValidationResult(false, [Issue("widgets", None)], []);
    }
    var ws := config.value.widgets.value;
    var errors, warnings := CheckWidgets(ws);
    warnings := AddOverlapWarnings(ws, warnings);
    r := ValidationResult(errors == [], errors, warnings);
  }

  /** A widget has no errors exactly when it has an id, a type and a layout inside the grid. */
  lemma WidgetErrorsEmpty(w: Widget)
    ensures WidgetErrors(w) == [] <==>
      NonEmpty(w.id) && NonEmpty(w.kind) && w.layout.Some? &&
      0 <= w.layout.value.x < 12 && 0 < w.layout.value.w <= 12 && w.layout.value.h > 0
  {
  }

  /** Each layout error is raised exactly when its bound is broken. */
  lemma LayoutErrorsIff(w: Widget)
    requires w.layout.Some?
    ensures Issue("widget.layout.x", w.id) in WidgetErrors(w) <==> w.layout.value.x < 0 || w.layout.value.x >= 12
    ensures Issue("widget.layout.w", w.id) in WidgetErrors(w) <==> w.layout.value.w <= 0 || w.layout.value.w > 12
    ensures Issue("widget.layout.h", w.id) in WidgetErrors(w) <==> w.layout.value.h <= 0
  {
  }

  /** The config's errors are empty exactly when every widget's are. */
  lemma {:induction false} AllErrorsEmpty(ws: seq<Widget>)
    ensures AllErrors(ws) == [] <==> forall i | 0 <= i < |ws| :: WidgetErrors(ws[i]) == []
  {
    if ws != [] {
      var n := |ws| - 1;
      var front, last := ws[..n], WidgetErrors(ws[n]);
      AllErrorsEmpty(front);
      assert AllErrors(ws) == AllErrors(front) + last;
      assert AllErrors(ws) == [] <==> AllErrors(front) == [] && last == [];
      assert forall i | 0 <= i < n :: front[i] == ws[i];
    }
  }

  // ---------------------------------------------------------------------
  // Binding every widget

  /** Each widget under its `id`, with its bound data. */
  function WidgetEntries(ws: seq<Widget>, responses: seq<DataBinding.Response>): (e: seq<(Option<string>, DataBinding.WidgetData)>)
    ensures |e| == |ws|
    ensures forall i | 0 <= i < |ws| :: e[i] == (ws[i].id, DataBinding.BindWidgetData(ws[i], responses))
  {
    seq(|ws|, i requires 0 <= i < |ws| => (ws[i].id, DataBinding.BindWidgetData(ws[i], responses)))
  }

  /** `bindAllWidgets` : `widgetDataMap.set(widget.id, data)` for each widget in turn. */
  method BindAllWidgets(config: Option<DashboardConfig>, responses: seq<DataBinding.Response>)
    returns (m: map<Option<string>, DataBinding.WidgetData>)
    ensures config.None? || config.value.widgets.None? ==> m == map[]
    ensures config.Some? && config.value.widgets.Some? ==>
      m == DataBinding.Assign(WidgetEntries(config.value.widgets.value, responses))
  {
    var ws := if config.Some? && config.value.widgets.Some? then config.value.widgets.value else [];
    ghost var e := WidgetEntries(ws, responses);
    m := map[];
    for i := 0 to |ws|
      invariant m == DataBinding.Assign(e[..i])
    {
      assert e[..i + 1][..i] == e[..i];
      m := m[ws[i].id := DataBinding.BindWidgetData(ws[i], responses)];
    }
    assert e[..|ws|] == e;
  }

  /** The map holds exactly the widgets' ids, and an id holds the data of the last widget with it. */
  lemma BoundWidgetsByLastId(ws: seq<Widget>, responses: seq<DataBinding.Response>, i: nat)
    requires i < |ws|
    requires forall j | i < j < |ws| :: ws[j].id != ws[i].id
    ensures var m := DataBinding.Assign(WidgetEntries(ws, responses));
      ws[i].id in m && m[ws[i].id] == DataBinding.BindWidgetData(ws[i], responses)
  {
    DataBinding.AssignLastWins(WidgetEntries(ws, responses), i);
  }

  lemma BoundWidgetIds(ws: seq<Widget>, responses: seq<DataBinding.Response>, id: Option<string>)
    ensures id in DataBinding.Assign(WidgetEntries(ws, responses)) <==> exists i | 0 <= i < |ws| :: ws[i].id == id
  {
    var e := WidgetEntries(ws, responses);
    DataBinding.AssignDomain(e, id);
    if id in DataBinding.Assign(e) {
      var i :| 0 <= i < |e| && e[i].0 == id;
      assert ws[i].id == id;
    }
  }

  // ---------------------------------------------------------------------
  // Preview data

  /**
   * An answer of the studio's sample data. Timestamps are already parsed;
   * a missing or falsy one is `None`. `value` is `None` when undefined.
   */
  datatype SampleAnswer = SampleAnswer(
    id: Option<string>,
    questionId: Option<string>,
    blockId: Option<string>,
    value: Option<Value>,
    answer: Option<Value>,
    createdAt: Option<int>)

  datatype SampleResponse = SampleResponse(
    id: Option<string>,
    respondentId: Option<string>,
    sessionId: Option<string>,
    completedAt: Option<int>,
    createdAt: Option<int>,
    answers: Option<seq<SampleAnswer>>,
    respondentName: Option<string>,
    persona: Option<string>)

  /** Preview data; `sampleResponses` is `None` when it is not an array. */
  datatype PreviewData = PreviewData(sampleResponses: Option<seq<SampleResponse>>)

  /** The response id: `r.id || r.respondentId || r.sessionId`. */
  function ResponseId(r: SampleResponse): Option<string>
  {
    Either(Either(r.id, r.respondentId), r.sessionId)
  }

  /** The id an answer without one gets: `ans-<idx>`. */
  function FallbackAnswerId(idx: nat): string
  {
    "ans-" + NatToString(idx)
  }

  function NormalizeAnswer(a: SampleAnswer, idx: nat, responseId: Option<string>, now: int): (n: DataBinding.Answer)
    ensures n.blockId == (if NonEmpty(a.questionId) then a.questionId else a.blockId)
    ensures n.answer == (if a.value.Some? then a.value else a.answer)
    ensures n.id == (if NonEmpty(a.id) then a.id.value else FallbackAnswerId(idx))
  {
    DataBinding.Answer(
      OrElse(a.id, FallbackAnswerId(idx)),
      responseId,
      Either(a.questionId, a.blockId),
      if a.value.Some? then a.value else a.answer,
      if a.createdAt.Some? then a.createdAt.value else now)
  }

  /** One sample response in the runtime shape; `now` stands for `new Date()`. */
  function NormalizeResponse(r: SampleResponse, now: int): (n: DataBinding.Response)
    ensures n.id == ResponseId(r) && n.completedAt == r.completedAt
    ensures |n.answers| == (if r.answers.Some? then |r.answers.value| else 0)
    ensures r.answers.Some? ==> forall k | 0 <= k < |n.answers| ::
      n.answers[k] == NormalizeAnswer(r.answers.value[k], k, ResponseId(r), now) && n.answers[k].responseId == n.id
  {
    var answers := if r.answers.Some? then r.answers.value else [];
    DataBinding.Response(
      ResponseId(r),
      Either(r.sessionId, r.id),
      r.completedAt,
      if r.createdAt.Some? then r.createdAt.value else now,
      seq(|answers|, k requires 0 <= k < |answers| => NormalizeAnswer(answers[k], k, ResponseId(r), now)),
      Either(r.respondentName, r.persona))
  }

  /**
   * `normalizeResponses` : one runtime response per sample, in order, under
   * the sample's id and with its completion time; every answer points back
   * to its own response and keeps the sample answer's question and value.
   */
  function NormalizeResponses(preview: Option<PreviewData>, now: int): (rs: seq<DataBinding.Response>)
    ensures preview.None? || preview.value.sampleResponses.None? ==> rs == []
    ensures preview.Some? && preview.value.sampleResponses.Some? ==>
      var samples := preview.value.sampleResponses.value;
      |rs| == |samples| &&
      forall i | 0 <= i < |rs| ::
        rs[i].id == ResponseId(samples[i]) && rs[i].completedAt == samples[i].completedAt &&
        |rs[i].answers| == (if samples[i].answers.Some? then |samples[i].answers.value| else 0) &&
        forall k | 0 <= k < |rs[i].answers| ::
          var a := samples[i].answers.value[k];
          rs[i].answers[k].responseId == rs[i].id &&
          rs[i].answers[k].blockId == (if NonEmpty(a.questionId) then a.questionId else a.blockId) &&
          rs[i].answers[k].answer == (if a.value.Some? then a.value else a.answer)
  {
    if preview.None? || preview.value.sampleResponses.None? then []
    else
      var samples := preview.value.sampleResponses.value;
      seq(|samples|, i requires 0 <= i < |samples| => NormalizeResponse(samples[i], now))
  }

  /**
   * Within one normalized response, the answers that had no id of their
   * own get pairwise different ids.
   */
  lemma NormalizedFallbackIdsDistinct(preview: PreviewData, now: int, i: nat, k1: nat, k2: nat)
    requires preview.sampleResponses.Some? && i < |preview.sampleResponses.value|
    requires var sample := preview.sampleResponses.value[i];
      sample.answers.Some? && k1 < k2 < |sample.answers.value| &&
      !NonEmpty(sample.answers.value[k1].id) && !NonEmpty(sample.answers.value[k2].id)
    ensures var rs := NormalizeResponses(Some(preview), now);
      rs[i].answers[k1].id != rs[i].answers[k2].id
  {
    FallbackAnswerIdsDistinct(k1, k2);
  }

  /** Answers without an id get distinct ids. */
  lemma FallbackAnswerIdsDistinct(i: nat, j: nat)
    requires i != j
    ensures FallbackAnswerId(i) != FallbackAnswerId(j)
  {
    DigitsOfNatToString(i);
    DigitsOfNatToString(j);
    assert FallbackAnswerId(i)[4..] == NatToString(i);
    assert FallbackAnswerId(j)[4..] == NatToString(j);
  }
}
