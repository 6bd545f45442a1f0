/**
 * The admin dashboard's chart data (`app/admin/lib/chart-data.ts`): which
 * questions are charted, and the per-option counts and ranking scores
 * computed from the stored responses. A count is specified by `Count`, a
 * sum over the responses of what each one contributes; the methods that
 * fill the count dictionaries are proved against it.
 */
module Charts {
  import opened JsValues

  /** A choice of a block; its `label` is `caption` here, as `label` is a Dafny keyword. */
  datatype ChartOption = ChartOption(id: string, caption: string, value: string)

  /** A block as the dashboard reads it from the survey config. */
  datatype ChartBlock = ChartBlock(
    id: string,
    kind: string,
    content: string,
    options: Option<seq<ChartOption>>,
    maxSelections: Option<int>)

  datatype SurveyAnswer = SurveyAnswer(blockId: string, answer: Value)

  datatype SurveyResponse = SurveyResponse(id: string, completed: bool, answers: seq<SurveyAnswer>)

  datatype ChartData = ChartData(caption: string, value: int)

  datatype QuestionChart = QuestionChart(blockId: string, question: string, kind: string, data: seq<ChartData>)

  // ---------------------------------------------------------------------
  // Answers

  /** `normalizeAnswer` */
  function NormalizeAnswer(answer: Value): (r: Value)
    ensures answer.VStr? || answer.VList? ==> r == answer
    ensures answer.VObj? && Field(answer, "value").Some? ==> r == VStr(ToJsString(Field(answer, "value").value))
    ensures answer.VObj? && Field(answer, "value").None? && Field(answer, "text").Some? ==> r == Field(answer, "text").value
    ensures !answer.VStr? && !answer.VList? && Field(answer, "value").None? && Field(answer, "text").None? ==>
      r == VStr(Stringify(answer))
  {
    if answer.VStr? then answer
    else if Field(answer, "value").Some? then VStr(ToJsString(Field(answer, "value").value))
    else if Field(answer, "text").Some? then Field(answer, "text").value
    else if answer.VList? then answer
    else VStr(Stringify(answer))
  }

  /** A string or list result is normalized already. */
  lemma NormalizeSettles(answer: Value)
    requires NormalizeAnswer(answer).VStr? || NormalizeAnswer(answer).VList?
    ensures NormalizeAnswer(NormalizeAnswer(answer)) == NormalizeAnswer(answer)
  {
  }

  /** `response.answers.find((a) => a.blockId === block.id)` */
  function FirstAnswer(answers: seq<SurveyAnswer>, blockId: string): (r: Option<Value>)
    ensures r.None? <==> forall i | 0 <= i < |answers| :: answers[i].blockId != blockId
    ensures r.Some? ==> exists i | 0 <= i < |answers| :: answers[i] == SurveyAnswer(blockId, r.value) &&
                          forall j | 0 <= j < i :: answers[j].blockId != blockId
  {
    if answers == [] then None
    else if answers[0].blockId == blockId then Some(answers[0].answer)
    else
      var r := FirstAnswer(answers[1..], blockId);
      assert r.None? ==> forall i | 0 <= i < |answers| :: answers[i].blockId != blockId by {
        if r.None? {
          forall i | 0 <= i < |answers| ensures answers[i].blockId != blockId {
            if i > 0 { assert answers[i] == answers[1..][i - 1]; }
          }
        }
      }
      assert r.Some? ==> exists i | 0 <= i < |answers| :: answers[i] == SurveyAnswer(blockId, r.value) &&
                          forall j | 0 <= j < i :: answers[j].blockId != blockId by {
        if r.Some? {
          var k :| 0 <= k < |answers| - 1 && answers[1..][k] == SurveyAnswer(blockId, r.value) &&
                   forall j | 0 <= j < k :: answers[1..][j].blockId != blockId;
          assert answers[k + 1] == SurveyAnswer(blockId, r.value);
          forall j | 0 <= j < k + 1 ensures answers[j].blockId != blockId {
            if j > 0 { assert answers[j] == answers[1..][j - 1]; }
          }
        }
      }
      r
  }

  /** The normalized first answer a response gives to the block, if any. */
  function Normalized(r: SurveyResponse, blockId: string): Option<Value>
  {
    match FirstAnswer(r.answers, blockId)
    case None => None
    case Some(a) => Some(NormalizeAnswer(a))
  }

  /** The selections of a multi-choice or ranking answer: the normalized answer when it is a list. */
  function Selections(n: Option<Value>): seq<Value>
  {
    if n.Some? && n.value.VList? then n.value.items else []
  }

  // ---------------------------------------------------------------------
  // Counting

  /** How a block's answers are tallied: one per response, one per selection, or points by rank. */
  datatype Tally = Single | Multi | Rank(maxSelections: int)

  /** `Math.max(0, maxSelections - index)` */
  function Points(maxSelections: int, index: nat): nat
  {
    if maxSelections - index > 0 then maxSelections - index else 0
  }

  /** What the selections `items` add to option value `v`. */
  function SelectionScore(tally: Tally, items: seq<Value>, v: string): nat
  {
    if items == [] then 0
    else
      var n := |items| - 1;
      SelectionScore(tally, items[..n], v) + (if items[n] == VStr(v) then (if tally.Rank? then Points(tally.maxSelections, n) else 1) else 0)
  }

  /** What one response adds to option value `v` of the block. */
  function Weight(tally: Tally, r: SurveyResponse, blockId: string, v: string): nat
  {
    match tally
    case Single => if Normalized(r, blockId) == Some(VStr(v)) then 1 else 0
    case _ => SelectionScore(tally, Selections(Normalized(r, blockId)), v)
  }

  /** The count (or score) of option value `v` over the responses. */
  function Count(tally: Tally, responses: seq<SurveyResponse>, blockId: string, v: string): nat
  {
    if responses == [] then 0
    else Count(tally, responses[..|responses| - 1], blockId, v) + Weight(tally, responses[|responses| - 1], blockId, v)
  }

  /** Counts add up over any split of the responses, so they do not depend on how the responses are batched. */
  lemma {:induction false} CountSplit(tally: Tally, a: seq<SurveyResponse>, b: seq<SurveyResponse>, blockId: string, v: string)
    ensures Count(tally, a + b, blockId, v) == Count(tally, a, blockId, v) + Count(tally, b, blockId, v)
  {
    if b != [] {
      var n := |b| - 1;
      var w := Weight(tally, b[n], blockId, v);
      assert Count(tally, a + b, blockId, v) == Count(tally, a + b[..n], blockId, v) + w by {
        assert (a + b)[..|a + b| - 1] == a + b[..n];
        assert (a + b)[|a + b| - 1] == b[n];
      }
      CountSplit(tally, a, b[..n], blockId, v);
    } else {
      assert a + b == a;
    }
  }

  /** The counts of all values in `values`, added. */
  function SumCounts(tally: Tally, responses: seq<SurveyResponse>, blockId: string, values: seq<string>): nat
  {
    if values == [] then 0 else SumCounts(tally, responses, blockId, values[..|values| - 1]) + Count(tally, responses, blockId, values[|values| - 1])
  }

  function Weights(r: SurveyResponse, blockId: string, values: seq<string>): nat
  {
    if values == [] then 0 else Weights(r, blockId, values[..|values| - 1]) + Weight(Single, r, blockId, values[|values| - 1])
  }

  /** Among distinct values, one response's answer matches one at most. */
  lemma {:induction false} WeightsAtMostOne(r: SurveyResponse, blockId: string, values: seq<string>)
    requires forall i, j | 0 <= i < j < |values| :: values[i] != values[j]
    ensures Weights(r, blockId, values) <= 1
    ensures Weights(r, blockId, values) == 1 ==> exists i | 0 <= i < |values| :: Normalized(r, blockId) == Some(VStr(values[i]))
  {
    if values != [] {
      var n := |values| - 1;
      WeightsAtMostOne(r, blockId, values[..n]);
    }
  }

  lemma {:induction false} SumCountsStep(responses: seq<SurveyResponse>, blockId: string, values: seq<string>)
    requires responses != []
    ensures SumCounts(Single, responses, blockId, values) ==
      SumCounts(Single, responses[..|responses| - 1], blockId, values) + Weights(responses[|responses| - 1], blockId, values)
  {
    if values != [] {
      SumCountsStep(responses, blockId, values[..|values| - 1]);
    }
  }

  /**
   * Each response answers a single-choice question once, so over distinct
   * option values the counts add up to at most the number of responses.
   */
  lemma {:induction false} SingleCountsAtMostResponses(responses: seq<SurveyResponse>, blockId: string, values: seq<string>)
    requires forall i, j | 0 <= i < j < |values| :: values[i] != values[j]
    ensures SumCounts(Single, responses, blockId, values) <= |responses|
  {
    if responses == [] {
      ZeroCounts(blockId, values);
    } else {
      SingleCountsAtMostResponses(responses[..|responses| - 1], blockId, values);
      SumCountsStep(responses, blockId, values);
      WeightsAtMostOne(responses[|responses| - 1], blockId, values);
    }
  }

  lemma {:induction false} ZeroCounts(blockId: string, values: seq<string>)
    ensures SumCounts(Single, [], blockId, values) == 0
  {
    if values != [] {
      ZeroCounts(blockId, values[..|values| - 1]);
    }
  }

  // ---------------------------------------------------------------------
  // Distributions

  function OptionsOf(block: ChartBlock): seq<ChartOption>
  {
    if block.options.Some? then block.options.value else []
  }

  function ValuesOf(options: seq<ChartOption>): set<string>
  {
    set o | o in options :: o.value
  }

  /** `block.maxSelections || 3` */
  function MaxSelections(block: ChartBlock): int
  {
    if block.maxSelections.Some? && block.maxSelections.value != 0 then block.maxSelections.value else 3
  }

  /** One entry per option, in option order, labelled with its label and valued with its count. */
  predicate Tallied(data: seq<ChartData>, tally: Tally, block: ChartBlock, responses: seq<SurveyResponse>)
  {
    var options := OptionsOf(block);
    |data| == |options| &&
    forall i | 0 <= i < |options| :: data[i] == ChartData(options[i].caption, Count(tally, responses, block.id, options[i].value))
  }

  /** `counts[option.value] = 0` for every option. */
  method ZeroedCounts(options: seq<ChartOption>) returns (counts: map<string, int>)
    ensures counts.Keys == ValuesOf(options)
    ensures forall v | v in counts :: counts[v] == 0
  {
    counts := map[];
    for i := 0 to |options|
      invariant counts.Keys == ValuesOf(options[..i])
      invariant forall v | v in counts :: counts[v] == 0
    {
      assert options[..i + 1] == options[..i] + [options[i]];
      counts := counts[options[i].value := 0];
    }
    assert options[..|options|] == options;
  }

  /** The chart entries `{label: option.caption, value: counts[option.value] || 0}`. */
  method Labelled(options: seq<ChartOption>, counts: map<string, int>) returns (data: seq<ChartData>)
    requires ValuesOf(options) <= counts.Keys
    ensures |data| == |options|
    ensures forall i | 0 <= i < |options| :: data[i] == ChartData(options[i].caption, counts[options[i].value])
  {
    data := [];
    for i := 0 to |options|
      invariant |data| == i
      invariant forall k | 0 <= k < i :: data[k] == ChartData(options[k].caption, counts[options[k].value])
    {
      data := data + [ChartData(options[i].caption, counts[options[i].value])];
    }
  }

  /** `calculateSingleChoiceDistribution` */
  method SingleChoiceDistribution(block: ChartBlock, responses: seq<SurveyResponse>) returns (data: seq<ChartData>)
    ensures Tallied(data, Single, block, responses)
  {
    var options := OptionsOf(block);
    var counts := ZeroedCounts(options);
    for j := 0 to |responses|
      invariant counts.Keys == ValuesOf(options)
      invariant forall v | v in counts :: counts[v] == Count(Single, responses[..j], block.id, v)
    {
      assert responses[..j + 1][..j] == responses[..j];
      var answer := FirstAnswer(responses[j].answers, block.id);
      if answer.Some? {
        var normalized := NormalizeAnswer(answer.value);
        if normalized.VStr? && normalized.s in counts {
          counts := counts[normalized.s := counts[normalized.s] + 1];
        }
      }
    }
    assert responses[..|responses|] == responses;
    data := Labelled(options, counts);
  }

  /** Adds the selections of one answer to the counts (each selection counted separately, or by rank). */
  method AddSelections(tally: Tally, items: seq<Value>, counts: map<string, int>) returns (added: map<string, int>)
    requires !tally.Single?
    ensures added.Keys == counts.Keys
    ensures forall v | v in added :: added[v] == counts[v] + SelectionScore(tally, items, v)
  {
    added := counts;
    for k := 0 to |items|
      invariant added.Keys == counts.Keys
      invariant forall v | v in added :: added[v] == counts[v] + SelectionScore(tally, items[..k], v)
    {
      assert items[..k + 1][..k] == items[..k];
      var value := items[k];
      if value.VStr? && value.s in added {
        var points := if tally.Rank? then Points(tally.maxSelections, k) else 1;
        added := added[value.s := added[value.s] + points];
      }
    }
    assert items[..|items|] == items;
  }

  /** The loop over responses shared by the multi-choice and ranking tallies. */
  method SelectionCounts(tally: Tally, block: ChartBlock, responses: seq<SurveyResponse>) returns (counts: map<string, int>)
    requires !tally.Single?
    ensures counts.Keys == ValuesOf(OptionsOf(block))
    ensures forall v | v in counts :: counts[v] == Count(tally, responses, block.id, v)
  {
    counts := ZeroedCounts(OptionsOf(block));
    for j := 0 to |responses|
      invariant counts.Keys == ValuesOf(OptionsOf(block))
      invariant forall v | v in counts :: counts[v] == Count(tally, responses[..j], block.id, v)
    {
      assert responses[..j + 1][..j] == responses[..j];
      var answer := FirstAnswer(responses[j].answers, block.id);
      if answer.Some? {
        var normalized := NormalizeAnswer(answer.value);
        if normalized.VList? {
          counts := AddSelections(tally, normalized.items, counts);
        }
      }
    }
    assert responses[..|responses|] == responses;
  }

  /** `calculateMultiChoiceDistribution` */
  method MultiChoiceDistribution(block: ChartBlock, responses: seq<SurveyResponse>) returns (data: seq<ChartData>)
    ensures Tallied(data, Multi, block, responses)
  {
    var counts := SelectionCounts(Multi, block, responses);
    data := Labelled(OptionsOf(block), counts);
  }

  /** `calculateRankingScores` : the ranking tally, sorted by score, highest first. */
  method RankingScores(block: ChartBlock, responses: seq<SurveyResponse>) returns (data: seq<ChartData>)
    ensures exists scores :: Tallied(scores, Rank(MaxSelections(block)), block, responses) && data == SortDesc(scores)
  {
    var counts := SelectionCounts(Rank(MaxSelections(block)), block, responses);
    var scores := Labelled(OptionsOf(block), counts);
    data := SortDesc(scores);
  }

  // ---------------------------------------------------------------------
  // Sorting by score

  /** Inserts `x` before the first entry whose value is not above its own. */
  function InsertDesc(x: ChartData, s: seq<ChartData>): seq<ChartData>
  {
    if s == [] || s[0].value <= x.value then [x] + s else [s[0]] + InsertDesc(x, s[1..])
  }

  /** `.sort((a, b) => b.value - a.value)` : a stable sort, highest value first. */
  function SortDesc(s: seq<ChartData>): seq<ChartData>
  {
    if s == [] then [] else InsertDesc(s[0], SortDesc(s[1..]))
  }

  predicate Descending(s: seq<ChartData>)
  {
    forall i, j | 0 <= i < j < |s| :: s[i].value >= s[j].value
  }

  /** Inserting adds exactly `x`. */
  lemma {:induction false} InsertDescPerm(x: ChartData, s: seq<ChartData>)
    ensures multiset(InsertDesc(x, s)) == multiset(s) + multiset{x}
  {
    if s != [] && s[0].value > x.value {
      InsertDescPerm(x, s[1..]);
      assert s == [s[0]] + s[1..];
    }
  }

  lemma {:induction false} InsertDescFrom(x: ChartData, s: seq<ChartData>, k: nat)
    requires k < |InsertDesc(x, s)|
    ensures InsertDesc(x, s)[k] == x || InsertDesc(x, s)[k] in s
  {
    if s != [] && s[0].value > x.value && k > 0 {
      InsertDescFrom(x, s[1..], k - 1);
      assert InsertDesc(x, s)[k] == InsertDesc(x, s[1..])[k - 1];
      if InsertDesc(x, s)[k] != x {
        var m :| 0 <= m < |s[1..]| && s[1..][m] == InsertDesc(x, s)[k];
        assert s[m + 1] == InsertDesc(x, s)[k];
      }
    }
  }

  /** Inserting into a descending list keeps it descending. */
  lemma {:induction false} InsertDescSorted(x: ChartData, s: seq<ChartData>)
    requires Descending(s)
    ensures Descending(InsertDesc(x, s))
  {
    if s != [] && s[0].value > x.value {
      var rest := s[1..];
      InsertDescSorted(x, rest);
      var t := InsertDesc(x, rest);
      forall k | 0 <= k < |t|
        ensures s[0].value >= t[k].value
      {
        InsertDescFrom(x, rest, k);
        if t[k] != x {
          var m :| 0 <= m < |rest| && rest[m] == t[k];
          assert s[m + 1] == t[k];
        }
      }
      assert InsertDesc(x, s) == [s[0]] + t;
    }
  }

  /** The scores come out highest first and are the same entries. */
  lemma {:induction false} SortDescSorts(s: seq<ChartData>)
    ensures Descending(SortDesc(s)) && multiset(SortDesc(s)) == multiset(s)
  {
    if s != [] {
      SortDescSorts(s[1..]);
      InsertDescSorted(s[0], SortDesc(s[1..]));
      InsertDescPerm(s[0], SortDesc(s[1..]));
      assert s == [s[0]] + s[1..];
    }
  }

  // ---------------------------------------------------------------------
  // Charts

  const ChartableKinds := ["single-choice", "multi-choice", "ranking", "scale"]

  predicate Chartable(b: ChartBlock)
  {
    b.kind in ChartableKinds && b.options.Some? && |b.options.value| > 0
  }

  /** `getChartableQuestions` : the chartable blocks, in block order. */
  function ChartableQuestions(blocks: seq<ChartBlock>): (r: seq<ChartBlock>)
    ensures forall b :: multiset(r)[b] == if Chartable(b) then multiset(blocks)[b] else 0
    ensures forall i | 0 <= i < |r| :: Chartable(r[i])
  {
    if blocks == [] then []
    else
      var n := |blocks| - 1;
      assert blocks == blocks[..n] + [blocks[n]];
      ChartableQuestions(blocks[..n]) + (if Chartable(blocks[n]) then [blocks[n]] else [])
  }

  /** The data `generateChartData` computes for a block. */
  ghost predicate ChartDataOf(data: seq<ChartData>, block: ChartBlock, responses: seq<SurveyResponse>)
  {
    if block.kind == "single-choice" || block.kind == "scale" then Tallied(data, Single, block, responses)
    else if block.kind == "multi-choice" then Tallied(data, Multi, block, responses)
    else if block.kind == "ranking" then
      exists scores :: Tallied(scores, Rank(MaxSelections(block)), block, responses) && data == SortDesc(scores)
    else data == []
  }

  /** `generateChartData` */
  method GenerateChartData(block: ChartBlock, responses: seq<SurveyResponse>) returns (chart: QuestionChart)
    ensures chart.blockId == block.id && chart.question == block.content && chart.kind == block.kind
    ensures ChartDataOf(chart.data, block, responses)
    ensures block.kind !in ChartableKinds ==> chart.data == []
  {
    var data: seq<ChartData>;
    if block.kind == "single-choice" || block.kind == "scale" {
      data := SingleChoiceDistribution(block, responses);
    } else if block.kind == "multi-choice" {
      data := MultiChoiceDistribution(block, responses);
    } else if block.kind == "ranking" {
      data := RankingScores(block, responses);
    } else {
      data := [];
    }
    chart := QuestionChart(block.id, block.content, block.kind, data);
  }

  /** `generateAllChartData` : one chart per chartable block, in order. */
  method GenerateAllChartData(blocks: seq<ChartBlock>, responses: seq<SurveyResponse>) returns (charts: seq<QuestionChart>)
    ensures |charts| == |ChartableQuestions(blocks)|
    ensures forall i | 0 <= i < |charts| ::
      var b := ChartableQuestions(blocks)[i];
      charts[i].blockId == b.id && charts[i].question == b.content && charts[i].kind == b.kind &&
      ChartDataOf(charts[i].data, b, responses)
  {
    var chartable := ChartableQuestions(blocks);
    charts := [];
    for i := 0 to |chartable|
      invariant |charts| == i
      invariant forall k | 0 <= k < i ::
        charts[k].blockId == chartable[k].id && charts[k].question == chartable[k].content && charts[k].kind == chartable[k].kind &&
        ChartDataOf(charts[k].data, chartable[k], responses)
    {
      var chart := GenerateChartData(chartable[i], responses);
      charts := charts + [chart];
    }
  }
}
