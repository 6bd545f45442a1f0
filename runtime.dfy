/**
 * The rules of the survey runtime engine as functions of the session state:
 * where a session starts, how an answer is recorded (`updateState` and
 * `updateSpecialVariables`), which block comes next (`getNextQuestion`),
 * how far along a respondent is (`calculateProgress`), what the
 * conversation history shows, and the replay of a stored answer log that
 * rebuilds a session. The engine's methods are proved against these.
 */
module Runtime {
  import opened JsValues
  import opened Branching
  import opened Survey

  /** The part of a session's state the engine reads and writes. */
  datatype StateData = StateData(
    surveyId: string,
    responseId: string,
    currentBlockId: string,
    variables: Variables,
    completedBlocks: seq<string>,
    answers: map<string, Value>)

  const NoBlocksError := "Survey config must have at least one block"
  /** What the JavaScript engine throws when a recursion never ends. */
  const OverflowError := "Maximum call stack size exceeded"

  predicate NoDuplicates(xs: seq<string>)
  {
    forall i, j :: 0 <= i < j < |xs| ==> xs[i] != xs[j]
  }

  // ---------------------------------------------------------------------
  // Starting a session

  /** `getFirstBlockId` : "b0" when configured, else the first key; no key (or an empty one) throws. */
  function FirstBlockId(config: SurveyConfig): (r: Result<string>)
    requires WellFormed(config)
    ensures "b0" in config.blocks ==> r == Ok("b0")
    ensures r.Ok? ==> r.value in config.blocks && r.value != ""
    ensures r.Err? <==> "b0" !in config.blocks && (config.order == [] || config.order[0] == "")
    ensures r.Err? ==> r.message == NoBlocksError
    ensures r.Ok? && r.value != "b0" ==> r.value == config.order[0]
  {
    if "b0" in config.blocks then Ok("b0")
    else if config.order == [] || config.order[0] == "" then Err(NoBlocksError)
    else Ok(config.order[0])
  }

  /** The state a session starts in: at the first block, only `user_name` set, nothing answered. */
  function Initial(surveyId: string, responseId: string, first: string, name: Option<string>): (r: StateData)
    ensures r.surveyId == surveyId && r.responseId == responseId && r.currentBlockId == first
    ensures r.variables.Keys == {"user_name"} && r.variables["user_name"] == VStr(OrElse(name, ""))
    ensures r.completedBlocks == [] && r.answers == map[]
    ensures Progress(r.variables, r.completedBlocks) == 0
  {
    ProgressStartsAtZero(map["user_name" := VStr(OrElse(name, ""))]);
    StateData(surveyId, responseId, first, map["user_name" := VStr(OrElse(name, ""))], [], map[])
  }

  // ---------------------------------------------------------------------
  // updateState

  /** The object `Object.assign` copies from: the fields in order, a later one overwriting. */
  function FieldsMap(fields: seq<(string, Value)>): Variables
    decreases |fields|
  {
    if fields == [] then map[]
    else
      var last := fields[|fields| - 1];
      FieldsMap(fields[..|fields| - 1])[last.0 := last.1]
  }

  /** A key is copied exactly when some field has it, with the value of the last such field. */
  lemma {:induction false} FieldsMapGet(fields: seq<(string, Value)>, k: string)
    ensures k in FieldsMap(fields) <==> Get(fields, k).Some?
    ensures k in FieldsMap(fields) ==> FieldsMap(fields)[k] == Get(fields, k).value
    decreases |fields|
  {
    if fields != [] && fields[|fields| - 1].0 != k {
      FieldsMapGet(fields[..|fields| - 1], k);
    }
  }

  /** `Object.assign(variables, fields)` */
  function Assign(vars: Variables, fields: seq<(string, Value)>): Variables
  {
    vars + FieldsMap(fields)
  }

  /** An array's own keys: "0", "1", ... */
  function Indexed(items: seq<Value>): (r: seq<(string, Value)>)
    ensures |r| == |items|
    ensures forall i :: 0 <= i < |items| ==> r[i] == (IntToString(i), items[i])
    decreases |items|
  {
    if items == [] then []
    else Indexed(items[..|items| - 1]) + [(IntToString(|items| - 1), items[|items| - 1])]
  }

  /** `x || null` for an optional value. */
  function ValueOrNull(x: Option<Value>): Value
  {
    if x.Some? && Truthy(x.value) then x.value else VNull
  }

  /** The block ids with an entry in the special-variable table. */
  const SpecialIds: set<string> := {"b3", "b4", "b5", "b6", "b7", "b12", "b16", "b18", "b19"}

  /** The variables the table writes by name; "b19" copies the keys of its answer instead. */
  const SpecialNames: set<string> := {
    "user_name", "connection_type", "arts_connections", "arts_connections_count",
    "arts_connections_contains_other", "arts_importance", "videoask_share_response_id",
    "videoask_share_response_url", "future_vision_type", "future_vision_response_id",
    "future_vision_response_url", "contact_methods", "wants_email", "wants_text", "wants_print",
    "wants_social", "wants_conversations", "wants_no_updates", "demographics_consent"}

  /** The writes of `updateSpecialVariables`: the fixed table of variables some block ids set. */
  function SpecialWrites(questionId: string, answer: Value): (r: Variables)
    ensures questionId !in SpecialIds ==> r == map[]
    ensures questionId != "b19" ==> r.Keys <= SpecialNames
  {
    match questionId
    case "b3" => map["user_name" := if Truthy(answer) then answer else VStr("")]
    case "b4" => map["connection_type" := answer]
    case "b5" =>
      map["arts_connections" := answer,
          "arts_connections_count" := VNum(if answer.VList? then |answer.items| else 0),
          "arts_connections_contains_other" := VBool(answer.VList? && IncludesStr(answer.items, "other"))]
    case "b6" => map["arts_importance" := answer]
    case "b7" =>
      if IsObjectLike(answer) then
        map["videoask_share_response_id" := ValueOrNull(Field(answer, "responseId")),
            "videoask_share_response_url" := ValueOrNull(Field(answer, "responseUrl"))]
      else map[]
    case "b12" =>
      if IsObjectLike(answer) then
        var kind := Field(answer, "type");
        map["future_vision_type" := (if kind.Some? && Truthy(kind.value) then kind.value else VStr("skipped")),
            "future_vision_response_id" := ValueOrNull(Field(answer, "responseId")),
            "future_vision_response_url" := ValueOrNull(Field(answer, "responseUrl"))]
      else map["future_vision_type" := VStr("skipped")]
    case "b16" =>
      if answer.VList? then
        var xs := answer.items;
        map["contact_methods" := answer,
            "wants_email" := VBool(IncludesStr(xs, "email")),
            "wants_text" := VBool(IncludesStr(xs, "text")),
            "wants_print" := VBool(IncludesStr(xs, "print") || IncludesStr(xs, "newsletter")),
            "wants_social" := VBool(IncludesStr(xs, "social")),
            "wants_conversations" := VBool(IncludesStr(xs, "conversations")),
            "wants_no_updates" := VBool(IncludesStr(xs, "no-updates"))]
      else map[]
    case "b18" => map["demographics_consent" := answer]
    case "b19" =>
      (match answer
       case VObj(fields) => FieldsMap(fields)
       case VList(items) => FieldsMap(Indexed(items))
       case _ => map[])
    case _ => map[]
  }

  /** `updateSpecialVariables` */
  function SpecialVariables(vars: Variables, questionId: string, answer: Value): Variables
  {
    vars + SpecialWrites(questionId, answer)
  }

  /** The write of the block's own `variable`. */
  function VariableWrite(block: Option<Block>, answer: Value): Variables
  {
    if block.Some? && NonEmpty(block.value.variable) then map[block.value.variable.value := answer] else map[]
  }

  /** The option of the block the answer selects. */
  function Selected(block: Option<Block>, answer: Value): Option<Choice>
  {
    if block.Some? && block.value.options.Some? then SelectedOption(block.value.options.value, answer) else None
  }

  /** The `setVariables` of the selected option. */
  function OptionWrites(block: Option<Block>, answer: Value): Variables
  {
    match Selected(block, answer)
    case Some(opt) => FieldsMap(opt.setVariables)
    case None => map[]
  }

  /**
   * The variable writes of `updateState`, in order: the block's own
   * `variable`, then the selected option's `setVariables`, then the
   * special table.
   */
  function BindVariables(vars: Variables, block: Option<Block>, questionId: string, answer: Value): Variables
  {
    var v1 := vars + VariableWrite(block, answer);
    var v2 := v1 + OptionWrites(block, answer);
    SpecialVariables(v2, questionId, answer)
  }

  function BlockOf(config: SurveyConfig, id: string): (r: Option<Block>)
    ensures r.Some? <==> id in config.blocks
    ensures r.Some? ==> r.value == config.blocks[id]
  {
    if id in config.blocks then Some(config.blocks[id]) else None
  }

  /** `updateState(session, questionId, answer)` */
  function Record(d: StateData, config: SurveyConfig, questionId: string, answer: Value): StateData
  {
    d.(answers := d.answers[questionId := answer],
       completedBlocks := if questionId in d.completedBlocks then d.completedBlocks else d.completedBlocks + [questionId],
       variables := BindVariables(d.variables, BlockOf(config, questionId), questionId, answer))
  }

  /** Everything `updateState` writes into the variables, whatever they held before. */
  function Writes(block: Option<Block>, questionId: string, answer: Value): Variables
  {
    VariableWrite(block, answer) + OptionWrites(block, answer) + SpecialWrites(questionId, answer)
  }

  lemma MergeAssociates(a: Variables, b: Variables, c: Variables)
    ensures (a + b) + c == a + (b + c)
  {
  }

  /** The variables after `updateState` are the old ones overwritten by writes that depend only on the block, its id and the answer. */
  lemma BindOverwrites(vars: Variables, block: Option<Block>, questionId: string, answer: Value)
    ensures BindVariables(vars, block, questionId, answer) == vars + Writes(block, questionId, answer)
  {
    var v, o, s := VariableWrite(block, answer), OptionWrites(block, answer), SpecialWrites(questionId, answer);
    MergeAssociates(vars + v, o, s);
    MergeAssociates(vars, v, o + s);
    MergeAssociates(v, o, s);
  }

  lemma MergeTwice(m: Variables, w: Variables)
    ensures (m + w) + w == m + w
  {
  }

  /** Submitting the same answer to the same block twice leaves the state as once. */
  lemma RecordIdempotent(d: StateData, config: SurveyConfig, questionId: string, answer: Value)
    ensures Record(Record(d, config, questionId, answer), config, questionId, answer) == Record(d, config, questionId, answer)
  {
    var block := BlockOf(config, questionId);
    var once := Record(d, config, questionId, answer);
    BindOverwrites(d.variables, block, questionId, answer);
    BindOverwrites(once.variables, block, questionId, answer);
    MergeTwice(d.variables, Writes(block, questionId, answer));
  }

  /**
   * `updateState` marks the block completed once, keeps the earlier order
   * and stores the answer under the block id, leaving the other answers.
   */
  lemma RecordCompletes(d: StateData, config: SurveyConfig, questionId: string, answer: Value)
    ensures var r := Record(d, config, questionId, answer);
      && (NoDuplicates(d.completedBlocks) ==> NoDuplicates(r.completedBlocks))
      && (forall x :: x in r.completedBlocks <==> x in d.completedBlocks || x == questionId)
      && r.completedBlocks[..|d.completedBlocks|] == d.completedBlocks
      && r.answers.Keys == d.answers.Keys + {questionId} && r.answers[questionId] == answer
      && (forall k | k in d.answers && k != questionId :: r.answers[k] == d.answers[k])
      && r.currentBlockId == d.currentBlockId && r.surveyId == d.surveyId && r.responseId == d.responseId
  {
    var r := Record(d, config, questionId, answer);
    if questionId !in d.completedBlocks {
      assert r.completedBlocks == d.completedBlocks + [questionId];
      if NoDuplicates(d.completedBlocks) {
        forall i, j | 0 <= i < j < |r.completedBlocks|
          ensures r.completedBlocks[i] != r.completedBlocks[j]
        {
          if j == |d.completedBlocks| {
            assert r.completedBlocks[i] == d.completedBlocks[i];
          }
        }
      }
    }
  }

  /**
   * The order of the writes of `updateState`: the special table has the
   * last word, then the selected option's `setVariables`, then the block's
   * own `variable`; every other variable keeps its value.
   */
  lemma VariablePrecedence(d: StateData, config: SurveyConfig, questionId: string, answer: Value, k: string)
    ensures var r := Record(d, config, questionId, answer).variables;
      var block := BlockOf(config, questionId);
      var special := SpecialWrites(questionId, answer);
      var chosen := Selected(block, answer);
      var fromOption := chosen.Some? && Get(chosen.value.setVariables, k).Some?;
      var own := block.Some? && block.value.variable == Some(k) && k != "";
      && (k in special ==> k in r && r[k] == special[k])
      && (k !in special && fromOption ==> k in r && r[k] == Get(chosen.value.setVariables, k).value)
      && (k !in special && !fromOption && own ==> k in r && r[k] == answer)
      && (k !in special && !fromOption && !own ==> (k in r <==> k in d.variables) && (k in r ==> r[k] == d.variables[k]))
  {
    var chosen := Selected(BlockOf(config, questionId), answer);
    if chosen.Some? {
      FieldsMapGet(chosen.value.setVariables, k);
    }
  }

  /** The answer to "b16" decides which follow-up blocks the progress counts. */
  lemma ContactMethodsDecideFollowUps(d: StateData, config: SurveyConfig, methods: seq<Value>)
    ensures var vars := Record(d, config, "b16", VList(methods)).variables;
      && ("b16-social" in ExpectedBlocks(vars) <==> IncludesStr(methods, "social"))
      && ("b16-chat" in ExpectedBlocks(vars) <==> IncludesStr(methods, "conversations"))
  {
    var vars := Record(d, config, "b16", VList(methods)).variables;
    VariablePrecedence(d, config, "b16", VList(methods), "wants_social");
    VariablePrecedence(d, config, "b16", VList(methods), "wants_conversations");
    ExpectedOptionalBlocks(vars);
  }

  /** The answer to "b18" decides whether the demographics block "b19" is counted. */
  lemma ConsentDecidesDemographics(d: StateData, config: SurveyConfig, answer: Value)
    ensures "b19" in ExpectedBlocks(Record(d, config, "b18", answer).variables) <==> answer == VBool(true)
  {
    var vars := Record(d, config, "b18", answer).variables;
    VariablePrecedence(d, config, "b18", answer, "demographics_consent");
    ExpectedOptionalBlocks(vars);
  }

  // ---------------------------------------------------------------------
  // getNextQuestion

  /**
   * A block id taken from `onEmpty.next || block.next`: a routing object in
   * that place is used as an id, and its text is "[object Object]".
   */
  function NextAsId(n: Next): Option<string>
  {
    match n
    case NoNext => None
    case NextId(s) => if s != "" then Some(s) else None
    case NextRouting(_) => Some("[object Object]")
  }

  /**
   * The next block id before any skipping, by precedence: `onEmpty` for an
   * empty answer, a string `next`, the selected option's `next`, a routing
   * `next`, `conditionalNext`.
   */
  function Candidate(block: Block, vars: Variables, answer: Value): (r: Option<string>)
    ensures r.Some? ==> r.value != ""
  {
    var first :=
      if answer == VStr("") && block.onEmpty.Some? then
        if NonEmpty(block.onEmpty.value.next) then block.onEmpty.value.next else NextAsId(block.next)
      else if block.next.NextId? then OrNull(Some(block.next.id))
      else None;
    var second :=
      if first.None? && block.options.Some? then
        match SelectedOption(block.options.value, answer)
        case Some(opt) => OrNull(opt.next)
        case None => None
      else first;
    if second.Some? then second
    else if block.next.NextRouting? then OrNull(EvaluateConditionalNext(Some(block.next.routing), vars, block.variable))
    else if block.conditionalNext.Some? then OrNull(EvaluateConditionalNext(block.conditionalNext, vars, block.variable))
    else None
  }

  /** The message block `getNextQuestion` makes up for an empty answer to a block with an `onEmpty` message. */
  function EmptyMessage(questionId: string, block: Block): Block
    requires block.onEmpty.Some?
  {
    var oe := block.onEmpty.value;
    BareBlock("dynamic-message").(
      id := Some(questionId + "-empty-message"),
      content := Text(if oe.message.Some? then oe.message.value else ""),
      next := if NonEmpty(oe.next) then NextId(oe.next.value) else block.next)
  }

  predicate ShowsEmptyMessage(block: Block, answer: Value)
  {
    answer == VStr("") && block.onEmpty.Some? && NonEmpty(block.onEmpty.value.message)
  }

  /** A block whose `showIf` is present and false. */
  predicate Hidden(block: Block, vars: Variables)
  {
    block.showIf.Some? && !Evaluate(block.showIf.value, vars, None)
  }

  /** A routing block, or a dynamic message without content that routes on: passed through with "acknowledged". */
  predicate AutoAdvance(block: Block)
  {
    block.kind == "routing" ||
    (block.kind == "dynamic-message" && (block.content == NoContent || block.content == Text("")) && block.conditionalNext.Some?)
  }

  /**
   * The result of `getNextQuestion`: the last id written to
   * `currentBlockId` (None: not written) and the block returned; or the
   * overflow of a hop chain that never ends.
   */
  datatype Outcome = Outcome(moved: Option<string>, question: Option<Block>) | Overflow

  /** `getNextQuestion(session, questionId, answer)`, allowed `fuel` automatic hops. */
  function NextQuestion(config: SurveyConfig, vars: Variables, questionId: string, answer: Value, fuel: nat): Outcome
    decreases fuel
  {
    if questionId !in config.blocks then Outcome(None, None)
    else
      var block := config.blocks[questionId];
      if ShowsEmptyMessage(block, answer) then Outcome(None, Some(EmptyMessage(questionId, block)))
      else match Candidate(block, vars, answer)
        case None => Outcome(None, None)
        case Some(n) =>
          if n in config.blocks && Hidden(config.blocks[n], vars) then Hop(config, vars, n, VNull, fuel)
          else if n in config.blocks && AutoAdvance(config.blocks[n]) then Hop(config, vars, n, VStr("acknowledged"), fuel)
          else Outcome(Some(n), BlockOf(config, n))
  }

  /** Move onto `n` and continue from it with `answer`. */
  function Hop(config: SurveyConfig, vars: Variables, n: string, answer: Value, fuel: nat): Outcome
    decreases fuel, 0
  {
    if fuel == 0 then Overflow
    else match NextQuestion(config, vars, n, answer, fuel - 1)
      case Overflow => Overflow
      case Outcome(m, q) => Outcome(if m.Some? then m else Some(n), q)
  }

  /**
   * A bound on the automatic hops: after the first hop the answer is null or
   * "acknowledged" and the variables do not change, so a chain longer than
   * twice the number of blocks repeats itself and never ends.
   */
  function HopLimit(config: SurveyConfig): nat
  {
    2 * |config.order| + 2
  }

  /** An empty answer to a block with `onEmpty.next` goes there, before anything else. */
  lemma EmptyAnswerFollowsOnEmpty(block: Block, vars: Variables)
    requires block.onEmpty.Some? && NonEmpty(block.onEmpty.value.next)
    ensures Candidate(block, vars, VStr("")) == block.onEmpty.value.next
  {
  }

  /** Otherwise a non-empty string `next` wins over the options and the conditions. */
  lemma StringNextWins(block: Block, vars: Variables, answer: Value)
    requires answer != VStr("") || block.onEmpty.None?
    requires block.next.NextId? && block.next.id != ""
    ensures Candidate(block, vars, answer) == Some(block.next.id)
  {
  }

  /** Without a usable `next`, the selected option's `next` wins over the conditions. */
  lemma OptionNextWins(block: Block, vars: Variables, answer: Value)
    requires answer != VStr("") || block.onEmpty.None?
    requires block.next.NoNext? || block.next == NextId("")
    requires block.options.Some? && SelectedOption(block.options.value, answer).Some?
    requires NonEmpty(SelectedOption(block.options.value, answer).value.next)
    ensures Candidate(block, vars, answer) == SelectedOption(block.options.value, answer).value.next
  {
  }

  /** A routing object in `next` is evaluated in preference to `conditionalNext`. */
  lemma RoutingNextBeforeConditionalNext(block: Block, vars: Variables, answer: Value)
    requires answer != VStr("") || block.onEmpty.None?
    requires block.next.NextRouting?
    requires block.options.None? || SelectedOption(block.options.value, answer).None?
    ensures Candidate(block, vars, answer) == OrNull(EvaluateConditionalNext(Some(block.next.routing), vars, block.variable))
  {
  }

  /**
   * What `getNextQuestion` returns: the made-up message block for an empty
   * answer, or the config block the current block ends on, which is shown (its
   * `showIf` holds) and is not passed through automatically.
   */
  lemma {:induction false} ReturnedBlockIsShown(config: SurveyConfig, vars: Variables, questionId: string, answer: Value, fuel: nat)
    ensures var o := NextQuestion(config, vars, questionId, answer, fuel);
      o.Outcome? && o.question.Some? ==>
        (questionId in config.blocks && ShowsEmptyMessage(config.blocks[questionId], answer) &&
         o.moved.None? && o.question.value == EmptyMessage(questionId, config.blocks[questionId])) ||
        (o.moved.Some? && o.moved.value in config.blocks && o.question.value == config.blocks[o.moved.value] &&
         !Hidden(o.question.value, vars) && !AutoAdvance(o.question.value))
    decreases fuel
  {
    if questionId in config.blocks && !ShowsEmptyMessage(config.blocks[questionId], answer) {
      var block := config.blocks[questionId];
      match Candidate(block, vars, answer)
      case None =>
      case Some(n) =>
        if n in config.blocks && (Hidden(config.blocks[n], vars) || AutoAdvance(config.blocks[n])) && fuel > 0 {
          var inner := if Hidden(config.blocks[n], vars) then VNull else VStr("acknowledged");
          ReturnedBlockIsShown(config, vars, n, inner, fuel - 1);
        }
    }
  }

  /** A hop chain that ends within some fuel ends the same way with more. */
  lemma {:induction false} MoreFuelSameOutcome(config: SurveyConfig, vars: Variables, questionId: string, answer: Value, fuel: nat, more: nat)
    requires fuel <= more
    requires NextQuestion(config, vars, questionId, answer, fuel).Outcome?
    ensures NextQuestion(config, vars, questionId, answer, more) == NextQuestion(config, vars, questionId, answer, fuel)
    decreases fuel
  {
    if questionId in config.blocks && !ShowsEmptyMessage(config.blocks[questionId], answer) {
      var block := config.blocks[questionId];
      match Candidate(block, vars, answer)
      case None =>
      case Some(n) =>
        if n in config.blocks && (Hidden(config.blocks[n], vars) || AutoAdvance(config.blocks[n])) {
          var inner := if Hidden(config.blocks[n], vars) then VNull else VStr("acknowledged");
          MoreFuelSameOutcome(config, vars, n, inner, fuel - 1, more - 1);
        }
    }
  }

  // ---------------------------------------------------------------------
  // Why the hop limit loses nothing

  /** A point of the skipping recursion: the block id and the answer it is entered with. */
  type HopState = (string, Value)

  /** The hop `getNextQuestion` makes from `s` (a shown block ends the chain). */
  function Succ(config: SurveyConfig, vars: Variables, s: HopState): (r: Option<HopState>)
    ensures r.Some? ==> r.value.0 in config.blocks && (r.value.1 == VNull || r.value.1 == VStr("acknowledged"))
  {
    if s.0 !in config.blocks || ShowsEmptyMessage(config.blocks[s.0], s.1) then None
    else match Candidate(config.blocks[s.0], vars, s.1)
      case None => None
      case Some(n) =>
        if n in config.blocks && Hidden(config.blocks[n], vars) then Some((n, VNull))
        else if n in config.blocks && AutoAdvance(config.blocks[n]) then Some((n, VStr("acknowledged")))
        else None
  }

  /** Where a chain of steps `succ` from `s` is after `k` steps, if it made them all. */
  function Iter<T>(succ: T -> Option<T>, s: T, k: nat): Option<T>
  {
    if k == 0 then Some(s)
    else match Iter(succ, s, k - 1)
      case None => None
      case Some(t) => succ(t)
  }

  /** The hop function of a config and its variables. */
  function Hops(config: SurveyConfig, vars: Variables): HopState -> Option<HopState>
  {
    s => Succ(config, vars, s)
  }

  /** One step of the recursion is one hop, then the rest of the chain with one hop less. */
  lemma NextQuestionBySucc(config: SurveyConfig, vars: Variables, s: HopState, fuel: nat)
    ensures Succ(config, vars, s).None? ==> NextQuestion(config, vars, s.0, s.1, fuel).Outcome?
    ensures Succ(config, vars, s).Some? ==>
      var t := Succ(config, vars, s).value;
      (NextQuestion(config, vars, s.0, s.1, fuel).Overflow? <==>
         fuel == 0 || NextQuestion(config, vars, t.0, t.1, fuel - 1).Overflow?)
  {
  }

  lemma {:induction false} IterShift<T>(succ: T -> Option<T>, s: T, k: nat)
    requires succ(s).Some?
    ensures Iter(succ, s, k + 1) == Iter(succ, succ(s).value, k)
  {
    if k > 0 {
      IterShift(succ, s, k - 1);
    }
  }

  /** A chain that has stopped stays stopped. */
  lemma {:induction false} IterStops<T>(succ: T -> Option<T>, s: T, i: nat, j: nat)
    requires i <= j && Iter(succ, s, j).Some?
    ensures Iter(succ, s, i).Some?
    decreases j
  {
    if i < j {
      IterStops(succ, s, i, j - 1);
    }
  }

  /** The recursion overflows with `fuel` exactly when the chain makes `fuel + 1` hops. */
  lemma {:induction false} OverflowIffHops(config: SurveyConfig, vars: Variables, s: HopState, fuel: nat)
    ensures NextQuestion(config, vars, s.0, s.1, fuel).Overflow? <==> Iter(Hops(config, vars), s, fuel + 1).Some?
    decreases fuel
  {
    var succ := Hops(config, vars);
    NextQuestionBySucc(config, vars, s, fuel);
    assert Iter(succ, s, 1) == Succ(config, vars, s);
    if Succ(config, vars, s).None? {
      if Iter(succ, s, fuel + 1).Some? {
        IterStops(succ, s, 1, fuel + 1);
      }
    } else {
      var t := Succ(config, vars, s).value;
      IterShift(succ, s, fuel);
      if fuel > 0 {
        OverflowIffHops(config, vars, t, fuel - 1);
      }
    }
  }

  /** Once the chain is back at a point it has passed, it runs round that loop for ever. */
  lemma {:induction false} IterPeriodic<T>(succ: T -> Option<T>, s: T, i: nat, j: nat, m: nat)
    requires Iter(succ, s, i) == Iter(succ, s, j)
    ensures Iter(succ, s, i + m) == Iter(succ, s, j + m)
  {
    if m > 0 {
      IterPeriodic(succ, s, i, j, m - 1);
    }
  }

  lemma {:induction false} LoopNeverEnds<T>(succ: T -> Option<T>, s: T, i: nat, j: nat, k: nat)
    requires i < j && Iter(succ, s, i) == Iter(succ, s, j) && Iter(succ, s, j).Some?
    ensures Iter(succ, s, k).Some?
    decreases k
  {
    if k <= j {
      IterStops(succ, s, k, j);
    } else {
      IterPeriodic(succ, s, i, j, k - j);
      assert i + (k - j) == k - (j - i) && j + (k - j) == k;
      LoopNeverEnds(succ, s, i, j, k - (j - i));
    }
  }

  /** The position of a key in the key order. */
  function IndexOf(order: seq<string>, x: string): (i: nat)
    requires x in order
    ensures i < |order| && order[i] == x
  {
    if order[0] == x then 0 else 1 + IndexOf(order[1..], x)
  }

  /** A hop target as a number below twice the number of blocks. */
  function Code(config: SurveyConfig, t: HopState): (c: nat)
    requires WellFormed(config) && t.0 in config.blocks
    ensures c < 2 * |config.order|
  {
    2 * IndexOf(config.order, t.0) + (if t.1 == VNull then 0 else 1)
  }

  lemma CodeInjective(config: SurveyConfig, t: HopState, u: HopState)
    requires WellFormed(config) && t.0 in config.blocks && u.0 in config.blocks
    requires t.1 == VNull || t.1 == VStr("acknowledged")
    requires u.1 == VNull || u.1 == VStr("acknowledged")
    requires Code(config, t) == Code(config, u)
    ensures t == u
  {
    var a, b := IndexOf(config.order, t.0), IndexOf(config.order, u.0);
    assert a == b;
  }

  function Elements(xs: seq<nat>): set<nat>
  {
    set x | x in xs
  }

  lemma {:induction false} ElementsCard(xs: seq<nat>)
    requires forall i, j :: 0 <= i < j < |xs| ==> xs[i] != xs[j]
    ensures |Elements(xs)| == |xs|
  {
    if xs != [] {
      var n := |xs| - 1;
      var front := xs[..n];
      assert forall i, j :: 0 <= i < j < |front| ==> front[i] != front[j];
      ElementsCard(front);
      var before, after := Elements(front), Elements(xs);
      assert xs[n] !in before;
      assert after == before + {xs[n]} by {
        assert xs == front + [xs[n]];
      }
      assert |before + {xs[n]}| == |before| + 1;
    }
  }

  /** The numbers below `m`. */
  function Below(m: nat): (r: set<nat>)
    ensures forall x: nat :: x in r <==> x < m
    ensures |r| == m
  {
    if m == 0 then {} else Below(m - 1) + {m - 1}
  }

  /** Distinct numbers below `m` are at most `m` many. */
  lemma DistinctBelow(xs: seq<nat>, m: nat)
    requires forall i :: 0 <= i < |xs| ==> xs[i] < m
    requires forall i, j :: 0 <= i < j < |xs| ==> xs[i] != xs[j]
    ensures |xs| <= m
  {
    ElementsCard(xs);
    var elems, range := Elements(xs), Below(m);
    assert elems <= range;
    assert range == elems + (range - elems);
  }

  /** More than `m` distinct numbers cannot all lie below `m`. */
  lemma Pigeonhole(xs: seq<nat>, m: nat)
    requires forall i :: 0 <= i < |xs| ==> xs[i] < m
    requires |xs| > m
    ensures exists i, j :: 0 <= i < j < |xs| && xs[i] == xs[j]
  {
    if forall i, j :: 0 <= i < j < |xs| ==> xs[i] != xs[j] {
      DistinctBelow(xs, m);
      assert false;
    }
  }

  /** A chain that makes `HopLimit` hops passes some point twice. */
  /** Every state the chain reaches before the limit is a block with one of the two hop answers. */
  lemma HopInBlocks(config: SurveyConfig, vars: Variables, s: HopState, k: nat)
    requires Iter(Hops(config, vars), s, HopLimit(config)).Some?
    requires 1 <= k <= HopLimit(config)
    ensures Iter(Hops(config, vars), s, k).Some?
    ensures Iter(Hops(config, vars), s, k).value.0 in config.blocks
    ensures Iter(Hops(config, vars), s, k).value.1 == VNull || Iter(Hops(config, vars), s, k).value.1 == VStr("acknowledged")
  {
    var succ := Hops(config, vars);
    IterStops(succ, s, k, HopLimit(config));
    IterStops(succ, s, k - 1, HopLimit(config));
    assert Iter(succ, s, k) == Succ(config, vars, Iter(succ, s, k - 1).value);
  }

  /** More hop states than codes: two of them are equal. */
  lemma StatesRepeat(config: SurveyConfig, states: seq<HopState>)
    requires WellFormed(config) && |states| > 2 * |config.order|
    requires forall k | 0 <= k < |states| :: states[k].0 in config.blocks
    requires forall k | 0 <= k < |states| :: states[k].1 == VNull || states[k].1 == VStr("acknowledged")
    ensures exists a, b :: 0 <= a < b < |states| && states[a] == states[b]
  {
    var codes := seq(|states|, k requires 0 <= k < |states| => Code(config, states[k]));
    Pigeonhole(codes, 2 * |config.order|);
    var a, b :| 0 <= a < b < |codes| && codes[a] == codes[b];
    CodeInjective(config, states[a], states[b]);
  }

  lemma ChainRepeats(config: SurveyConfig, vars: Variables, s: HopState)
    requires WellFormed(config)
    requires Iter(Hops(config, vars), s, HopLimit(config)).Some?
    ensures exists i, j :: 1 <= i < j <= HopLimit(config) && Iter(Hops(config, vars), s, i) == Iter(Hops(config, vars), s, j) &&
                           Iter(Hops(config, vars), s, j).Some?
  {
    var limit, succ := HopLimit(config), Hops(config, vars);
    forall k | 1 <= k <= limit
      ensures Iter(succ, s, k).Some?
      ensures Iter(succ, s, k).value.0 in config.blocks
      ensures Iter(succ, s, k).value.1 == VNull || Iter(succ, s, k).value.1 == VStr("acknowledged")
    {
      HopInBlocks(config, vars, s, k);
    }
    var states := seq(limit, k requires 0 <= k < limit => Iter(succ, s, k + 1).value);
    StatesRepeat(config, states);
    var a, b :| 0 <= a < b < |states| && states[a] == states[b];
    assert Iter(succ, s, a + 1) == Some(states[a]) && Iter(succ, s, b + 1) == Some(states[b]);
  }

  /**
   * Running out of hops at the limit means running out with any amount: the
   * chain of automatic hops has entered a loop, so the source's recursion
   * never returns either.
   */
  lemma OverflowIsForever(config: SurveyConfig, vars: Variables, questionId: string, answer: Value, fuel: nat)
    requires WellFormed(config)
    requires NextQuestion(config, vars, questionId, answer, HopLimit(config)).Overflow?
    ensures NextQuestion(config, vars, questionId, answer, fuel).Overflow?
  {
    var s, succ := (questionId, answer), Hops(config, vars);
    OverflowIffHops(config, vars, s, HopLimit(config));
    IterStops(succ, s, HopLimit(config), HopLimit(config) + 1);
    ChainRepeats(config, vars, s);
    var i, j :| 1 <= i < j <= HopLimit(config) && Iter(succ, s, i) == Iter(succ, s, j) && Iter(succ, s, j).Some?;
    LoopNeverEnds(succ, s, i, j, fuel + 1);
    OverflowIffHops(config, vars, s, fuel);
  }

  // ---------------------------------------------------------------------
  // calculateProgress

  const MainPath: seq<string> := ["b1", "b3", "b5", "b6", "b7", "b8", "b9", "b10", "b11", "b12", "b17", "b18"]

  predicate IsTrue(vars: Variables, name: string)
  {
    Lookup(vars, name) == Some(VBool(true))
  }

  /** `[id]` when the variable `name` is `true`, else nothing. */
  function IfTrue(vars: Variables, name: string, id: string): (r: seq<string>)
    ensures |r| <= 1 && (forall x :: x in r <==> x == id && IsTrue(vars, name))
  {
    if IsTrue(vars, name) then [id] else []
  }

  /** The contact blocks of `getExpectedBlocks`. */
  function ContactExtras(vars: Variables): (r: seq<string>)
    ensures |r| <= 2 && NoDuplicates(r)
    ensures forall x :: x in r <==>
      TruthyOpt(Lookup(vars, "contact_info_needed")) &&
      (x == "b16-contact-confirm" || (x == "b16-contact-details" && IsTrue(vars, "contact_info_confirmed")))
  {
    if TruthyOpt(Lookup(vars, "contact_info_needed")) then
      ["b16-contact-confirm"] + IfTrue(vars, "contact_info_confirmed", "b16-contact-details")
    else []
  }

  /** The extra blocks of `getExpectedBlocks`, in the order it appends them. */
  function Extras(vars: Variables): (r: seq<string>)
    ensures |r| <= 5
  {
    ContactExtras(vars)
    + IfTrue(vars, "wants_social", "b16-social")
    + IfTrue(vars, "wants_conversations", "b16-chat")
    + IfTrue(vars, "demographics_consent", "b19")
  }

  /** `getExpectedBlocks` : the main path, then the extras the variables call for. */
  function ExpectedBlocks(vars: Variables): (r: seq<string>)
    ensures 12 <= |r| <= 17 && r[..12] == MainPath
  {
    MainPath + Extras(vars)
  }

  lemma MainPathMembers(x: string)
    ensures x in MainPath ==> |x| <= 3 && x[0] == 'b'
  {
  }

  lemma MainPathDistinct()
    ensures NoDuplicates(MainPath)
  {
  }

  lemma ConcatDistinct(a: seq<string>, b: seq<string>)
    requires NoDuplicates(a) && NoDuplicates(b)
    requires forall x | x in b :: x !in a
    ensures NoDuplicates(a + b)
  {
    forall i, j | 0 <= i < j < |a + b|
      ensures (a + b)[i] != (a + b)[j]
    {
      if j < |a| {
        assert (a + b)[i] == a[i] && (a + b)[j] == a[j];
      } else if i < |a| {
        assert (a + b)[i] == a[i] && (a + b)[j] == b[j - |a|];
        assert b[j - |a|] in b && a[i] in a;
      } else {
        assert (a + b)[i] == b[i - |a|] && (a + b)[j] == b[j - |a|];
      }
    }
  }

  lemma ExtrasDistinct(vars: Variables)
    ensures NoDuplicates(Extras(vars))
    ensures forall x | x in Extras(vars) :: x !in MainPath
  {
    var c := ContactExtras(vars);
    var s := IfTrue(vars, "wants_social", "b16-social");
    var t := IfTrue(vars, "wants_conversations", "b16-chat");
    var d := IfTrue(vars, "demographics_consent", "b19");
    ConcatDistinct(c, s);
    ConcatDistinct(c + s, t);
    ConcatDistinct(c + s + t, d);
    forall x | x in Extras(vars)
      ensures x !in MainPath
    {
      MainPathMembers(x);
    }
  }

  /** No block is expected twice. */
  lemma ExpectedBlocksDistinct(vars: Variables)
    ensures NoDuplicates(ExpectedBlocks(vars))
  {
    MainPathDistinct();
    ExtrasDistinct(vars);
    ConcatDistinct(MainPath, Extras(vars));
  }

  /** The contact blocks are expected exactly when the variables call for them. */
  lemma ExpectedContactBlocks(vars: Variables)
    ensures "b16-contact-confirm" in ExpectedBlocks(vars) <==> TruthyOpt(Lookup(vars, "contact_info_needed"))
    ensures "b16-contact-details" in ExpectedBlocks(vars) <==>
              TruthyOpt(Lookup(vars, "contact_info_needed")) && IsTrue(vars, "contact_info_confirmed")
  {
    MainPathMembers("b16-contact-confirm");
    MainPathMembers("b16-contact-details");
  }

  /** The social, chat and demographics blocks are expected exactly when their variable is `true`. */
  lemma ExpectedOptionalBlocks(vars: Variables)
    ensures "b16-social" in ExpectedBlocks(vars) <==> IsTrue(vars, "wants_social")
    ensures "b16-chat" in ExpectedBlocks(vars) <==> IsTrue(vars, "wants_conversations")
    ensures "b19" in ExpectedBlocks(vars) <==> IsTrue(vars, "demographics_consent")
  {
    MainPathMembers("b16-social");
    MainPathMembers("b16-chat");
  }

  /** The number of ids of `expected` that are in `completed`. */
  function CountCompleted(expected: seq<string>, completed: seq<string>): (c: nat)
    ensures c <= |expected|
  {
    if expected == [] then 0
    else CountCompleted(expected[..|expected| - 1], completed) + (if expected[|expected| - 1] in completed then 1 else 0)
  }

  /**
   * `Math.round(100 * c / n)` for 0 <= c <= n: the rounding of half up,
   * written on integers.
   */
  function RoundPercent(c: nat, n: nat): (p: int)
    requires n > 0
    ensures 2 * n * p <= 200 * c + n < 2 * n * (p + 1)
  {
    (200 * c + n) / (2 * n)
  }

  /** The rounded percentage `c` of `n` is, capped at 100; 0 of nothing. */
  function Percent(c: nat, n: nat): int
  {
    if n == 0 then 0
    else
      var p := RoundPercent(c, n);
      if p < 100 then p else 100
  }

  /** `calculateProgress` */
  function Progress(vars: Variables, completed: seq<string>): int
  {
    var expected := ExpectedBlocks(vars);
    Percent(CountCompleted(expected, completed), |expected|)
  }

  lemma PercentInRange(c: nat, n: nat)
    ensures 0 <= Percent(c, n) <= 100
  {
  }

  lemma PercentFull(c: nat, n: nat)
    requires 0 < n < 200 && c <= n
    ensures Percent(c, n) == 100 <==> c == n
  {
    var p := RoundPercent(c, n);
    if c == n {
      assert 2 * n * 100 <= 200 * c + n < 2 * n * 101;
      if p < 100 {
        MultiplyMonotone(2 * n, p + 1, 100);
      } else if p > 100 {
        MultiplyMonotone(2 * n, 101, p);
      }
    } else {
      assert 200 * c + n < 200 * n;
      if p >= 100 {
        MultiplyMonotone(2 * n, 100, p);
      }
    }
  }

  lemma PercentOfNone(n: nat)
    ensures Percent(0, n) == 0
  {
    if n > 0 {
      var p := RoundPercent(0, n);
      if p >= 1 {
        MultiplyMonotone(2 * n, 1, p);
      } else if p < 0 {
        MultiplyMonotone(2 * n, p + 1, 0);
      }
    }
  }

  lemma MultiplyMonotone(k: nat, a: int, b: int)
    requires a <= b
    ensures k * a <= k * b
  {
  }

  lemma PercentMonotone(a: nat, b: nat, n: nat)
    requires a <= b
    ensures Percent(a, n) <= Percent(b, n)
  {
    if n > 0 {
      var p, q := RoundPercent(a, n), RoundPercent(b, n);
      if p > q {
        MultiplyMonotone(2 * n, q + 1, p);
      }
    }
  }

  lemma {:induction false} CountAll(expected: seq<string>, completed: seq<string>)
    ensures CountCompleted(expected, completed) == |expected| <==> forall x | x in expected :: x in completed
    ensures (forall x | x in expected :: x !in completed) ==> CountCompleted(expected, completed) == 0
    decreases |expected|
  {
    if expected != [] {
      var init := expected[..|expected| - 1];
      CountAll(init, completed);
      assert expected == init + [expected[|expected| - 1]];
    }
  }

  lemma {:induction false} CountMonotone(expected: seq<string>, c1: seq<string>, c2: seq<string>)
    requires forall x | x in c1 :: x in c2
    ensures CountCompleted(expected, c1) <= CountCompleted(expected, c2)
    decreases |expected|
  {
    if expected != [] {
      CountMonotone(expected[..|expected| - 1], c1, c2);
    }
  }

  /** The percentage is between 0 and 100. */
  lemma ProgressInRange(vars: Variables, completed: seq<string>)
    ensures 0 <= Progress(vars, completed) <= 100
  {
    var e := ExpectedBlocks(vars);
    PercentInRange(CountCompleted(e, completed), |e|);
  }

  /**
   * The progress is 100 exactly when every expected block is completed:
   * with fewer than 200 expected blocks, one missing block keeps the
   * rounded percentage below 100.
   */
  lemma ProgressFullIffAllDone(vars: Variables, completed: seq<string>)
    ensures Progress(vars, completed) == 100 <==> forall x | x in ExpectedBlocks(vars) :: x in completed
  {
    var e := ExpectedBlocks(vars);
    CountAll(e, completed);
    PercentFull(CountCompleted(e, completed), |e|);
  }

  /** Before any answer the progress is 0. */
  lemma ProgressStartsAtZero(vars: Variables)
    ensures Progress(vars, []) == 0
  {
    var e := ExpectedBlocks(vars);
    CountAll(e, []);
    PercentOfNone(|e|);
  }

  /** Completing more blocks, with the same variables, never lowers the progress. */
  lemma ProgressMonotone(vars: Variables, c1: seq<string>, c2: seq<string>)
    requires forall x | x in c1 :: x in c2
    ensures Progress(vars, c1) <= Progress(vars, c2)
  {
    var e := ExpectedBlocks(vars);
    CountMonotone(e, c1, c2);
    PercentMonotone(CountCompleted(e, c1), CountCompleted(e, c2), |e|);
  }

  // ---------------------------------------------------------------------
  // buildConversationHistory

  datatype HistoryItem = HistoryItem(
    blockId: string,
    questionContent: Content,
    answerContent: Option<string>,
    questionType: string,
    isBotOnly: bool)

  /** `formattedQuestion.content || ""` */
  function ShownContent(c: Content): Content
  {
    if c == NoContent then Text("") else c
  }

  /** The history entry of one completed block, None when the block is skipped. */
  function HistoryEntry(config: SurveyConfig, d: StateData, id: string): (r: Option<HistoryItem>)
    requires WellFormed(config)
    ensures r.Some? <==> id in config.blocks && config.blocks[id].kind != "routing"
    ensures r.Some? ==> r.value.blockId == id && r.value.questionType == config.blocks[id].kind
    ensures r.Some? ==> (r.value.isBotOnly <==> r.value.questionType == "dynamic-message")
    ensures r.Some? ==> (r.value.answerContent.None? <==> r.value.isBotOnly)
  {
    if id !in config.blocks || config.blocks[id].kind == "routing" then None
    else
      var block := config.blocks[id];
      var q := FormatQuestion(block, d.variables);
      if block.kind == "dynamic-message" then
        Some(HistoryItem(id, ShownContent(q.content), None, block.kind, true))
      else
        var answer := if id in d.answers then Some(d.answers[id]) else None;
        Some(HistoryItem(id, ShownContent(q.content), Some(FormatAnswerForDisplay(answer, q)), block.kind, false))
  }

  /** The present values, in order. */
  function Somes<T>(xs: seq<Option<T>>): seq<T>
  {
    if xs == [] then []
    else Somes(xs[..|xs| - 1]) + (if xs[|xs| - 1].Some? then [xs[|xs| - 1].value] else [])
  }

  /** The history entry of each block id. */
  function EntriesOf(config: SurveyConfig, d: StateData, ids: seq<string>): (r: seq<Option<HistoryItem>>)
    requires WellFormed(config)
    ensures |r| == |ids| && forall i :: 0 <= i < |ids| ==> r[i] == HistoryEntry(config, d, ids[i])
  {
    seq(|ids|, i requires 0 <= i < |ids| => HistoryEntry(config, d, ids[i]))
  }

  /** `buildConversationHistory` over the completed blocks `ids`. */
  function HistoryOf(config: SurveyConfig, d: StateData, ids: seq<string>): seq<HistoryItem>
    requires WellFormed(config)
  {
    Somes(EntriesOf(config, d, ids))
  }

  // ---------------------------------------------------------------------
  // Replay

  /** One answer as the live engine and the replay process it: record it, then move on. */
  function Step(d: StateData, config: SurveyConfig, questionId: string, answer: Value): (r: Result<StateData>)
    ensures r.Ok? ==> r.value.(currentBlockId := d.currentBlockId) == Record(d, config, questionId, answer)
    ensures r.Err? <==> NextQuestion(config, Record(d, config, questionId, answer).variables, questionId, answer, HopLimit(config)).Overflow?
  {
    var d1 := Record(d, config, questionId, answer);
    match NextQuestion(config, d1.variables, questionId, answer, HopLimit(config))
    case Overflow => Err(OverflowError)
    case Outcome(moved, _) => Ok(if moved.Some? then d1.(currentBlockId := moved.value) else d1)
  }

  /** The stored answer log replayed from a start state, in order. */
  function Replay(d: StateData, config: SurveyConfig, log: seq<(string, Value)>): Result<StateData>
  {
    if log == [] then Ok(d)
    else match Replay(d, config, log[..|log| - 1])
      case Err(e) => Err(e)
      case Ok(d1) => Step(d1, config, log[|log| - 1].0, log[|log| - 1].1)
  }

  /** A replay that reaches an answer goes through the step of that answer. */
  lemma ReplayExtend(d: StateData, config: SurveyConfig, log: seq<(string, Value)>, questionId: string, answer: Value)
    ensures Replay(d, config, log + [(questionId, answer)]) ==
      match Replay(d, config, log)
      case Err(e) => Err(e)
      case Ok(d1) => Step(d1, config, questionId, answer)
  {
    assert (log + [(questionId, answer)])[..|log|] == log;
  }

  /** A replay that fails on a prefix of the log fails on the whole log. */
  lemma {:induction false} ReplayFailurePersists(d: StateData, config: SurveyConfig, log: seq<(string, Value)>, k: nat)
    requires k <= |log| && Replay(d, config, log[..k]).Err?
    ensures Replay(d, config, log).Err?
    decreases |log| - k
  {
    if k < |log| {
      ReplayExtend(d, config, log[..k], log[k].0, log[k].1);
      assert log[..k + 1] == log[..k] + [(log[k].0, log[k].1)];
      ReplayFailurePersists(d, config, log, k + 1);
    } else {
      assert log[..k] == log;
    }
  }

  /**
   * A replayed session holds, for each question, the last answer the log
   * gives it, has completed exactly the answered blocks, each once, and
   * keeps its survey and response ids.
   */
  lemma {:induction false} ReplayedAnswers(d: StateData, config: SurveyConfig, log: seq<(string, Value)>)
    requires Replay(d, config, log).Ok?
    ensures var r := Replay(d, config, log).value;
      && r.surveyId == d.surveyId && r.responseId == d.responseId
      && (forall q :: q in r.answers <==> q in d.answers || Get(log, q).Some?)
      && (forall q | q in r.answers :: r.answers[q] == if Get(log, q).Some? then Get(log, q).value else d.answers[q])
      && (forall x :: x in r.completedBlocks <==> x in d.completedBlocks || Get(log, x).Some?)
      && (NoDuplicates(d.completedBlocks) ==> NoDuplicates(r.completedBlocks))
    decreases |log|
  {
    if log != [] {
      var init := log[..|log| - 1];
      var (q, a) := log[|log| - 1];
      ReplayedAnswers(d, config, init);
      var d1 := Replay(d, config, init).value;
      RecordCompletes(d1, config, q, a);
      forall k
        ensures Get(log, k) == if k == q then Some(a) else Get(init, k)
      {
      }
    }
  }

  // ---------------------------------------------------------------------
  // Conversation history

  lemma {:induction false} SomesFrom<T>(xs: seq<Option<T>>)
    ensures |Somes(xs)| <= |xs|
    ensures forall i | 0 <= i < |Somes(xs)| :: exists j :: 0 <= j < |xs| && xs[j] == Some(Somes(xs)[i])
    decreases |xs|
  {
    if xs != [] {
      var init := xs[..|xs| - 1];
      SomesFrom(init);
      forall i | 0 <= i < |Somes(xs)|
        ensures exists j :: 0 <= j < |xs| && xs[j] == Some(Somes(xs)[i])
      {
        if i < |Somes(init)| {
          var j :| 0 <= j < |init| && init[j] == Some(Somes(init)[i]);
          assert xs[j] == init[j];
        } else {
          assert xs[|xs| - 1] == Some(Somes(xs)[i]);
        }
      }
    }
  }

  lemma {:induction false} SomesAllPresent<T>(xs: seq<Option<T>>)
    requires forall i | 0 <= i < |xs| :: xs[i].Some?
    ensures |Somes(xs)| == |xs|
    ensures forall i | 0 <= i < |xs| :: Somes(xs)[i] == xs[i].value
    decreases |xs|
  {
    if xs != [] {
      SomesAllPresent(xs[..|xs| - 1]);
    }
  }

  /**
   * Each history entry belongs to a completed block of the config that is
   * not a routing block; a dynamic message appears as a bot-only entry
   * without an answer, every other block with its displayed answer.
   */
  lemma HistoryEntries(config: SurveyConfig, d: StateData, ids: seq<string>)
    requires WellFormed(config)
    ensures var h := HistoryOf(config, d, ids);
      |h| <= |ids| &&
      forall i | 0 <= i < |h| ::
        && h[i].blockId in ids && h[i].blockId in config.blocks
        && config.blocks[h[i].blockId].kind != "routing"
        && h[i].questionType == config.blocks[h[i].blockId].kind
        && (h[i].isBotOnly <==> h[i].questionType == "dynamic-message")
        && (h[i].answerContent.None? <==> h[i].isBotOnly)
  {
    var es := EntriesOf(config, d, ids);
    SomesFrom(es);
  }

  /** When every completed block is a shown block of the config, the history has one entry per block, in order. */
  lemma HistoryFollowsCompletion(config: SurveyConfig, d: StateData, ids: seq<string>)
    requires WellFormed(config)
    requires forall id | id in ids :: id in config.blocks && config.blocks[id].kind != "routing"
    ensures |HistoryOf(config, d, ids)| == |ids|
    ensures forall i | 0 <= i < |ids| :: HistoryOf(config, d, ids)[i].blockId == ids[i]
  {
    SomesAllPresent(EntriesOf(config, d, ids));
  }
}
