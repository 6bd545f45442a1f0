/**
 * The survey configuration as the runtime engine reads it: a map of blocks
 * keyed by id, each block a question, a message or a routing step, and the
 * two presentation functions of the engine that work on one block:
 * `formatQuestionForClient` (template rendering on a copy of the block) and
 * `formatAnswerForDisplay` (the text shown for a stored answer).
 */
module Survey {
  import opened JsValues
  import opened Branching
  import opened Templates

  /** One entry of a block's `options` array. */
  datatype Choice = Choice(
    value: Option<Value>,
    id: Option<Value>,
    labelText: Option<string>,
    emoji: Option<string>,
    next: Option<string>,
    setVariables: seq<(string, Value)>)

  /** A block's `content`: absent, a string, or an object of named strings. */
  datatype Content = NoContent | Text(text: string) | Keyed(entries: seq<(string, string)>)

  /** `contentCondition`: which entry of a keyed content to show. */
  datatype ContentCondition = ContentCondition(guard: Condition, thenKey: string, elseKey: string)

  /** The `condition` of a `conditionalContent` item: the string "default" or a condition. */
  datatype Guard = DefaultGuard | When(condition: Condition)

  datatype CondItem = CondItem(guard: Guard, content: string)

  datatype OnEmpty = OnEmpty(message: Option<string>, next: Option<string>)

  /** A block's `next`: absent, a block id, or a routing object. */
  datatype Next = NoNext | NextId(id: string) | NextRouting(routing: Routing)

  datatype Block = Block(
    id: Option<string>,
    kind: string,
    content: Content,
    contentCondition: Option<ContentCondition>,
    conditionalContent: seq<CondItem>,
    options: Option<seq<Choice>>,
    placeholder: Option<string>,
    variable: Option<string>,
    next: Next,
    conditionalNext: Option<Routing>,
    onEmpty: Option<OnEmpty>,
    // None also stands for a falsy `showIf` (null, false, 0, ""), which the
    // source skips by its `nextBlock.showIf &&` test.
    showIf: Option<Condition>)

  /** A block with only a type, every other key absent. */
  function BareBlock(kind: string): Block
  {
    Block(None, kind, NoContent, None, [], None, None, None, NoNext, None, None, None)
  }

  /**
   * `{ survey, blocks }`; `order` is the enumeration order of the keys of
   * `blocks` (`Object.keys`).
   */
  datatype SurveyConfig = SurveyConfig(surveyId: Option<string>, blocks: map<string, Block>, order: seq<string>)

  /** A keyed content chosen by a `contentCondition` holds both of its entries. */
  predicate WellFormedBlock(b: Block)
  {
    b.contentCondition.Some? && b.content.Keyed? ==>
      Get(b.content.entries, b.contentCondition.value.thenKey).Some? &&
      Get(b.content.entries, b.contentCondition.value.elseKey).Some?
  }

  predicate WellFormed(c: SurveyConfig)
  {
    (forall k | k in c.blocks :: k in c.order) &&
    (forall i | 0 <= i < |c.order| :: c.order[i] in c.blocks) &&
    (forall i, j :: 0 <= i < j < |c.order| ==> c.order[i] != c.order[j]) &&
    (forall k | k in c.blocks :: WellFormedBlock(c.blocks[k]))
  }

  // ---------------------------------------------------------------------
  // Option selection

  /**
   * The predicate of the engine's `options.find`: equal value or id, or a
   * boolean option value against the answer "true"/"false", or a
   * "true"/"false" option value against a boolean answer.
   */
  predicate OptionMatches(opt: Choice, answer: Value)
  {
    if (opt.value.Some? && StrictEq(opt.value.value, answer)) || (opt.id.Some? && StrictEq(opt.id.value, answer)) then true
    else if opt.value.Some? && opt.value.value.VBool? && answer.VStr? then opt.value.value.b == (answer.s == "true")
    else if opt.value.Some? && opt.value.value.VStr? && answer.VBool? then (opt.value.value.s == "true") == answer.b
    else false
  }

  /** `options.find(OptionMatches)` : the first matching option. */
  function SelectedOption(options: seq<Choice>, answer: Value): (r: Option<Choice>)
    ensures r.None? <==> forall i :: 0 <= i < |options| ==> !OptionMatches(options[i], answer)
    ensures r.Some? ==> exists i :: 0 <= i < |options| && options[i] == r.value && OptionMatches(r.value, answer) &&
                          forall j :: 0 <= j < i ==> !OptionMatches(options[j], answer)
  {
    if options == [] then None
    else if OptionMatches(options[0], answer) then Some(options[0])
    else
      var r := SelectedOption(options[1..], answer);
      assert forall j :: 1 <= j < |options| ==> options[j] == options[1..][j - 1];
      r
  }

  // ---------------------------------------------------------------------
  // formatQuestionForClient

  /** `content[key]` of a keyed content: the last entry of that name. */
  function Entry(entries: seq<(string, string)>, key: string): Option<string>
  {
    Get(entries, key)
  }

  /** The text a dynamic message shows: the entry named by `connection_type`, else `default`, else a stock text. */
  function DynamicText(entries: seq<(string, string)>, vars: Variables): string
  {
    var fallback := if NonEmpty(Entry(entries, "default")) then Entry(entries, "default").value else "Thanks for sharing!";
    match Lookup(vars, "connection_type")
    case Some(conn) =>
      if Truthy(conn) && NonEmpty(Entry(entries, ToJsString(conn))) then Entry(entries, ToJsString(conn)).value
      else fallback
    case None => fallback
  }

  /** The first step of formatting: the content itself. */
  function FormatContent(b: Block, vars: Variables): (r: Content)
    requires WellFormedBlock(b)
    ensures b.content.NoContent? ==> r == NoContent
    ensures b.content.Text? ==> r == Text(Render(b.content.text, vars))
    ensures b.content.Keyed? && b.contentCondition.Some? ==>
      var cc := b.contentCondition.value;
      r == Text(Render(Entry(b.content.entries, if Evaluate(cc.guard, vars, None) then cc.thenKey else cc.elseKey).value, vars))
    ensures b.content.Keyed? && b.contentCondition.None? && b.kind == "dynamic-message" ==>
      r == Text(Render(DynamicText(b.content.entries, vars), vars))
    ensures b.content.Keyed? && b.contentCondition.None? && b.kind != "dynamic-message" ==> r == b.content
  {
    match b.content
    case NoContent => NoContent
    case Text(t) => Text(Render(t, vars))
    case Keyed(entries) =>
      if b.contentCondition.Some? then
        var cc := b.contentCondition.value;
        var key := if Evaluate(cc.guard, vars, None) then cc.thenKey else cc.elseKey;
        Text(Render(Entry(entries, key).value, vars))
      else if b.kind == "dynamic-message" then
        Text(Render(DynamicText(entries, vars), vars))
      else
        Keyed(entries)
  }

  /** The loop's test on one item: "default", or a condition that holds. */
  predicate ItemMatches(item: CondItem, vars: Variables)
  {
    item.guard.DefaultGuard? || Evaluate(item.guard.condition, vars, None)
  }

  /** The content of the first `conditionalContent` item that is "default" or holds. */
  function MatchedContent(items: seq<CondItem>, vars: Variables): (r: Option<string>)
    ensures r.None? <==> forall i :: 0 <= i < |items| ==> !ItemMatches(items[i], vars)
    ensures r.Some? ==> exists i :: 0 <= i < |items| && ItemMatches(items[i], vars) && items[i].content == r.value &&
                          forall j :: 0 <= j < i ==> !ItemMatches(items[j], vars)
  {
    if items == [] then None
    else if ItemMatches(items[0], vars) then Some(items[0].content)
    else
      var r := MatchedContent(items[1..], vars);
      assert forall j :: 1 <= j < |items| ==> items[j] == items[1..][j - 1];
      r
  }

  /** The second step: a matched conditional content replaces a "placeholder" or empty content. */
  function WithConditionalContent(content: Content, items: seq<CondItem>, vars: Variables): (r: Content)
    ensures content != Text("placeholder") && content != Text("") ==> r == content
    ensures forall i | 0 <= i < |items| && ItemMatches(items[i], vars) && items[i].content != "" ::
              (forall j | 0 <= j < i :: !ItemMatches(items[j], vars)) && (content == Text("placeholder") || content == Text("")) ==>
              r == Text(Render(items[i].content, vars))
  {
    var m := MatchedContent(items, vars);
    if NonEmpty(m) && (content == Text("placeholder") || content == Text("")) then Text(Render(m.value, vars))
    else content
  }

  /** An option with its `label` rendered; every other field is kept. */
  function RenderLabel(opt: Choice, vars: Variables): (r: Choice)
    ensures r == opt.(labelText := r.labelText)
    ensures r.labelText.None? <==> opt.labelText.None?
  {
    if NonEmpty(opt.labelText) then opt.(labelText := Some(Render(opt.labelText.value, vars))) else opt
  }

  /**
   * `formatQuestionForClient(block, variables)` : a copy of the block whose
   * content, option labels and placeholder are rendered; nothing else of
   * the block changes.
   */
  function FormatQuestion(b: Block, vars: Variables): (r: Block)
    requires WellFormedBlock(b)
    ensures r == b.(content := r.content, options := r.options, placeholder := r.placeholder)
    ensures var c := FormatContent(b, vars);
            var m := MatchedContent(b.conditionalContent, vars);
            r.content == if NonEmpty(m) && (c == Text("placeholder") || c == Text("")) then Text(Render(m.value, vars)) else c
    ensures r.options.Some? <==> b.options.Some?
    ensures r.options.Some? ==>
              |r.options.value| == |b.options.value| &&
              (forall i :: 0 <= i < |b.options.value| ==>
                 r.options.value[i] == b.options.value[i].(labelText := r.options.value[i].labelText))
    ensures r.options.Some? ==>
              forall i :: 0 <= i < |b.options.value| ==>
                var caption := b.options.value[i].labelText;
                r.options.value[i].labelText == if NonEmpty(caption) then Some(Render(caption.value, vars)) else caption
    ensures NonEmpty(b.placeholder) ==> r.placeholder == Some(Render(b.placeholder.value, vars))
    ensures !NonEmpty(b.placeholder) ==> r.placeholder == b.placeholder
  {
    var content := WithConditionalContent(FormatContent(b, vars), b.conditionalContent, vars);
    var options := match b.options
      case None => None
      case Some(opts) => Some(seq(|opts|, i requires 0 <= i < |opts| => RenderLabel(opts[i], vars)));
    var placeholder := if NonEmpty(b.placeholder) then Some(Render(b.placeholder.value, vars)) else b.placeholder;
    b.(content := content, options := options, placeholder := placeholder)
  }

  /** A block's text fields hold no template markers. */
  predicate PlainBlock(b: Block)
  {
    (b.content.Text? ==> Plain(b.content.text)) &&
    (b.placeholder.Some? ==> Plain(b.placeholder.value)) &&
    (b.options.Some? ==> forall i :: 0 <= i < |b.options.value| ==>
       b.options.value[i].labelText.Some? ==> Plain(b.options.value[i].labelText.value))
  }

  /**
   * Formatting a block whose texts hold no placeholder, and whose content is
   * not replaced by a conditional content, gives the block back unchanged.
   */
  lemma FormatPlainBlock(b: Block, vars: Variables)
    requires WellFormedBlock(b) && PlainBlock(b)
    requires b.content.NoContent? || b.content.Text?
    requires b.conditionalContent == []
    ensures FormatQuestion(b, vars) == b
  {
    if b.content.Text? {
      RenderPlain(b.content.text, vars);
    }
    if b.placeholder.Some? {
      RenderPlain(b.placeholder.value, vars);
    }
    if b.options.Some? {
      var opts := b.options.value;
      forall i | 0 <= i < |opts|
        ensures RenderLabel(opts[i], vars) == opts[i]
      {
        if opts[i].labelText.Some? {
          RenderPlain(opts[i].labelText.value, vars);
        }
      }
      assert seq(|opts|, i requires 0 <= i < |opts| => RenderLabel(opts[i], vars)) == opts;
    }
  }

  /**
   * A keyed content chosen by a `contentCondition` shows its `then` entry
   * exactly when the condition holds, and its `else` entry otherwise.
   */
  lemma ContentConditionChoice(b: Block, vars: Variables)
    requires WellFormedBlock(b) && b.content.Keyed? && b.contentCondition.Some?
    requires b.conditionalContent == []
    ensures var cc := b.contentCondition.value;
            var shown := FormatQuestion(b, vars).content;
            (Evaluate(cc.guard, vars, None) ==> shown == Text(Render(Entry(b.content.entries, cc.thenKey).value, vars))) &&
            (!Evaluate(cc.guard, vars, None) ==> shown == Text(Render(Entry(b.content.entries, cc.elseKey).value, vars)))
  {
  }

  /**
   * The conditional content of the first item that is "default" or holds
   * replaces a "placeholder" or empty text; without a matching item (or
   * when that item's content is empty) the content is kept.
   */
  lemma {:induction false} ConditionalContentReplaces(b: Block, vars: Variables, i: nat)
    requires WellFormedBlock(b) && (b.content == Text("placeholder") || b.content == Text(""))
    requires i < |b.conditionalContent| && ItemMatches(b.conditionalContent[i], vars)
    requires forall j :: 0 <= j < i ==> !ItemMatches(b.conditionalContent[j], vars)
    ensures b.conditionalContent[i].content != "" ==>
              FormatQuestion(b, vars).content == Text(Render(b.conditionalContent[i].content, vars))
    ensures b.conditionalContent[i].content == "" ==> FormatQuestion(b, vars).content == b.content
  {
    RenderPlain(b.content.text, vars);
    var m := MatchedContent(b.conditionalContent, vars);
    var k :| 0 <= k < |b.conditionalContent| && ItemMatches(b.conditionalContent[k], vars) &&
             b.conditionalContent[k].content == m.value &&
             forall j :: 0 <= j < k ==> !ItemMatches(b.conditionalContent[j], vars);
    assert k == i;
  }

  /**
   * A dynamic message shows a non-empty text: the entry named by a truthy
   * `connection_type` when that entry is non-empty, which wins over
   * `default`; otherwise its non-empty `default`, else "Thanks for sharing!".
   */
  lemma DynamicMessageChoice(entries: seq<(string, string)>, vars: Variables)
    ensures DynamicText(entries, vars) != ""
    ensures DynamicText(entries, vars) == "Thanks for sharing!" ||
            exists i :: 0 <= i < |entries| && entries[i].1 == DynamicText(entries, vars)
    ensures var conn := Lookup(vars, "connection_type");
            conn.Some? && Truthy(conn.value) && NonEmpty(Entry(entries, ToJsString(conn.value))) ==>
              DynamicText(entries, vars) == Entry(entries, ToJsString(conn.value)).value
    ensures var conn := Lookup(vars, "connection_type");
            (conn.None? || !Truthy(conn.value)) && NonEmpty(Entry(entries, "default")) ==>
              DynamicText(entries, vars) == Entry(entries, "default").value
  {
  }

  // ---------------------------------------------------------------------
  // formatAnswerForDisplay

  /** The predicate of the display lookup: equal id or equal value. */
  predicate ShowsAs(opt: Choice, answer: Value)
  {
    (opt.id.Some? && StrictEq(opt.id.value, answer)) || (opt.value.Some? && StrictEq(opt.value.value, answer))
  }

  function FindShown(options: seq<Choice>, answer: Value): (r: Option<Choice>)
    ensures r.None? <==> forall i :: 0 <= i < |options| ==> !ShowsAs(options[i], answer)
    ensures r.Some? ==> r.value in options && ShowsAs(r.value, answer)
  {
    if options == [] then None
    else if ShowsAs(options[0], answer) then Some(options[0])
    else
      var r := FindShown(options[1..], answer);
      assert forall j :: 1 <= j < |options| ==> options[j] == options[1..][j - 1];
      r
  }

  /**
   * `option.label || option.value || String(val)`, as text: where the source
   * returns a non-string `option.value` itself, this is its string.
   */
  function OptionText(opt: Choice, val: Value): string
  {
    if NonEmpty(opt.labelText) then opt.labelText.value
    else if opt.value.Some? && Truthy(opt.value.value) then ToJsString(opt.value.value)
    else ToJsString(val)
  }

  /** The text of one element of a multi-choice or ranking answer. */
  function ElementText(options: seq<Choice>, val: Value): string
  {
    match FindShown(options, val)
    case Some(opt) => OptionText(opt, val)
    case None => ToJsString(val)
  }

  function Labels(options: seq<Choice>, vals: seq<Value>): (r: seq<string>)
    ensures |r| == |vals|
  {
    seq(|vals|, i requires 0 <= i < |vals| => ElementText(options, vals[i]))
  }

  function Ranked(options: seq<Choice>, vals: seq<Value>): (r: seq<string>)
    ensures |r| == |vals|
  {
    seq(|vals|, i requires 0 <= i < |vals| => IntToString(i + 1) + ". " + ElementText(options, vals[i]))
  }

  /** `emoji && label ? emoji + " " + label : emoji || label || String(answer)` */
  function ScaleText(opt: Choice, answer: Value): string
  {
    var emoji := if NonEmpty(opt.emoji) then opt.emoji.value else "";
    var caption := if NonEmpty(opt.labelText) then opt.labelText.value else "";
    if emoji != "" && caption != "" then emoji + " " + caption
    else if emoji != "" then emoji
    else if caption != "" then caption
    else ToJsString(answer)
  }

  /** `formatAnswerForDisplay(answer, formattedQuestion)` ; None is `undefined`. */
  function FormatAnswerForDisplay(answer: Option<Value>, q: Block): string
  {
    if answer.None? || answer.value.VNull? then ""
    else
      var a := answer.value;
      if q.kind == "single-choice" then
        if q.options.Some? && FindShown(q.options.value, a).Some? then OptionText(FindShown(q.options.value, a).value, a)
        else ToJsString(a)
      else if q.kind == "multi-choice" then
        if a.VList? && q.options.Some? then Join(Labels(q.options.value, a.items), ", ") else ToJsString(a)
      else if q.kind == "scale" then
        if q.options.Some? && FindShown(q.options.value, a).Some? then ScaleText(FindShown(q.options.value, a).value, a)
        else ToJsString(a)
      else if q.kind == "ranking" then
        if a.VList? && q.options.Some? then Join(Ranked(q.options.value, a.items), ", ") else ToJsString(a)
      else if q.kind == "text-input" || q.kind == "long-text" then ToJsString(a)
      else if IsObjectLike(a) then Stringify(a)
      else ToJsString(a)
  }

  /** A missing or null answer displays as nothing; a text answer displays as itself. */
  lemma DisplayOfTextAnswers(q: Block, s: string)
    ensures FormatAnswerForDisplay(None, q) == "" && FormatAnswerForDisplay(Some(VNull), q) == ""
    ensures q.kind == "text-input" || q.kind == "long-text" ==> FormatAnswerForDisplay(Some(VStr(s)), q) == s
  {
  }

  /** A single-choice answer shows the label of the option it selected, when that label is set. */
  lemma DisplayOfSingleChoice(q: Block, i: nat, a: Value)
    requires q.kind == "single-choice" && q.options.Some? && i < |q.options.value|
    requires !a.VNull? && ShowsAs(q.options.value[i], a)
    requires forall j :: 0 <= j < i ==> !ShowsAs(q.options.value[j], a)
    requires NonEmpty(q.options.value[i].labelText)
    ensures FormatAnswerForDisplay(Some(a), q) == q.options.value[i].labelText.value
  {
    FindShownIsFirst(q.options.value, a, i);
  }

  lemma {:induction false} FindShownIsFirst(options: seq<Choice>, a: Value, i: nat)
    requires i < |options| && ShowsAs(options[i], a)
    requires forall j :: 0 <= j < i ==> !ShowsAs(options[j], a)
    ensures FindShown(options, a) == Some(options[i])
    decreases i
  {
    if i > 0 {
      FindShownIsFirst(options[1..], a, i - 1);
    }
  }

  /** A ranking answer lists its items as "1. x", "2. y", ... in answer order. */
  lemma DisplayOfRanking(q: Block, items: seq<Value>, k: nat)
    requires q.kind == "ranking" && q.options.Some? && k < |items|
    ensures Ranked(q.options.value, items)[k] == IntToString(k + 1) + ". " + ElementText(q.options.value, items[k])
  {
  }
}
