# Survey runtime and reporting — a verified Dafny model

This project models the core of a conversational survey application: a
server-side runtime that walks respondents through a graph of question
blocks, and the reporting code that turns stored answers into charts and
dashboard widgets.

- **Runtime engine** (`Engine`, `Runtime`, `Survey`, `Templates`). The
  `RuntimeEngine` class keeps a map of sessions. Each session has a mutable
  survey state: the current block, the variables, an ordered duplicate-free
  list of completed blocks, and the answers. Answering a question records
  the answer, binds variables (the block's own variable, then the chosen
  option's `setVariables`, then a fixed table of special blocks), and then
  picks the next block. The next-block precedence is `onEmpty`, literal
  `next`, option `next`, routing `next`, then `conditionalNext`. Blocks whose
  `showIf` is false and routing blocks are hopped over. Progress is measured
  against an expected path that depends on the variables. Question text is
  rendered by three template passes. A session that is no longer cached is
  rebuilt by replaying the stored answer log through the same two steps.
- **Branching** (`Branching`). Conditions (`lt`, `gt`, `equals`, `in`,
  variable-keyed `lessThan`/`greaterThan`/`contains`, `not`, `or`, `and`) and
  conditional routing in its list form and its nested if/then/else form.
- **Chart data** (`Charts`). Per-option counts for single-choice, scale and
  multi-choice questions, weighted ranking scores sorted highest first, and
  the list of chartable questions.
- **Dashboard engine** (`DataBinding`, `DataTransform`, `WidgetBinder`,
  `Dashboard`, `Themes`). Response metrics and answer distributions, metric
  and chart payloads, widget data binding, configuration validation,
  rectangle overlap detection, preview-data normalisation, and theme
  resolution, merging and validation.

The engine is imperative where the source is. `SurveyState`,
`RuntimeEngine` and `Persistence` are classes whose methods update their
fields. Each method is proved against pure specification functions:
`Record` for `updateState`, `NextQuestion` for `getNextQuestion`, `Step` and
`Replay` for an answer and for an answer log, and `Progress` and `HistoryOf`
for the read side. The reporting loops (`forEach` over responses, the
nested overlap loop, `mergeThemes`) are methods with loop invariants, proved
against recursive functions. Pure code is functions and lemmas.

`vendor/dashboard-widgets/dist/lib/data-transform.js` repeats
`normalizeMetricName`, `calculateMetrics`, `generateQuestionStats`,
`prepareMetricData` and `calculateDelta` of
`vendor/dashboard-engine/dist/data-binding.js` line for line. The same holds
for `getDefaultDataForWidget` and `bindSingleDataSource` in
`widget-data-binder.js`. Each of these is modelled once, in `DataBinding`,
and cited for both files. The two copies differ in exactly two places:
- which chart types get `stages`: a set parameter, `EngineStageTypes` versus
  `DataTransform.StageTypes`;
- whether a one-element binding list of a chart or table is unwrapped:
  `DataBinding.BindWidgetData` versus `WidgetBinder.BindWidgetData`.

Values are JSON-like: null, booleans, integers, strings, lists and objects
whose fields keep their insertion order. Integers stand for JavaScript
numbers (see "Left out").

## Model

| member | source | states |
|---|---|---|
| JsValues.StrictEqIsPrimitiveEquality | vendor/core/dist/branching.js:67 | `===` holds exactly for equal primitive values; two lists or objects are never strictly equal (distinct references) |
| JsValues.IncludesStrIsIncludes | server/runtime/runtime-engine.ts:414-419 | `answer.includes("email")` etc. is membership of the string value in the list |
| JsValues.Get | vendor/core/dist/branching.js:47 | property lookup on an object yields the value of the last field with that key, and nothing exactly when no field has the key |
| JsValues.NatToString | app/admin/lib/chart-data.ts:56 | `String(n)` of a natural number is a non-empty run of decimal digits without a leading zero |
| JsValues.DigitsOfNatToString | app/admin/lib/chart-data.ts:56 | reading back the digits of `String(n)` gives `n` |
| JsValues.NumberOfIntToString | vendor/core/dist/branching.js:48 | `Number(String(i)) == i` for every integer, so numeric comparisons of stringified numbers agree with the numbers |
| JsValues.NumberOfArray | vendor/core/dist/branching.js:48 | `Number` of a list goes through its string: `Number([])` is 0, `Number([i])` is i, `Number([s])` is `Number(s)`, `Number([null])` is 0, and an object is NaN |
| Branching.ResolvedVariable | vendor/core/dist/branching.js:44-46 | `condition.variable || fallbackVariable`: the condition's own variable wins when truthy, and a resolved name is never empty |
| Branching.Evaluate | vendor/core/dist/branching.js:40-116 | definition of `evaluateCondition`: the first present key among `lt`, `gt`, `equals`, `in`, then `lessThan`/`greaterThan`/`contains` under a truthy `variable`, then `not`, `or`, `and` decides; nothing else is false; its properties are the lemmas below |
| Branching.FirstMatch | vendor/core/dist/branching.js:20-24 | the list form returns the first rule whose `when` holds: that rule holds and every earlier one fails; none holds exactly when the result is absent |
| Branching.EvaluateArrayFormat | vendor/core/dist/branching.js:19-26 | the list form answers with the `goto` of the first rule whose `when` holds, and with `else \|\| null` when none holds |
| Branching.EvaluateNestedFormat | vendor/core/dist/branching.js:27-36 | the nested form answers with `then` when its `if` holds, and otherwise with the `then` of some holding guard along its `else` chain or with the chain's last `else` |
| Branching.EvaluateConditionalNext | vendor/core/dist/branching.js:8-18 | a routing object only ever leads to a target it spells out (a `goto`, `then` or `else`); no routing, or an `if` that is neither a list nor an object, gives null |
| Branching.OrNull | vendor/core/dist/branching.js:25 | `x \|\| null`: present exactly when `x` is a non-empty string, and then equal to it |
| Branching.NestedIsFirstMatch | vendor/core/dist/branching.js:27-36 | the nested if/then/else form is the list form over its chain: the `then` of the first true `if`, else the final `else` |
| Branching.EmptyJunctions | vendor/core/dist/branching.js:109-114 | `or: []` is false and `and: []` is true |
| Branching.DeMorgan | vendor/core/dist/branching.js:106-114 | `or` of conditions equals `not` of the `and` of their negations |
| Branching.EvaluateReadsOnly | vendor/core/dist/branching.js:40-116 | a condition's value depends only on the variables it names (or the fallback variable): two variable bags agreeing on those give the same result |
| Branching.MissingVariableIsFalse | vendor/core/dist/branching.js:43-79 | an `lt`/`gt`/`equals`/`in` clause whose variable is unnamed or unset is false and never throws |
| Branching.EqualsIgnoresOrder | vendor/core/dist/branching.js:62-66 | list `equals` compares lengths and membership, so a list of primitives equals its own reversal |
| Branching.Reverse | vendor/core/dist/branching.js:62-66 | the reversal used by EqualsIgnoresOrder holds the same elements in opposite positions |
| Survey.SelectedOption | server/runtime/runtime-engine.ts:357-368 | the option found is the first whose value or id strictly equals the answer, or whose boolean value matches the "true"/"false" text (and vice versa); none is found exactly when no option matches |
| Survey.FormatContent | server/runtime/runtime-engine.ts:606-622 | string content is rendered through the templates; keyed content with a `contentCondition` shows the `then` entry when the condition holds and the `else` entry otherwise, rendered; a keyed dynamic message without one shows the entry DynamicText picks, rendered; other keyed content is kept; missing content stays missing |
| Survey.MatchedContent | server/runtime/runtime-engine.ts:624-636 | no content is matched exactly when no item is `default` or has a holding condition; otherwise the content matched is that of the first item that is |
| Survey.WithConditionalContent | server/runtime/runtime-engine.ts:624-641 | a content other than "placeholder" or "" is kept; otherwise the first matching item, when its content is non-empty, replaces it, rendered |
| Survey.ContentConditionChoice | server/runtime/runtime-engine.ts:608-613 | with a `contentCondition` and no conditional content, the question shows the `then` entry rendered when the condition holds and the `else` entry rendered otherwise |
| Survey.ConditionalContentReplaces | server/runtime/runtime-engine.ts:624-641 | when the content is "placeholder" or "" and item i is the first matching one, the question shows item i's content rendered if it is non-empty, and keeps the content otherwise |
| Survey.FormatQuestion | server/runtime/runtime-engine.ts:585-655 | formatting a block changes only its content, option labels and placeholder; the content is the formatted content, replaced by the rendered first matching conditional content when it is non-empty and the formatted content is "placeholder" or ""; options keep their number, order and every other field, and each truthy label is rendered while any other is kept; a truthy placeholder is rendered, any other is kept |
| Survey.RenderLabel | server/runtime/runtime-engine.ts:643-648 | an option's truthy label is rendered; its other fields, and whether it has a label, are kept |
| Survey.FormatPlainBlock | server/runtime/runtime-engine.ts:586-604 | a block whose texts hold no template markup comes back unchanged: rendering works on a copy |
| Survey.DynamicMessageChoice | server/runtime/runtime-engine.ts:614-622 | a dynamic message's text is never empty and is either "Thanks for sharing!" or one of the entries; a truthy `connection_type` naming a non-empty entry shows that entry; otherwise a non-empty `default` entry is shown |
| Survey.DynamicText | server/runtime/runtime-engine.ts:615-619 | definition of the dynamic-message choice: the entry named by a truthy `connection_type` when non-empty, else the `default` entry when non-empty, else "Thanks for sharing!"; stated by DynamicMessageChoice |
| Survey.FindShown | server/runtime/runtime-engine.ts:669-671 | the option found for display is one whose id or value strictly equals the answer; none is found exactly when no option does |
| Survey.FindShownIsFirst | server/runtime/runtime-engine.ts:669-671 | the option found is the first such option |
| Survey.DisplayOfRanking | server/runtime/runtime-engine.ts:707-716 | the k-th ranked entry reads `<k+1>. <label>` |
| Survey.DisplayOfTextAnswers | server/runtime/runtime-engine.ts:657-721 | a missing or null answer is shown as ""; a text answer to a text-input or long-text block is shown as itself |
| Survey.FormatAnswerForDisplay | server/runtime/runtime-engine.ts:657-721 | definition of the answer text by block type (option label, joined labels, scale emoji and label, numbered ranking, the answer itself, JSON of an object); stated by the DisplayOf… lemmas |
| Survey.DisplayOfSingleChoice | server/runtime/runtime-engine.ts:666-676 | a single-choice answer is shown as the label of the first option whose id or value equals it |
| Templates.WordLen | server/runtime/runtime-engine.ts:599 | the `\w+` run at the start of a string is no longer than the string |
| Templates.WordLenIsLongestRun | server/runtime/runtime-engine.ts:599 | that run is the longest prefix of word characters |
| Templates.Find | server/runtime/runtime-engine.ts:591 | a found marker lies inside the text |
| Templates.FindFrom | server/runtime/runtime-engine.ts:591 | a marker found from position i lies at or after i and inside the text |
| Templates.FindIsFirst | server/runtime/runtime-engine.ts:591 | the lazy `[\s\S]*?` stops at the first occurrence of the marker; absence means no occurrence |
| Templates.FindFromIsFirst | server/runtime/runtime-engine.ts:591 | the same, searching from position i |
| Templates.IfHeader | server/runtime/runtime-engine.ts:591 | a matched `{{#if name}}` header lies inside the text |
| Templates.UpTo | server/runtime/runtime-engine.ts:591 | a match up to a marker lies inside the text |
| Templates.MatchIfElse | server/runtime/runtime-engine.ts:591 | a matched `{{#if V}}A{{else}}B{{/if}}` is non-empty and inside the text |
| Templates.MatchIf | server/runtime/runtime-engine.ts:595 | a matched `{{#if V}}A{{/if}}` is non-empty and inside the text |
| Templates.MatchVariable | server/runtime/runtime-engine.ts:599 | a matched `{{V}}` is non-empty and inside the text |
| Templates.MatchAt | server/runtime/runtime-engine.ts:591-601 | a match of any of the three patterns is non-empty and inside the text, so each pass makes progress |
| Templates.Pass | server/runtime/runtime-engine.ts:591-601 | definition of one global `replace`: a left-to-right scan that copies every character other than `{` and tries the pattern at each `{`; stated by PassPlain, PassAfterPlain and PassAtUnmatchedBrace |
| Templates.PassPlain | server/runtime/runtime-engine.ts:591-601 | a pass leaves text without `{` unchanged |
| Templates.NoMatchAtPlainChar | server/runtime/runtime-engine.ts:591-601 | no pattern matches at a character other than `{` |
| Templates.RenderPlain | server/runtime/runtime-engine.ts:588-604 | rendering leaves text without `{` unchanged |
| Templates.Render | server/runtime/runtime-engine.ts:588-604 | definition of `replaceVariables`: the if/else pass, the if pass and the variable pass in that order; stated by RenderPlain, RenderVariable and RenderIfElse |
| Templates.UpToPlain | server/runtime/runtime-engine.ts:591 | the lazy group before a marker is exactly the plain text in front of the marker's first occurrence |
| Templates.FindAfterPlain | server/runtime/runtime-engine.ts:591 | a marker after plain text is found right after it |
| Templates.SkipPlain | server/runtime/runtime-engine.ts:591 | the search from any position inside the plain text finds that marker |
| Templates.HeaderParts | server/runtime/runtime-engine.ts:591-599 | the `\w+` group of an opening tag is exactly the variable name |
| Templates.WordLenOfWord | server/runtime/runtime-engine.ts:599 | a word followed by a non-word character has exactly its own length as `\w+` run |
| Templates.VariablePlaceholder | server/runtime/runtime-engine.ts:599-601 | `{{V}}` is replaced by the variable's text, or "" when unset (`?? ""`), and the pass continues after it |
| Templates.IfHeaderOf | server/runtime/runtime-engine.ts:591 | `{{#if name}}` is recognised with the name and its length |
| Templates.MatchIfElseOf | server/runtime/runtime-engine.ts:591 | `{{#if V}}A{{else}}B{{/if}}` with plain A and B matches with exactly those parts and length |
| Templates.UpToAt | server/runtime/runtime-engine.ts:591 | the same as UpToPlain, at an offset of the text |
| Templates.MatchIfElseParts | server/runtime/runtime-engine.ts:591 | a header, an A up to `{{else}}` and a B up to `{{/if}}` make one if/else match |
| Templates.MatchIfOf | server/runtime/runtime-engine.ts:595 | `{{#if V}}A{{/if}}` with plain A matches with exactly that name, text and length |
| Templates.IfElsePlaceholder | server/runtime/runtime-engine.ts:591-593 | the if/else pass replaces `{{#if V}}A{{else}}B{{/if}}` by A when V is truthy, else by B, and continues after it |
| Templates.IfPlaceholder | server/runtime/runtime-engine.ts:595-597 | the if pass replaces `{{#if V}}A{{/if}}` by A when V is truthy, else by "", and continues after it |
| Templates.PassAfterPlain | server/runtime/runtime-engine.ts:591-601 | a pass copies plain text unchanged and then treats what follows it exactly as it would at the start, so the placeholder lemmas hold after any plain prefix |
| Templates.PassAtUnmatchedBrace | server/runtime/runtime-engine.ts:591-601 | at a `{` where the pattern does not match, the pass copies that `{` and scans on from the next character |
| Templates.NoIfMatch | server/runtime/runtime-engine.ts:591-597 | neither `{{#if` pattern matches a text that does not start with `{{#if ` |
| Templates.IfPassesKeepBraces | server/runtime/runtime-engine.ts:591-597 | the `{{#if` passes copy a `{{` that is not followed by `#` or `{` |
| Templates.WordClosePlain | server/runtime/runtime-engine.ts:599 | a variable name followed by `}}` holds no `{` |
| Templates.IfPassesKeepPlain | server/runtime/runtime-engine.ts:591-597 | the `{{#if` passes copy `{{` followed by plain text and continue after it |
| Templates.IfPassesKeepVariable | server/runtime/runtime-engine.ts:591-597 | the if/else pass and the if pass leave a `{{V}}` placeholder unchanged for the variable pass |
| Templates.RenderVariable | server/runtime/runtime-engine.ts:588-604 | `replaceVariables` of plain text, one `{{V}}` and plain text is the first text, the variable's text (or "") and the second text |
| Templates.RenderIfElse | server/runtime/runtime-engine.ts:588-604 | `replaceVariables` of plain text, one `{{#if V}}A{{else}}B{{/if}}` with plain A and B, and plain text is the first text, A or B as V is truthy, and the second text |
| Runtime.FirstBlockId | server/runtime/runtime-engine.ts:331-340 | the first block is "b0" when it exists, else the first key of the block map; an empty map (or an empty first key) is the error "Survey config must have at least one block" |
| Runtime.Initial | server/runtime/runtime-engine.ts:118-131 | a session starts at the first block with the given ids, with `user_name` (name or "") as its only variable, no answers, nothing completed, and progress 0 |
| Runtime.FieldsMapGet | server/runtime/runtime-engine.ts:370-372 | `Object.assign(variables, setVariables)` writes each key of the object with its last value, and only those keys |
| Runtime.Indexed | server/runtime/runtime-engine.ts:425-428 | assigning a list answer as an object writes the keys "0", "1", … with the list's elements |
| Runtime.SpecialWrites | server/runtime/runtime-engine.ts:378-433 | only the ids of the special table write anything, and every id but b19 writes only the table's own variable names |
| Runtime.Record | server/runtime/runtime-engine.ts:342-376 | definition of `updateState`: the answer is stored, the id appended to the completed list when new, and the variables bound; stated by RecordCompletes, RecordIdempotent and VariablePrecedence |
| Runtime.BlockOf | server/runtime/runtime-engine.ts:350 | `config.blocks[questionId]` is present exactly when the id is a key |
| Runtime.BindOverwrites | server/runtime/runtime-engine.ts:352-375 | binding variables is one overwrite of the old variables by the block variable, the option's `setVariables` and the special-id writes, later sources winning |
| Runtime.VariablePrecedence | server/runtime/runtime-engine.ts:352-433 | after an answer each variable holds the special-id write if there is one, else the chosen option's `setVariables` value, else the answer when it is the block's own `variable`, else its old value (present exactly when it was) |
| Runtime.RecordCompletes | server/runtime/runtime-engine.ts:345-348 | recording an answer sets `answers[questionId]`, keeps every other answer, appends `questionId` to `completedBlocks` only when absent (so no duplicates arise and the old list is a prefix), and leaves the current block, survey id and response id alone |
| Runtime.RecordIdempotent | server/runtime/runtime-engine.ts:342-376 | recording the same answer twice gives the same state as recording it once |
| Runtime.ContactMethodsDecideFollowUps | server/runtime/runtime-engine.ts:411-421 | after answering b16 with a list, "b16-social" is expected exactly when the list contains "social" and "b16-chat" exactly when it contains "conversations" |
| Runtime.ConsentDecidesDemographics | server/runtime/runtime-engine.ts:578-580 | after answering b18, "b19" is expected exactly when the answer is `true` |
| Runtime.Candidate | server/runtime/runtime-engine.ts:446-493 | a next block id that is found is never the empty string |
| Runtime.NextQuestion | server/runtime/runtime-engine.ts:435-523 | definition of `getNextQuestion`: the next id by precedence, then a hop over a hidden, routing or empty dynamic-message block; stated by the lemmas below and ReturnedBlockIsShown |
| Runtime.Hop | server/runtime/runtime-engine.ts:495-515 | definition of one automatic hop: move onto the block and continue from it; out of hops is the stack overflow |
| Runtime.EmptyAnswerFollowsOnEmpty | server/runtime/runtime-engine.ts:448-458 | an empty answer on a block with `onEmpty.next` (and no message) goes to that next |
| Runtime.StringNextWins | server/runtime/runtime-engine.ts:459-462 | unless the `onEmpty` case applies, a literal string `next` decides the next id |
| Runtime.OptionNextWins | server/runtime/runtime-engine.ts:464-482 | without a literal `next`, the matching option's `next` decides |
| Runtime.RoutingNextBeforeConditionalNext | server/runtime/runtime-engine.ts:484-493 | without those, a routing object in `next` is evaluated (with the block's variable as fallback), before `conditionalNext` |
| Runtime.ReturnedBlockIsShown | server/runtime/runtime-engine.ts:448-519 | the block returned is either the synthesized `<id>-empty-message` (current block unchanged) or the new current block, whose `showIf` holds and which is neither routing nor an empty dynamic message |
| Runtime.MoreFuelSameOutcome | server/runtime/runtime-engine.ts:495-515 | once the skipping recursion ends, a larger hop bound gives the same outcome: the bound only models the source's unbounded recursion |
| Runtime.OverflowIffHops | server/runtime/runtime-engine.ts:495-515 | `getNextQuestion` overflows with a bound of `fuel` hops exactly when the chain of automatic hops from the answered block is still going after `fuel + 1` steps |
| Runtime.OverflowIsForever | server/runtime/runtime-engine.ts:435-523 | an overflow at the hop limit (twice the number of blocks plus two) means an overflow at every bound: the hop chain has entered a cycle and the source's unbounded recursion never returns |
| Runtime.IfTrue | server/runtime/runtime-engine.ts:570-580 | an optional block is expected exactly when its variable is `=== true` |
| Runtime.ContactExtras | server/runtime/runtime-engine.ts:563-568 | the confirm block is expected when `contact_info_needed` is truthy, the details block only if `contact_info_confirmed === true` as well |
| Runtime.Extras | server/runtime/runtime-engine.ts:563-580 | at most five optional blocks are added |
| Runtime.ExpectedBlocks | server/runtime/runtime-engine.ts:539-583 | the expected path is the 12 main-path ids followed by at most five extras |
| Runtime.MainPathDistinct | server/runtime/runtime-engine.ts:541-554 | the main path has no repeated id |
| Runtime.ExtrasDistinct | server/runtime/runtime-engine.ts:556-580 | the extras are distinct and not on the main path |
| Runtime.ExpectedBlocksDistinct | server/runtime/runtime-engine.ts:539-583 | the expected path has no repeated id |
| Runtime.ExpectedContactBlocks | server/runtime/runtime-engine.ts:558-568 | "b16-contact-confirm" is expected exactly when `contact_info_needed` is truthy; "b16-contact-details" exactly when in addition `contact_info_confirmed === true` |
| Runtime.ExpectedOptionalBlocks | server/runtime/runtime-engine.ts:570-580 | "b16-social", "b16-chat" and "b19" are expected exactly when `wants_social`, `wants_conversations` and `demographics_consent` are `=== true` |
| Runtime.CountCompleted | server/runtime/runtime-engine.ts:531-533 | the completed count never exceeds the expected count |
| Runtime.CountAll | server/runtime/runtime-engine.ts:531-533 | the count equals the expected count exactly when every expected block is completed, and is 0 when none is |
| Runtime.CountMonotone | server/runtime/runtime-engine.ts:531-533 | completing more blocks never lowers the count |
| Runtime.RoundPercent | server/runtime/runtime-engine.ts:535 | `Math.round(100c/n)` is the integer p with `p - 1/2 <= 100c/n < p + 1/2` |
| Runtime.PercentInRange | server/runtime/runtime-engine.ts:535-536 | the clamped percentage lies in 0..100 |
| Runtime.PercentFull | server/runtime/runtime-engine.ts:535-536 | for fewer than 200 expected blocks, the percentage is 100 exactly when all are completed |
| Runtime.PercentOfNone | server/runtime/runtime-engine.ts:527-536 | no completed blocks give 0 |
| Runtime.PercentMonotone | server/runtime/runtime-engine.ts:535-536 | the percentage grows with the count |
| Runtime.ProgressInRange | server/runtime/runtime-engine.ts:525-537 | progress always lies in 0..100 |
| Runtime.Progress | server/runtime/runtime-engine.ts:525-537 | definition of `calculateProgress`: the rounded, clamped percentage of expected blocks completed; stated by ProgressInRange, ProgressFullIffAllDone, ProgressStartsAtZero and ProgressMonotone |
| Runtime.ProgressFullIffAllDone | server/runtime/runtime-engine.ts:525-537 | progress is 100 exactly when every expected block is completed |
| Runtime.ProgressStartsAtZero | server/runtime/runtime-engine.ts:525-537 | a fresh session has progress 0 |
| Runtime.ProgressMonotone | server/runtime/runtime-engine.ts:525-537 | with the variables fixed, completing more blocks never lowers progress |
| Runtime.HistoryEntry | server/runtime/runtime-engine.ts:737-770 | a completed block yields an entry exactly when it exists and is not routing; the entry has the block's id and type, is bot-only exactly for dynamic messages, and has an answer text exactly when it is not bot-only |
| Runtime.EntriesOf | server/runtime/runtime-engine.ts:737-770 | the loop body is applied to each completed block in order |
| Runtime.HistoryEntries | server/runtime/runtime-engine.ts:732-773 | every history item comes from a completed, existing, non-routing block with that block's type, and the bot-only flag and answer text agree as above |
| Runtime.HistoryFollowsCompletion | server/runtime/runtime-engine.ts:737-742 | when every completed block exists and is not routing, the history has one item per completed block, in completion order |
| Runtime.Step | server/runtime/runtime-engine.ts:829-833 | one replayed answer is `updateState` followed by `getNextQuestion`: apart from the current block the new state is the recorded one, and it fails exactly when the skipping recursion overflows |
| Runtime.ReplayExtend | server/runtime/runtime-engine.ts:824-838 | replaying a log with one more answer is the replay of the log followed by one step |
| Runtime.Replay | server/runtime/runtime-engine.ts:824-838 | definition of the replay loop: each logged answer in order is one Step, and the first failure ends it; stated by ReplayExtend, ReplayFailurePersists and ReplayedAnswers |
| Runtime.ReplayFailurePersists | server/runtime/runtime-engine.ts:824-838 | once a prefix of the log fails, the whole replay fails |
| Runtime.ReplayedAnswers | server/runtime/runtime-engine.ts:824-838 | after a replay each answer is the last logged answer for its block (else the old one), the completed blocks are the old ones plus the logged blocks without duplicates, and the ids are unchanged |
| Engine.SurveyState.constructor | server/runtime/runtime-engine.ts:120-130 | a new state object holds exactly the given survey id, response id, current block, variables, completed blocks and answers |
| Engine.StoredName | server/runtime/runtime-engine.ts:155 | `name \|\| null` stores a name that reads back (with `\|\| ""`) as the name given |
| Engine.Persistence.constructor | server/runtime/runtime-engine.ts:7-35 | the store starts empty |
| Engine.Persistence.CreateResponse | server/runtime/runtime-engine.ts:8-14 | creating a response adds one unfinished row with no answers under the session id and returns its id; nothing else changes |
| Engine.Persistence.SaveAnswer | server/runtime/runtime-engine.ts:15-19 | saving appends the answer to the answer log of the row with that response id; every other row is unchanged |
| Engine.Persistence.CompleteResponse | server/runtime/runtime-engine.ts:20 | completing marks the row with that response id as completed; every other row is unchanged |
| Engine.Persistence.GetResponseBySessionId | server/runtime/runtime-engine.ts:21-34 | the lookup returns the row stored under the session id, and null exactly when there is none |
| Engine.SingleWrite | server/runtime/runtime-engine.ts:380-395 | b3, b4, b6 and b18 each write one variable (`user_name`, `connection_type`, `arts_importance`, `demographics_consent`) |
| Engine.ArtsWrites | server/runtime/runtime-engine.ts:386-392 | b5 writes the answer, its length (0 for a non-list) and whether it contains "other" |
| Engine.VideoWrites | server/runtime/runtime-engine.ts:396-401 | b7 writes `responseId \|\| null` and `responseUrl \|\| null` for an object answer, nothing otherwise |
| Engine.VisionWrites | server/runtime/runtime-engine.ts:402-410 | b12 writes `type \|\| "skipped"` and the two ids for an object answer, and "skipped" otherwise |
| Engine.NoWrites | server/runtime/runtime-engine.ts:430-432 | any other block id writes nothing |
| Engine.ReplaysStep | server/runtime/runtime-engine.ts:824-838 | if a state is the replay of a stored log, one live step on it is the replay of the log with that answer appended |
| Engine.ReplaysResponseId | server/runtime/runtime-engine.ts:795 | a state rebuilt from a stored row carries that row's id as response id |
| Engine.Answered | server/runtime/runtime-engine.ts:216-233 | the answer response has progress in 0..100, equal to 100 exactly when every expected block is completed, and a next question exactly when `getNextQuestion` returned one |
| Engine.FormatNext | server/runtime/runtime-engine.ts:228-231 | a next question is formatted when there is one, and null stays null |
| Engine.StateView | server/runtime/runtime-engine.ts:293-322 | the session view is complete exactly when the current block does not exist, and then has no current question; progress lies in 0..100; the response id is the state's; every history item names a completed, existing block |
| Engine.RuntimeEngine.constructor | server/runtime/runtime-engine.ts:107-109 | a new engine has no sessions and keeps the persistence it is given |
| Engine.RuntimeEngine.StartPreview | server/runtime/runtime-engine.ts:111-144 | a preview session starts at the first block with `user_name = name \|\| ""` and nothing completed; it is cached under the new session id, no other session changes, and the first question is returned formatted; an empty block map fails with no session added |
| Engine.RuntimeEngine.StartRuntime | server/runtime/runtime-engine.ts:146-190 | the response row is created before the first block is looked up (so it exists even when that fails); on success the session starts like a preview one, with survey id `survey.id \|\| draftId \|\| deploymentId \|\| "runtime"`, and its state is the replay of its stored row |
| Engine.RuntimeEngine.Resolve | server/runtime/runtime-engine.ts:194-211 | a cached session is used as is; otherwise, with a config, a reconstructed session is cached under the id; no session results exactly when the id is not cached and there is no config, no stored row, or a completed row |
| Engine.RuntimeEngine.SubmitAnswer | server/runtime/runtime-engine.ts:192-234 | "Invalid session ID" exactly when no session is cached or reconstructible; otherwise the state advances by one step (answer recorded, current block moved on), the response is the formatted next question and the progress, and a runtime session whose state replayed its stored row has the answer appended to that row and still replays it; preview sessions never write |
| Engine.RuntimeEngine.Reply | server/runtime/runtime-engine.ts:213-233 | the part of `submitAnswer` after the lookup: one step, the save for runtime sessions, and the answer response |
| Engine.RuntimeEngine.Answer | server/runtime/runtime-engine.ts:213-224 | `updateState`, `getNextQuestion` and `saveAnswer`: the state takes one step; a runtime session that replayed its stored row appends exactly this answer to that row and still replays it |
| Engine.RuntimeEngine.GetSessionState | server/runtime/runtime-engine.ts:264-323 | "Session not found" exactly when no session is cached or reconstructible; otherwise the view of the session's state, with the cache unchanged for a cached session |
| Engine.RuntimeEngine.CompleteSession | server/runtime/runtime-engine.ts:236-258 | the session leaves the cache; an uncached session completes its stored row only when that row exists and is unfinished; a cached runtime session completes its own row; preview sessions write nothing |
| Engine.RuntimeEngine.ClearSession | server/runtime/runtime-engine.ts:260-262 | the session leaves the cache and nothing else changes |
| Engine.RuntimeEngine.UpdateSpecialVariables | server/runtime/runtime-engine.ts:378-433 | the variables become the old ones overwritten by the special-id table; nothing else changes |
| Engine.RuntimeEngine.UpdateState | server/runtime/runtime-engine.ts:342-376 | the in-place update yields exactly the recorded state (answer, completed list, variables) |
| Engine.RuntimeEngine.NextBlockId | server/runtime/runtime-engine.ts:446-493 | the loop-free next-id selection agrees with the precedence function |
| Engine.RuntimeEngine.GetNextQuestion | server/runtime/runtime-engine.ts:435-523 | the recursion returns the specified outcome, writes only `currentBlockId`, and leaves it unchanged when no next id resolves |
| Engine.RuntimeEngine.BuildConversationHistory | server/runtime/runtime-engine.ts:732-773 | the loop builds exactly the history of the completed blocks in order |
| Engine.RuntimeEngine.Advance | server/runtime/runtime-engine.ts:829-833 | `updateState` then `getNextQuestion` performs one step, and fails exactly when the step fails |
| Engine.RuntimeEngine.ReplayLog | server/runtime/runtime-engine.ts:824-838 | the replay loop succeeds exactly when the replay of the whole log does, and then leaves the replayed state |
| Engine.RuntimeEngine.ReconstructSessionFromDatabase | server/runtime/runtime-engine.ts:775-847 | null exactly for a missing or completed row; otherwise a fresh runtime session whose state is the replay of the stored log from the initial state, or the error of the first block or of the replay |
| Charts.NormalizeAnswer | app/admin/lib/chart-data.ts:54-60 | a string or list is kept; an object's `value` is stringified; else its `text` is taken; anything else becomes its JSON text |
| Charts.NormalizeSettles | app/admin/lib/chart-data.ts:54-60 | normalizing a normalized string or list changes nothing |
| Charts.FirstAnswer | app/admin/lib/chart-data.ts:89 | `answers.find` returns the first answer for the block, and nothing exactly when there is none |
| Charts.CountSplit | app/admin/lib/chart-data.ts:88-96 | counting over two batches of responses adds up |
| Charts.WeightsAtMostOne | app/admin/lib/chart-data.ts:88-96 | with distinct option values a response counts for at most one option, and only when its normalized answer is that value |
| Charts.SumCountsStep | app/admin/lib/chart-data.ts:88-96 | adding a response adds its weight to the total count |
| Charts.SingleCountsAtMostResponses | app/admin/lib/chart-data.ts:76-103 | with distinct option values, the single-choice counts add up to at most the number of responses |
| Charts.ZeroCounts | app/admin/lib/chart-data.ts:83-85 | with no responses all counts are zero |
| Charts.ZeroedCounts | app/admin/lib/chart-data.ts:83-85 | the count table starts with exactly the option values, each at 0 |
| Charts.Labelled | app/admin/lib/chart-data.ts:99-102 | the result has one entry per option, in option order, with the option's label and its count |
| Charts.SingleChoiceDistribution | app/admin/lib/chart-data.ts:76-103 | one entry per option, in option order, counting the responses whose first answer for the block normalizes to that option's value; other answers are ignored |
| Charts.AddSelections | app/admin/lib/chart-data.ts:124-129 | each list element equal to an option value adds 1 (multi-choice) or `max(0, maxSelections - index)` (ranking) to it; other values and keys are untouched |
| Charts.SelectionCounts | app/admin/lib/chart-data.ts:112-132 | after all responses each option value holds the total of its selections or points; non-list answers add nothing |
| Charts.MultiChoiceDistribution | app/admin/lib/chart-data.ts:108-139 | one entry per option, in option order, counting each string element of a list answer equal to the option's value |
| Charts.RankingScores | app/admin/lib/chart-data.ts:145-180 | the per-option scores (maxSelections defaulting to 3) are sorted by score, highest first |
| Charts.InsertDescPerm | app/admin/lib/chart-data.ts:179 | inserting into the sorted list adds exactly the new entry |
| Charts.InsertDescFrom | app/admin/lib/chart-data.ts:179 | every entry after insertion is the new one or an old one |
| Charts.InsertDescSorted | app/admin/lib/chart-data.ts:179 | insertion keeps the list sorted highest first |
| Charts.SortDescSorts | app/admin/lib/chart-data.ts:179 | `.sort((a, b) => b.value - a.value)` yields a permutation of its input, sorted highest first |
| Charts.ChartableQuestions | app/admin/lib/chart-data.ts:65-71 | exactly the single-choice, multi-choice, ranking and scale blocks with options are kept, each as often as it occurs |
| Charts.GenerateChartData | app/admin/lib/chart-data.ts:185-212 | the chart carries the block's id, content and type; single-choice and scale get option counts, multi-choice selection counts, ranking sorted scores, and any other type no data |
| Charts.GenerateAllChartData | app/admin/lib/chart-data.ts:217-224 | one chart per chartable block, in the same order, each as above |
| DataBinding.NormalizeMetricName | vendor/dashboard-engine/dist/data-binding.js:8-18 | snake_case metric names map to camelCase ones, any other name is kept, and no result is a snake_case name; the widgets copy, `vendor/dashboard-widgets/dist/lib/data-transform.js:4-14`, is the same code |
| DataBinding.NormalizeMetricNameIdempotent | vendor/dashboard-engine/dist/data-binding.js:8-18 | normalizing twice is normalizing once |
| DataBinding.CompletedCount | vendor/dashboard-engine/dist/data-binding.js:24 | the completed count never exceeds the number of responses |
| DataBinding.CompletedCountIsFilter | vendor/dashboard-engine/dist/data-binding.js:24 | the completed count is the number of responses with `completedAt !== null` |
| DataBinding.Latest | vendor/dashboard-engine/dist/data-binding.js:26-31 | `lastResponseAt` is undefined exactly for no responses, otherwise the largest `completedAt \|\| createdAt` among them |
| DataBinding.CalculateMetrics | vendor/dashboard-engine/dist/data-binding.js:22-38 | the total is the number of responses, the completed count is the number of responses with a completion time (so at most the total), and the last response time is the latest stamp; the widgets copy, `vendor/dashboard-widgets/dist/lib/data-transform.js:18-34`, is the same code |
| DataBinding.Keys | vendor/dashboard-engine/dist/data-binding.js:49-63 | one distribution key per answer |
| DataBinding.Tabulate | vendor/dashboard-engine/dist/data-binding.js:48-65 | definition of the distribution loop: each key raises its count by one, new keys appended to the key order; stated by TabulateOrder, TabulateCounts and TabulateTotal |
| DataBinding.TabulateOrder | vendor/dashboard-engine/dist/data-binding.js:48-65 | the distribution's key order lists each counted key exactly once |
| DataBinding.TabulateCounts | vendor/dashboard-engine/dist/data-binding.js:48-65 | the distribution counts exactly the keys that occur, each by its number of occurrences |
| DataBinding.OccurrencesAbsent | vendor/dashboard-engine/dist/data-binding.js:64 | a key that never occurs has count 0 |
| DataBinding.Stats | vendor/dashboard-engine/dist/data-binding.js:42-80 | the statistics list each distribution key exactly once |
| DataBinding.GenerateQuestionStats | vendor/dashboard-engine/dist/data-binding.js:42-80 | the `forEach` that fills the distribution computes exactly the statistics function; the widgets copy, `vendor/dashboard-widgets/dist/lib/data-transform.js:38-76`, is the same code |
| DataBinding.SumOverBump | vendor/dashboard-engine/dist/data-binding.js:64 | incrementing one listed key raises the sum of the counts by one |
| DataBinding.TabulateTotal | vendor/dashboard-engine/dist/data-binding.js:48-67 | the counts add up to the number of answers |
| DataBinding.StatsTotal | vendor/dashboard-engine/dist/data-binding.js:42-80 | `totalAnswers` equals the sum of the distribution counts |
| DataBinding.IncompleteIgnored | vendor/dashboard-engine/dist/data-binding.js:44 | adding an unfinished response does not change the statistics |
| DataBinding.PrepareMetricData | vendor/dashboard-engine/dist/data-binding.js:84-109 | under either spelling, `totalResponses` gives the number of responses, `completedResponses` the number of completed ones and `completionRate` the rate of completed to total (completed never above total); a metric type that is none of these gives 0 labelled with the type itself, and the label is missing exactly when the type is; the widgets copy, `vendor/dashboard-widgets/dist/lib/data-transform.js:80-105`, is the same code |
| DataBinding.MetricAliasesAgree | vendor/dashboard-engine/dist/data-binding.js:8-18 | the snake_case and camelCase names of a metric give the same data |
| DataBinding.PrepareChartData | vendor/dashboard-engine/dist/data-binding.js:113-133 | `stages` exactly for the stage chart types, `segments` otherwise, with one entry per distribution key in key order carrying its count |
| DataBinding.SegmentTotalIsSum | vendor/dashboard-engine/dist/data-binding.js:116-119 | the segment values add up to the sum of the counts |
| DataBinding.ChartTotal | vendor/dashboard-engine/dist/data-binding.js:113-133 | the chart entries add up to `totalAnswers` |
| DataBinding.DefaultData | vendor/dashboard-engine/dist/data-binding.js:206-238 | the payload's shape follows the widget type (metric, chart, text, or custom `ai-summary`) and is never a keyed map; a metric shows the number of responses labelled with the title or "Total Responses", a chart has no entries, a text shows its content or "", a summary the placeholder; the widgets copy, `vendor/dashboard-widgets/dist/lib/widget-data-binder.js:69-101`, is the same code |
| DataBinding.BindSingleDataSource | vendor/dashboard-engine/dist/data-binding.js:157-191 | metric sources delegate to the metric data; question sources give `Responses to <id>` with `totalAnswers` for `count`, else a chart of the answer distribution (of the widget's variant or donut for distribution/percentage, donut otherwise), shaped as funnel stages exactly when that chart type is a stage type; other sources give {}; the widgets copy, `vendor/dashboard-widgets/dist/lib/widget-data-binder.js:20-54`, is the same code over the widgets' stage chart types, passed as `stageTypes` |
| DataBinding.AssignDomain | vendor/dashboard-engine/dist/data-binding.js:197-200 | assigning keys in turn yields exactly the keys assigned |
| DataBinding.AssignLastWins | vendor/dashboard-engine/dist/data-binding.js:197-200 | a key holds the value of its last assignment |
| DataBinding.KeyedDomain | vendor/dashboard-engine/dist/data-binding.js:195-202 | the keys of the result are exactly the binding keys |
| DataBinding.KeyedLastWins | vendor/dashboard-engine/dist/data-binding.js:195-202 | a later binding with the same key overwrites an earlier one |
| DataBinding.BindMultipleDataSources | vendor/dashboard-engine/dist/data-binding.js:195-202 | the loop builds exactly the keyed map of the bindings; the widgets copy, `vendor/dashboard-widgets/dist/lib/widget-data-binder.js:58-65`, is the same code |
| DataBinding.BindWidgetData | vendor/dashboard-engine/dist/data-binding.js:137-153 | no data → the default; a single binding → that binding bound with the widget; a one-element list on a chart or table → its element unwrapped; the result is a keyed map exactly for any other list, and then its keys are exactly the bindings' `id || data<index>` keys |
| DataBinding.CalculateDelta | vendor/dashboard-engine/dist/data-binding.js:255-265 | null exactly when previous is 0; otherwise the absolute change is current − previous and the direction is up or down by its sign, neutral when zero; the widgets copy, `vendor/dashboard-widgets/dist/lib/data-transform.js:146-156`, is the same code |
| DataBinding.DeltaAntisymmetric | vendor/dashboard-engine/dist/data-binding.js:255-265 | swapping the two values swaps up and down and negates the absolute change |
| DataTransform.PrepareChartData | vendor/dashboard-widgets/dist/lib/data-transform.js:109-129 | `stages` only for "funnel", `segments` for every other type, with the same entries as the engine's version |
| DataTransform.LineAndAreaDiffer | vendor/dashboard-widgets/dist/lib/data-transform.js:116 | for "line" and "area" this copy gives `segments` where the engine's gives `stages` |
| WidgetBinder.BindWidgetData | vendor/dashboard-widgets/dist/lib/widget-data-binder.js:5-16 | no data → the default; a single binding → bound with the widget; a list of bindings, of any length → the keyed map, and only then |
| WidgetBinder.OneBindingArrayWrapped | vendor/dashboard-widgets/dist/lib/widget-data-binder.js:11-13 | a one-element list gives a map with the single key `id \|\| "data0"` |
| WidgetBinder.EngineUnwrapsOneBindingChart | vendor/dashboard-widgets/dist/lib/widget-data-binder.js:11-13 | for a chart or table with a one-element list, the engine's binder unwraps it and this one does not, so the results differ |
| Dashboard.WidgetsOverlap | vendor/dashboard-engine/dist/DashboardEngine.js:200-210 | definition of `widgetsOverlap`: two present layouts whose x and y ranges strictly intersect; stated by OverlapSymmetric, EdgesDoNotOverlap and OverlapIffCommonCell |
| Dashboard.OverlapSymmetric | vendor/dashboard-engine/dist/DashboardEngine.js:200-210 | `widgetsOverlap(a, b) == widgetsOverlap(b, a)` |
| Dashboard.EdgesDoNotOverlap | vendor/dashboard-engine/dist/DashboardEngine.js:207-209 | rectangles that only touch along an edge do not overlap |
| Dashboard.OverlapIffCommonCell | vendor/dashboard-engine/dist/DashboardEngine.js:200-210 | two non-empty rectangles overlap exactly when some grid point lies inside both |
| Dashboard.Row | vendor/dashboard-engine/dist/DashboardEngine.js:184-193 | the inner loop for widget i reports only pairs (i, j) with i < j |
| Dashboard.Upto | vendor/dashboard-engine/dist/DashboardEngine.js:183-194 | the outer loop up to i reports only pairs with i < j inside the list |
| Dashboard.OverlapsWith | vendor/dashboard-engine/dist/DashboardEngine.js:184-193 | the inner loop pushes one `{widget1, widget2}` (title or id) per later overlapping widget, in index order |
| Dashboard.DetectWidgetOverlaps | vendor/dashboard-engine/dist/DashboardEngine.js:181-196 | the nested loop pushes one named pair per overlapping index pair, in loop order |
| Dashboard.RowMembers | vendor/dashboard-engine/dist/DashboardEngine.js:184-193 | the inner loop's pairs are exactly the later widgets that overlap widget i |
| Dashboard.UptoMembers | vendor/dashboard-engine/dist/DashboardEngine.js:183-194 | the outer loop's pairs are exactly the overlapping pairs whose first index has been visited |
| Dashboard.OverlapIndicesMembers | vendor/dashboard-engine/dist/DashboardEngine.js:181-196 | (i, j) is reported exactly when i < j and the two layouts overlap |
| Dashboard.RowOrdered | vendor/dashboard-engine/dist/DashboardEngine.js:184-193 | the inner loop reports its pairs in increasing j |
| Dashboard.UptoOrdered | vendor/dashboard-engine/dist/DashboardEngine.js:183-194 | the outer loop reports its pairs in lexicographic order |
| Dashboard.OverlapsReportedOnce | vendor/dashboard-engine/dist/DashboardEngine.js:181-196 | the reported pairs are strictly ordered, so each unordered overlapping pair is reported exactly once |
| Dashboard.OverlapWarnings | vendor/dashboard-engine/dist/DashboardEngine.js:162-169 | one overlap warning per overlapping pair |
| Dashboard.CheckRequiredFields | vendor/dashboard-engine/dist/DashboardEngine.js:86-106 | a missing id, type or layout each appends one error for the widget |
| Dashboard.CheckBinding | vendor/dashboard-engine/dist/DashboardEngine.js:107-134 | a chart or table without a data source, with source value "b0", or with an empty source value appends one warning |
| Dashboard.CheckLayout | vendor/dashboard-engine/dist/DashboardEngine.js:135-159 | x outside 0..11, w outside 1..12 and h ≤ 0 each append one error |
| Dashboard.CheckWidget | vendor/dashboard-engine/dist/DashboardEngine.js:84-160 | one widget's checks append its errors and its warnings |
| Dashboard.CheckWidgets | vendor/dashboard-engine/dist/DashboardEngine.js:84-160 | the loop over widgets collects all their errors and warnings in order |
| Dashboard.AddOverlapWarnings | vendor/dashboard-engine/dist/DashboardEngine.js:162-169 | the overlap warnings come after the binding warnings, one per overlap |
| Dashboard.ValidateConfig | vendor/dashboard-engine/dist/DashboardEngine.js:66-175 | valid exactly when there are no errors; a null config gives the single error "config", a config without a widgets list the single error "widgets"; otherwise the errors are the widgets' errors and the warnings their binding warnings followed by the overlap warnings |
| Dashboard.WidgetErrorsEmpty | vendor/dashboard-engine/dist/DashboardEngine.js:86-159 | a widget has no errors exactly when it has an id, a type and a layout with 0 ≤ x < 12, 0 < w ≤ 12 and h > 0 |
| Dashboard.LayoutErrorsIff | vendor/dashboard-engine/dist/DashboardEngine.js:136-159 | the x, w and h errors are raised exactly when x ∉ [0, 11], w ∉ [1, 12], h ≤ 0 |
| Dashboard.AllErrorsEmpty | vendor/dashboard-engine/dist/DashboardEngine.js:84-174 | the configuration has no errors (is valid) exactly when no widget has one |
| Dashboard.BindAllWidgets | vendor/dashboard-engine/dist/DashboardEngine.js:27-35 | the loop builds the map of widget id to bound data, empty when there is no config or no widgets |
| Dashboard.BoundWidgetsByLastId | vendor/dashboard-engine/dist/DashboardEngine.js:30-33 | the last widget with a given id decides its entry |
| Dashboard.BoundWidgetIds | vendor/dashboard-engine/dist/DashboardEngine.js:27-35 | the map's keys are exactly the widgets' ids |
| Dashboard.NormalizeResponse | vendor/dashboard-engine/dist/DashboardEngine.js:222-236 | a response keeps its id and completion, and gets one normalized answer per sample answer, each pointing back to the response id |
| Dashboard.NormalizeResponses | vendor/dashboard-engine/dist/DashboardEngine.js:217-240 | [] unless `sampleResponses` is a list; otherwise one response per sample, in order, keeping the sample's id (or a generated one) and completion time, with one answer per sample answer that points back to the response, takes `questionId \|\| blockId` as block and `value` (when defined) else `answer` as answer |
| Dashboard.FallbackAnswerIdsDistinct | vendor/dashboard-engine/dist/DashboardEngine.js:228 | answers at different positions get different `ans-<idx>` ids |
| Dashboard.NormalizedFallbackIdsDistinct | vendor/dashboard-engine/dist/DashboardEngine.js:228 | two answers of a normalized response that had no id of their own get different ids |
| Themes.Filled | vendor/dashboard-engine/dist/theme-resolver.js:55-61 | each field of the result is the theme's truthy value, else the default |
| Themes.FilledNonEmpty | vendor/dashboard-engine/dist/theme-resolver.js:55-61 | every field of a filled theme is non-empty |
| Themes.ResolveTheme | vendor/dashboard-engine/dist/theme-resolver.js:20-30 | no theme gives the defaults; otherwise each field is `metadata.theme`'s value when truthy, else the default |
| Themes.ResolveComplete | vendor/dashboard-engine/dist/theme-resolver.js:20-30 | resolving a theme whose fields are all set gives that theme back |
| Themes.GetDefaultTheme | vendor/dashboard-engine/dist/theme-resolver.js:34-36 | the result equals the default theme field by field |
| Themes.MergeThemes | vendor/dashboard-engine/dist/theme-resolver.js:40-62 | the loop yields the merge of all themes filled with the defaults |
| Themes.MergeRightmostWins | vendor/dashboard-engine/dist/theme-resolver.js:42-53 | a field takes the value of the right-most theme that sets it |
| Themes.MergeUnsetDefault | vendor/dashboard-engine/dist/theme-resolver.js:55-61 | a field no theme sets takes the default |
| Themes.MergeOneOrNone | vendor/dashboard-engine/dist/theme-resolver.js:40-62 | merging nothing gives the defaults, and merging one theme resolves it |
| Themes.HexRun | vendor/dashboard-engine/dist/theme-resolver.js:67 | the `[0-9a-fA-F]{…,8}` run is at most 8 long, made of hex digits, and stops at the first non-hex character |
| Themes.ColourMatchesIff | vendor/dashboard-engine/dist/theme-resolver.js:67 | a colour matches exactly when it starts with `#` and three hex digits, or with "rgb" or "hsl" |
| Themes.HexRunAtLeast | vendor/dashboard-engine/dist/theme-resolver.js:67 | a run of m hex digits is found in full (up to the limit) |
| Themes.TrailingTextIgnored | vendor/dashboard-engine/dist/theme-resolver.js:67 | the test is on a prefix only: appending text to a matching colour keeps it matching |
| Themes.TruthyColours | vendor/dashboard-engine/dist/theme-resolver.js:68-74 | `.filter(Boolean)` keeps exactly the truthy colours |
| Themes.Truthy | vendor/dashboard-engine/dist/theme-resolver.js:74 | the filter keeps exactly the non-empty strings |
| Themes.ValidateTheme | vendor/dashboard-engine/dist/theme-resolver.js:66-76 | a theme is valid exactly when every truthy colour matches the colour pattern |
| Themes.ValidResolvesValid | vendor/dashboard-engine/dist/theme-resolver.js:8-76 | every default colour passes `validateTheme`, so resolving a theme that passes it (or no theme) gives a complete theme that passes it too |

## Left out

- Floating point is not modelled. This covers the completion rate (`Math.round(x * 10) / 10`), the per-key `percentages` of `generateQuestionStats`, the `percentage` field of chart stages, the percent `value` of `calculateDelta` and `formatNumber` (`toFixed`). The completion rate is kept as the pair of completed and total counts (`MetricValue.Rate`). The percentages and the delta percent are omitted.
- Numbers are integers. `Number()` of a string accepts only an optional minus sign followed by decimal digits ("" is 0). The model reads these strings as NaN, where JavaScript reads a number: leading or trailing whitespace, decimals, exponents, hex strings, a leading plus sign ("+5") and "Infinity". NaN is rejected by every comparison. A list is read through its string, as in JavaScript; an object's string is never a number.
- Runtime.RoundPercent: rounds the exact quotient `100c/n` half up. In floating point the quotient can be off by far less than the `1/(2n)` that separates it from a half, so the two agree for any realistic number of blocks. The model does not state this agreement.
- The three template regular expressions are replaced by a hand-written scanner: `\w` is ASCII letters, digits and `_`, and `[\s\S]*?` stops at the first closing marker.
- Templates.Render: proved to leave text without markup unchanged (RenderPlain). It is also proved, by RenderVariable and RenderIfElse, for one `{{V}}` or one `{{#if V}}A{{else}}B{{/if}}` between plain texts. The single-pass lemmas hold for a placeholder after any plain text (PassAfterPlain). The whole render is not proved for a lone `{{#if V}}A{{/if}}`, for several placeholders, or for nested or malformed markup.
- `async`/`await` and concurrent requests over the shared `sessions` map are left out. Calls are modelled one at a time. `console.log` tracing is left out.
- `randomUUID` is not modelled. The session id and response id are parameters of `StartPreview`/`StartRuntime`. Preconditions require them to be new (no collisions).
- `new Date()` is not modelled. The current time is the parameter `now` of `Dashboard.NormalizeResponses`.
- `generateSampleDataForWidget` is left out because it draws from `Math.random`.
- Dates are integer timestamps. An absent `completedAt` counts as null, and `completedAt || createdAt` takes the creation time then.
- `ensureConfig`: a configuration without a `blocks` object ("Survey config with blocks is required") is excluded by the `Config` subset type rather than modelled as an error. The key order of `config.blocks` is given explicitly. Both are required to agree (`WellFormed`).
- Survey.WellFormedBlock: a `contentCondition` whose `then` or `else` key names no entry of the content makes the source call `replaceVariables(undefined)`, which throws a TypeError. The model excludes such blocks by this precondition instead of modelling the throw. A null content is read as missing content, so the TypeErrors the source raises when a null content (`typeof null` is "object") meets a `contentCondition` or a dynamic message are not modelled either: the model keeps the content missing there.
- JavaScript lists integer-like object keys before all others, in ascending numeric order. The model does not.
- DataBinding.Stats: the distribution keys are in first-occurrence order. In JavaScript, integer-like keys (for example the answers "1" to "5" of a scale) come first, in ascending order.
- Runtime.FirstBlockId: the first key of `config.blocks` is the head of the explicit key order, with the same caveat about integer-like keys.
- Names that are properties of every JavaScript object (such as "constructor" or "toString") are treated as absent keys wherever the source indexes a plain object with them. A metric name makes `mapping[name] || name` return a function; the model treats it as an unknown name. A template variable name makes `{{#if constructor}}` truthy and `{{constructor}}` print a function's source text (runtime-engine.ts:591-600); the model reads it as unset. An answer value makes `distribution[value] || 0` at data-binding.js:64 concatenate a string instead of counting 1; the model counts it like any other key. A `connection_type` makes `formatted.content[variables.connection_type]` (runtime-engine.ts:616-618) pick the inherited function, on which `replaceVariables` throws a TypeError; the model reads the entry as absent. A block id makes `config.blocks[id]` pick the inherited function. This happens at runtime-engine.ts:119, 160, 293, 350, 440, 496, 510 and 738, and the model treats the id as an unknown block everywhere. The source does not always fail at those lookups: a `questionId` of "toString" is recorded in `completedBlocks` like any other id (runtime-engine.ts:346-348), and the function found at :350 has no `variable` or `options`; the history build then finds the function at :738, passes the `if (!block)` test at :739, and `formatQuestionForClient` throws a SyntaxError from `JSON.parse(JSON.stringify(fn))` (:745, :586), so every later `getSessionState` of that session fails. A `next` naming such a property makes `submitAnswer` throw in the same way at :496 or :510, after the answer has been saved. Runtime.HistoryEntry skips such an id instead. Runtime.NextQuestion moves to such a `next` and returns no question, as it does for any id missing from the blocks.
- Dashboard.BindAllWidgets: a Dafny map has no insertion order, so the order of the JavaScript `Map` is not captured; the map's contents and its last-id-wins rule are.
- Dashboard.BindAllWidgets: a truthy `widgets` that is not a list, which `for … of` would iterate or reject, is not modelled. `widgets` is either absent or a list.
- Dashboard.ValidateConfig: issues keep their `field` and `widgetId`. Their message texts, which only format titles and ids, are left out.
- `getNextQuestion` has no cycle guard. Its recursion is bounded by a hop limit of twice the number of blocks plus two. Running out of hops is the error "Maximum call stack size exceeded", which the source raises only at its real stack depth. Runtime.OverflowIsForever shows the limit loses nothing: a chain still going at the limit has entered a cycle and would recurse forever.
- After such an overflow the state is left unspecified apart from the response id. The source would have moved `currentBlockId` part way.
- Branching.EvaluateNestedFormat: a `null` nested `else` is read as an absent one and gives null. The source throws a TypeError at `'if' in null` there.
- Branching.Evaluate: a condition that is truthy but not an object (a boolean, number or string) makes the source throw a TypeError at `'lt' in condition` (branching.js:43). Such conditions arise as `showIf: true` or `showIf: "consent"` (runtime-engine.ts:497-498), a `conditionalContent` condition string other than "default" (runtime-engine.ts:632), `not: true` or `not: "x"` (branching.js:106-107), and a non-object item inside `or`/`and` (branching.js:110, 113). The model reads every such condition as the empty condition `NoCondition`. It is then false, `Not(NoCondition)` is true, and `NextQuestion` skips a block whose `showIf` the source would reject with an error.
- Branching.Evaluate: the `equals` test under `condition.variable` is unreachable, because a present `equals` key is handled earlier, so it is not modelled separately.
- The persistence implementation (a database), the `metadata`/`tracking` fields and the answer timestamps are left out. Persistence is a class holding the stored rows by session id, each with its answer log in stored order.
- Engine.RuntimeEngine.SubmitAnswer: the engine has no class-wide invariant that every cached runtime session replays its stored row. The replay property is stated per call: it holds after `StartRuntime` and after a reconstruction, and `SubmitAnswer` preserves it for a session that had it.
- Engine.RuntimeEngine.CompleteSession: the same applies here. A cached runtime session completes its own row when it replays that row.
- Survey.OptionText: for a matched single-choice option without a label, `formatAnswerForDisplay` returns the raw `option.value` (runtime-engine.ts:673), so a numeric or boolean value reaches the history with its own JSON type. The model returns its string, `ToJsString(value)`; only the JSON type of the history's `answer` differs.
- Charts.ChartableQuestions: states which blocks are kept, and how many times. It does not state that `filter` keeps them in block-map order, though the definition does.
- Charts.SortDescSorts: states that the sort is a permutation in descending order. It does not state that it is stable (ties keep option order), though the definition inserts so that it is.
- JsValues.Stringify: an object value with a repeated key prints every field. `JSON.stringify` never sees a repeated key: a JavaScript object holds each key once, at its first position, with its last value. The model takes parsed answers and configuration as already-built values and does not merge repeated keys; Get reads the last field for a key.
- React components, API routes, `formatNumber`, `createDashboardEngine` and the configuration schema are not part of this model.
