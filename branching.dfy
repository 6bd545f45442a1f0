/**
 * Branch conditions and conditional routing (`evaluateCondition`,
 * `evaluateConditionalNext` and its list and nested forms).
 */
module Branching {
  import opened JsValues

  /**
   * A condition object. Each field is one optional key of the object; which
   * keys are present decides which clause applies (lt, gt, equals, in, the
   * variable-keyed clauses, not, or, and). A null or unrecognised condition
   * is the condition with no keys at all; so is a truthy condition that is
   * not an object, on which the source throws a TypeError instead.
   */
  datatype Condition = Condition(
    variable: Option<string>,
    lt: Option<Value>,
    gt: Option<Value>,
    lessThan: Option<Value>,
    greaterThan: Option<Value>,
    equals: Option<Value>,
    within: Option<Value>,      // the `in` key
    contains: Option<Value>,
    negated: Option<Condition>, // the `not` key, when truthy
    anyOf: Junction,            // the `or` key, when an array
    allOf: Junction)            // the `and` key, when an array

  /** The array of an `or` or `and` key, or no such key. */
  datatype Junction = Absent | Present(items: seq<Condition>)

  const NoCondition := Condition(None, None, None, None, None, None, None, None, None, Absent, Absent)

  function Not(c: Condition): Condition { NoCondition.(negated := Some(c)) }
  function Or(cs: seq<Condition>): Condition { NoCondition.(anyOf := Present(cs)) }
  function And(cs: seq<Condition>): Condition { NoCondition.(allOf := Present(cs)) }

  type Variables = map<string, Value>

  /** `variables[name]` : None is `undefined`. */
  function Lookup(vars: Variables, name: string): Option<Value>
  {
    if name in vars then Some(vars[name]) else None
  }

  /** A truthy variable name: a present, non-empty string. */
  predicate NamePresent(name: Option<string>)
  {
    name.Some? && name.value != ""
  }

  /** `condition.variable || fallbackVariable`, None when that is falsy. */
  function ResolvedVariable(c: Condition, fallback: Option<string>): (r: Option<string>)
    ensures NamePresent(c.variable) ==> r == c.variable
    ensures r.Some? ==> r.value != ""
  {
    if NamePresent(c.variable) then c.variable
    else if NamePresent(fallback) then fallback
    else None
  }

  /** `value !== undefined && Number(value) < Number(bound)` (NaN compares false). */
  predicate NumLess(value: Option<Value>, bound: Value)
  {
    value.Some? && ToNumber(value.value).Some? && ToNumber(bound).Some? &&
    ToNumber(value.value).value < ToNumber(bound).value
  }

  predicate NumGreater(value: Option<Value>, bound: Value)
  {
    value.Some? && ToNumber(value.value).Some? && ToNumber(bound).Some? &&
    ToNumber(value.value).value > ToNumber(bound).value
  }

  /**
   * The `equals` clause: two lists are equal when they have the same length
   * and every target element occurs in the stored list; otherwise `===`.
   */
  predicate EqualsTest(value: Option<Value>, target: Value)
  {
    if target.VList? && value.Some? && value.value.VList? then
      |target.items| == |value.value.items| &&
      forall k :: 0 <= k < |target.items| ==> Includes(value.value.items, target.items[k])
    else
      value.Some? && StrictEq(value.value, target)
  }

  /** The allowed values of an `in` clause: a scalar stands for a singleton. */
  function AllowedValues(allowed: Value): seq<Value>
  {
    if allowed.VList? then allowed.items else [allowed]
  }

  /** The `in` clause: a stored list matches when any of its elements is allowed. */
  predicate InTest(value: Option<Value>, allowed: Value)
  {
    if value.Some? && value.value.VList? then
      exists k :: 0 <= k < |value.value.items| && Includes(AllowedValues(allowed), value.value.items[k])
    else
      value.Some? && Includes(AllowedValues(allowed), value.value)
  }

  predicate IsSubstring(needle: string, hay: string)
  {
    exists i :: 0 <= i <= |hay| && needle <= hay[i..]
  }

  /** The `contains` clause: list membership, or a substring test on a string. */
  predicate ContainsTest(value: Option<Value>, needle: Value)
  {
    value.Some? &&
    match value.value
    case VList(xs) => Includes(xs, needle)
    case VStr(s) => IsSubstring(ToJsString(needle), s)
    case _ => false
  }

  /** Whether one of the clauses that need `condition.variable` applies. */
  predicate HasVariableClause(c: Condition)
  {
    NamePresent(c.variable) && (c.lessThan.Some? || c.greaterThan.Some? || c.contains.Some?)
  }

  /** `evaluateCondition(condition, variables, fallbackVariable)` */
  predicate Evaluate(c: Condition, vars: Variables, fallback: Option<string>)
    decreases c
  {
    if c.lt.Some? then
      var name := ResolvedVariable(c, fallback);
      name.Some? && NumLess(Lookup(vars, name.value), c.lt.value)
    else if c.gt.Some? then
      var name := ResolvedVariable(c, fallback);
      name.Some? && NumGreater(Lookup(vars, name.value), c.gt.value)
    else if c.equals.Some? then
      var name := ResolvedVariable(c, fallback);
      name.Some? && EqualsTest(Lookup(vars, name.value), c.equals.value)
    else if c.within.Some? then
      var name := ResolvedVariable(c, fallback);
      name.Some? && InTest(Lookup(vars, name.value), c.within.value)
    else if HasVariableClause(c) then
      var value := Lookup(vars, c.variable.value);
      if c.lessThan.Some? then NumLess(value, c.lessThan.value)
      else if c.greaterThan.Some? then NumGreater(value, c.greaterThan.value)
      else ContainsTest(value, c.contains.value)
    else if c.negated.Some? then
      !Evaluate(c.negated.value, vars, fallback)
    else if c.anyOf.Present? then
      exists i :: 0 <= i < |c.anyOf.items| && Evaluate(c.anyOf.items[i], vars, fallback)
    else if c.allOf.Present? then
      forall i :: 0 <= i < |c.allOf.items| ==> Evaluate(c.allOf.items[i], vars, fallback)
    else
      false
  }

  // ---------------------------------------------------------------------
  // Conditional routing

  /** One rule of the list form: `{ when, goto }`. */
  datatype Rule = Rule(when: Condition, goto: Option<string>)

  /** The nested form `{ if, then, else }`. */
  datatype Nested = Nested(guard: Condition, thenId: Option<string>, otherwise: Else)

  /** `else` of the nested form: a target id (or absent), or another nested form. */
  datatype Else = ElseTarget(target: Option<string>) | ElseIf(next: Nested)

  /**
   * A routing object: `if` is an array of rules, `if` is an object, or `if`
   * is anything else.
   */
  datatype Routing =
    | RuleList(rules: seq<Rule>, fallback: Option<string>)
    | NestedIf(nested: Nested)
    | Unrecognised

  /**
   * The index of the first rule whose condition holds: the early-return
   * search of `evaluateArrayFormat`.
   */
  function FirstMatch(rules: seq<Rule>, vars: Variables, fallback: Option<string>): (r: Option<nat>)
    ensures r.Some? ==> r.value < |rules| && Evaluate(rules[r.value].when, vars, fallback) &&
                        forall j :: 0 <= j < r.value ==> !Evaluate(rules[j].when, vars, fallback)
    ensures r.None? ==> forall j :: 0 <= j < |rules| ==> !Evaluate(rules[j].when, vars, fallback)
  {
    if rules == [] then None
    else if Evaluate(rules[0].when, vars, fallback) then Some(0)
    else
      var rest := FirstMatch(rules[1..], vars, fallback);
      if rest.Some? then Some(rest.value + 1) else None
  }

  /** `x || null` on an optional string: "" is falsy. */
  function OrNull(x: Option<string>): (r: Option<string>)
    ensures r.Some? <==> x.Some? && x.value != ""
    ensures r.Some? ==> r == x
  {
    if x.Some? && x.value != "" then x else None
  }

  /**
   * `evaluateArrayFormat` : the `goto` of the first rule whose `when` holds,
   * else `else || null`.
   */
  function EvaluateArrayFormat(rules: seq<Rule>, elseId: Option<string>, vars: Variables, fallback: Option<string>): (r: Option<string>)
    ensures forall i | 0 <= i < |rules| && Evaluate(rules[i].when, vars, fallback) ::
              (forall j | 0 <= j < i :: !Evaluate(rules[j].when, vars, fallback)) ==> r == rules[i].goto
    ensures (forall j | 0 <= j < |rules| :: !Evaluate(rules[j].when, vars, fallback)) ==> r == OrNull(elseId)
  {
    var m := FirstMatch(rules, vars, fallback);
    if m.Some? then rules[m.value].goto else OrNull(elseId)
  }

  /**
   * `evaluateNestedFormat` : the `then` of the outer `if` when it holds,
   * else the nested form in `else`, else the `else` id itself.
   */
  function EvaluateNestedFormat(n: Nested, vars: Variables, fallback: Option<string>): (r: Option<string>)
    ensures Evaluate(n.guard, vars, fallback) ==> r == n.thenId
    ensures r == FinalElse(n) || exists i | 0 <= i < |Chain(n)| :: Evaluate(Chain(n)[i].guard, vars, fallback) && r == Chain(n)[i].thenId
    decreases n
  {
    if Evaluate(n.guard, vars, fallback) then
      assert Chain(n)[0] == n;
      n.thenId
    else match n.otherwise
      case ElseIf(inner) =>
        var r := EvaluateNestedFormat(inner, vars, fallback);
        assert FinalElse(n) == FinalElse(inner);
        if r == FinalElse(inner) then r
        else
          var i :| 0 <= i < |Chain(inner)| && Evaluate(Chain(inner)[i].guard, vars, fallback) && r == Chain(inner)[i].thenId;
          assert Chain(n)[i + 1] == Chain(inner)[i];
          r
      case ElseTarget(t) => t
  }

  /** `evaluateConditionalNext(nextOrConditional, variables, blockVariable)` */
  function EvaluateConditionalNext(routing: Option<Routing>, vars: Variables, blockVariable: Option<string>): (r: Option<string>)
    ensures r.Some? ==> routing.Some? && Names(routing.value, r.value)
  {
    match routing
    case None => None
    case Some(RuleList(rules, elseId)) => EvaluateArrayFormat(rules, elseId, vars, blockVariable)
    case Some(NestedIf(n)) => EvaluateNestedFormat(n, vars, blockVariable)
    case Some(Unrecognised) => None
  }

  /** Whether `id` is one of the targets a routing object spells out. */
  predicate Names(routing: Routing, id: string)
  {
    match routing
    case RuleList(rules, elseId) => elseId == Some(id) || exists i | 0 <= i < |rules| :: rules[i].goto == Some(id)
    case NestedIf(n) => FinalElse(n) == Some(id) || exists i | 0 <= i < |Chain(n)| :: Chain(n)[i].thenId == Some(id)
    case Unrecognised => false
  }

  // ---------------------------------------------------------------------
  // Properties

  /** The guards of a nested form, outermost first, and the id its last `else` names. */
  function Chain(n: Nested): seq<Nested>
    ensures |Chain(n)| > 0 && Chain(n)[0] == n
    decreases n
  {
    match n.otherwise
    case ElseTarget(_) => [n]
    case ElseIf(inner) => [n] + Chain(inner)
  }

  function FinalElse(n: Nested): Option<string>
    decreases n
  {
    match n.otherwise
    case ElseTarget(t) => t
    case ElseIf(inner) => FinalElse(inner)
  }

  /**
   * The nested form is a rule list in disguise: it answers with the `then`
   * of the first guard along its `else` chain that holds, and with the last
   * `else` when none holds.
   */
  lemma {:induction false} NestedIsFirstMatch(n: Nested, vars: Variables, fallback: Option<string>)
    ensures var ch := Chain(n);
            var rules := seq(|ch|, i requires 0 <= i < |ch| => Rule(ch[i].guard, ch[i].thenId));
            var m := FirstMatch(rules, vars, fallback);
            EvaluateNestedFormat(n, vars, fallback) == if m.Some? then rules[m.value].goto else FinalElse(n)
    decreases n
  {
    var ch := Chain(n);
    var rules := seq(|ch|, i requires 0 <= i < |ch| => Rule(ch[i].guard, ch[i].thenId));
    if !Evaluate(n.guard, vars, fallback) {
      match n.otherwise
      case ElseTarget(_) =>
      case ElseIf(inner) =>
        NestedIsFirstMatch(inner, vars, fallback);
        var ich := Chain(inner);
        var irules := seq(|ich|, i requires 0 <= i < |ich| => Rule(ich[i].guard, ich[i].thenId));
        assert rules[1..] == irules;
    }
  }

  /** `or` is "some", so the empty disjunction is false; `and` of nothing is true. */
  lemma EmptyJunctions(vars: Variables, fallback: Option<string>)
    ensures !Evaluate(Or([]), vars, fallback)
    ensures Evaluate(And([]), vars, fallback)
  {
  }

  /** De Morgan: `or` of conditions is the negation of `and` of their negations. */
  lemma DeMorgan(cs: seq<Condition>, vars: Variables, fallback: Option<string>)
    ensures Evaluate(Or(cs), vars, fallback) ==
            !Evaluate(And(seq(|cs|, i requires 0 <= i < |cs| => Not(cs[i]))), vars, fallback)
  {
    var negs := seq(|cs|, i requires 0 <= i < |cs| => Not(cs[i]));
    forall i | 0 <= i < |cs|
      ensures Evaluate(negs[i], vars, fallback) == !Evaluate(cs[i], vars, fallback)
    {
    }
  }

  /** The variables a condition may read (with the fallback variable). */
  function Reads(c: Condition, fallback: Option<string>): set<string>
    decreases c
  {
    (if c.variable.Some? then {c.variable.value} else {}) +
    (if fallback.Some? then {fallback.value} else {}) +
    (if c.negated.Some? then Reads(c.negated.value, fallback) else {}) +
    (if c.anyOf.Present? then (set i, x | 0 <= i < |c.anyOf.items| && x in Reads(c.anyOf.items[i], fallback) :: x) else {}) +
    (if c.allOf.Present? then (set i, x | 0 <= i < |c.allOf.items| && x in Reads(c.allOf.items[i], fallback) :: x) else {})
  }

  predicate AgreeOn(a: Variables, b: Variables, names: set<string>)
  {
    forall x :: x in names ==> Lookup(a, x) == Lookup(b, x)
  }

  /** A single clause reads only its own variable (or the fallback). */
  lemma ClauseReadsOnly(c: Condition, a: Variables, b: Variables, fallback: Option<string>)
    requires c.lt.Some? || c.gt.Some? || c.equals.Some? || c.within.Some? || HasVariableClause(c)
    requires AgreeOn(a, b, Reads(c, fallback))
    ensures Evaluate(c, a, fallback) == Evaluate(c, b, fallback)
  {
    var name := ResolvedVariable(c, fallback);
    if name.Some? {
      assert Lookup(a, name.value) == Lookup(b, name.value);
    }
  }

  /**
   * A condition reads only the variables it names: two variable bags that
   * agree on those give the same verdict (so a missing variable never
   * matters beyond making its own clause false).
   */
  lemma {:induction false} EvaluateReadsOnly(c: Condition, a: Variables, b: Variables, fallback: Option<string>)
    requires AgreeOn(a, b, Reads(c, fallback))
    ensures Evaluate(c, a, fallback) == Evaluate(c, b, fallback)
    decreases c
  {
    if c.lt.Some? || c.gt.Some? || c.equals.Some? || c.within.Some? || HasVariableClause(c) {
      ClauseReadsOnly(c, a, b, fallback);
    } else if c.negated.Some? {
      EvaluateReadsOnly(c.negated.value, a, b, fallback);
    } else if c.anyOf.Present? {
      var cs := c.anyOf.items;
      forall i | 0 <= i < |cs|
        ensures Evaluate(cs[i], a, fallback) == Evaluate(cs[i], b, fallback)
      {
        assert Reads(cs[i], fallback) <= Reads(c, fallback);
        EvaluateReadsOnly(cs[i], a, b, fallback);
      }
    } else if c.allOf.Present? {
      var cs := c.allOf.items;
      forall i | 0 <= i < |cs|
        ensures Evaluate(cs[i], a, fallback) == Evaluate(cs[i], b, fallback)
      {
        assert Reads(cs[i], fallback) <= Reads(c, fallback);
        EvaluateReadsOnly(cs[i], a, b, fallback);
      }
    }
  }

  /** A numeric or membership clause on a variable that is not set is false. */
  lemma MissingVariableIsFalse(c: Condition, vars: Variables, fallback: Option<string>)
    requires c.lt.Some? || c.gt.Some? || c.equals.Some? || c.within.Some?
    requires var name := ResolvedVariable(c, fallback); name.None? || name.value !in vars
    ensures !Evaluate(c, vars, fallback)
  {
  }

  /** For lists of primitives the `equals` clause ignores order: a reversed list is equal. */
  lemma EqualsIgnoresOrder(xs: seq<Value>, name: string, vars: Variables)
    requires forall k :: 0 <= k < |xs| ==> IsPrimitive(xs[k])
    requires name != "" && name in vars && vars[name] == VList(xs)
    ensures Evaluate(NoCondition.(variable := Some(name), equals := Some(VList(Reverse(xs)))), vars, None)
  {
    var r := Reverse(xs);
    forall k | 0 <= k < |r|
      ensures Includes(xs, r[k])
    {
      assert StrictEq(xs[|xs| - 1 - k], r[k]);
    }
  }

  function Reverse<T>(xs: seq<T>): (r: seq<T>)
    ensures |r| == |xs| && forall k :: 0 <= k < |xs| ==> r[k] == xs[|xs| - 1 - k]
  {
    seq(|xs|, k requires 0 <= k < |xs| => xs[|xs| - 1 - k])
  }
}
