/**
 * Template substitution of question text (`replaceVariables` inside
 * `formatQuestionForClient`): three global, left-to-right passes,
 *   1. `{{#if V}}A{{else}}B{{/if}}`  -> A when V is truthy, else B
 *   2. `{{#if V}}A{{/if}}`           -> A when V is truthy, else ""
 *   3. `{{V}}`                       -> String(V), "" when V is unset or null
 * where V is a run of word characters and A, B stop at the first closing
 * marker (the lazy groups of the patterns). Each pass scans the text once
 * and never rescans what it substituted.
 */
module Templates {
  import opened JsValues
  import opened Branching

  const IfOpen := "{{#if "
  const Close := "}}"
  const ElseMarker := "{{else}}"
  const EndIf := "{{/if}}"
  const Open := "{{"

  /** `\w` */
  predicate IsWordChar(c: char)
  {
    ('a' <= c <= 'z') || ('A' <= c <= 'Z') || ('0' <= c <= '9') || c == '_'
  }

  predicate IsWord(s: string)
  {
    |s| > 0 && forall i :: 0 <= i < |s| ==> IsWordChar(s[i])
  }

  /** The length of the longest prefix of word characters. */
  function WordLen(s: string): (n: nat)
    ensures n <= |s|
  {
    if s == [] || !IsWordChar(s[0]) then 0 else 1 + WordLen(s[1..])
  }

  /** `WordLen` measures the longest run of word characters at the start. */
  lemma {:induction false} WordLenIsLongestRun(s: string)
    ensures forall i :: 0 <= i < WordLen(s) ==> IsWordChar(s[i])
    ensures WordLen(s) < |s| ==> !IsWordChar(s[WordLen(s)])
    decreases |s|
  {
    if s != [] && IsWordChar(s[0]) {
      WordLenIsLongestRun(s[1..]);
    }
  }

  /** `s` begins with `prefix`. */
  predicate StartsWith(s: string, prefix: string)
  {
    |prefix| <= |s| && s[..|prefix|] == prefix
  }

  /** The first position at which `needle` occurs in `hay`. */
  function Find(hay: string, needle: string): (r: Option<nat>)
    ensures r.Some? ==> r.value + |needle| <= |hay|
  {
    FindFrom(hay, needle, 0)
  }

  /** The first position at or after `i` at which `needle` occurs in `hay`. */
  function FindFrom(hay: string, needle: string, i: nat): (r: Option<nat>)
    requires i <= |hay|
    ensures r.Some? ==> i <= r.value && r.value + |needle| <= |hay|
    decreases |hay| - i
  {
    if i + |needle| <= |hay| && hay[i..i + |needle|] == needle then Some(i)
    else if i == |hay| then None
    else FindFrom(hay, needle, i + 1)
  }

  /** `Find` returns the first occurrence, and None only when there is none. */
  lemma FindIsFirst(hay: string, needle: string)
    ensures Find(hay, needle).Some? ==>
              var k := Find(hay, needle).value;
              StartsWith(hay[k..], needle) && forall j :: 0 <= j < k ==> !StartsWith(hay[j..], needle)
    ensures Find(hay, needle).None? ==> forall j :: 0 <= j <= |hay| ==> !StartsWith(hay[j..], needle)
  {
    FindFromIsFirst(hay, needle, 0);
  }

  lemma {:induction false} FindFromIsFirst(hay: string, needle: string, i: nat)
    requires i <= |hay|
    ensures FindFrom(hay, needle, i).Some? ==>
              var k := FindFrom(hay, needle, i).value;
              StartsWith(hay[k..], needle) && forall j :: i <= j < k ==> !StartsWith(hay[j..], needle)
    ensures FindFrom(hay, needle, i).None? ==> forall j :: i <= j <= |hay| ==> !StartsWith(hay[j..], needle)
    decreases |hay| - i
  {
    assert StartsWith(hay[i..], needle) <==> i + |needle| <= |hay| && hay[i..i + |needle|] == needle by {
      if i + |needle| <= |hay| {
        assert hay[i..][..|needle|] == hay[i..i + |needle|];
      }
    }
    if i < |hay| && !StartsWith(hay[i..], needle) {
      FindFromIsFirst(hay, needle, i + 1);
    }
  }

  /** A match of one pattern at the start of the text: the variable, the text chosen from, and the length. */
  datatype Match = Match(name: string, whenSet: string, whenUnset: string, length: nat)

  /** The name of a `{{#if NAME}}` header at the start of `s`, with the header's length. */
  function IfHeader(s: string): (r: Option<(string, nat)>)
    ensures r.Some? ==> r.value.1 <= |s|
  {
    if !StartsWith(s, IfOpen) then None
    else
      var rest := s[|IfOpen|..];
      var k := WordLen(rest);
      if k == 0 || !StartsWith(rest[k..], Close) then None
      else
        Some((rest[..k], |IfOpen| + k + |Close|))
  }

  /** The text before the first `marker` (a lazy group), with the length up to the end of the marker. */
  function UpTo(s: string, marker: string): (r: Option<(string, nat)>)
    ensures r.Some? ==> r.value.1 <= |s|
  {
    match Find(s, marker)
    case None => None
    case Some(e) => Some((s[..e], e + |marker|))
  }

  /** Pattern 1 at the start of `s`. */
  function MatchIfElse(s: string): (m: Option<Match>)
    ensures m.Some? ==> 0 < m.value.length <= |s|
  {
    match IfHeader(s)
    case None => None
    case Some((name, h)) =>
      match UpTo(s[h..], ElseMarker)
      case None => None
      case Some((whenSet, e)) =>
        match UpTo(s[h + e..], EndIf)
        case None => None
        case Some((whenUnset, f)) => Some(Match(name, whenSet, whenUnset, h + e + f))
  }

  /** Pattern 2 at the start of `s`. */
  function MatchIf(s: string): (m: Option<Match>)
    ensures m.Some? ==> 0 < m.value.length <= |s|
  {
    match IfHeader(s)
    case None => None
    case Some((name, h)) =>
      match UpTo(s[h..], EndIf)
      case None => None
      case Some((whenSet, f)) => Some(Match(name, whenSet, "", h + f))
  }

  /** Pattern 3 at the start of `s`. */
  function MatchVariable(s: string): (m: Option<Match>)
    ensures m.Some? ==> 0 < m.value.length <= |s|
  {
    if !StartsWith(s, Open) then None
    else
      var rest := s[|Open|..];
      var k := WordLen(rest);
      if k == 0 || !StartsWith(rest[k..], Close) then None
      else Some(Match(rest[..k], "", "", |Open| + k + |Close|))
  }

  /** `variables[V] ? A : B` */
  function Choose(vars: Variables, m: Match): string
  {
    if TruthyOpt(Lookup(vars, m.name)) then m.whenSet else m.whenUnset
  }

  /** `String(variables[V] ?? "")` */
  function Display(vars: Variables, name: string): string
  {
    if name in vars && !vars[name].VNull? then ToJsString(vars[name]) else ""
  }

  /** The three patterns, in the order they are applied. */
  datatype Pattern = IfElsePattern | IfPattern | VariablePattern

  /** A match of `pattern` at the start of `s`. */
  function MatchAt(pattern: Pattern, s: string): (m: Option<Match>)
    ensures m.Some? ==> 0 < m.value.length <= |s|
  {
    match pattern
    case IfElsePattern => MatchIfElse(s)
    case IfPattern => MatchIf(s)
    case VariablePattern => MatchVariable(s)
  }

  /** What a match is replaced by. */
  function Replacement(pattern: Pattern, vars: Variables, m: Match): string
  {
    if pattern == VariablePattern then Display(vars, m.name) else Choose(vars, m)
  }

  /**
   * `text.replace(/pattern/g, ...)` : one left-to-right scan. No match can
   * start at a character other than `{`, so such a character is copied.
   */
  function Pass(pattern: Pattern, s: string, vars: Variables): string
    decreases |s|, 1
  {
    if s == [] then []
    else if s[0] != '{' then [s[0]] + Pass(pattern, s[1..], vars)
    else Braced(pattern, s, vars)
  }

  /** The scan at a `{`: replace the match there, or copy the `{` and go on. */
  function Braced(pattern: Pattern, s: string, vars: Variables): string
    requires s != []
    decreases |s|, 0
  {
    match MatchAt(pattern, s)
    case Some(m) => Replacement(pattern, vars, m) + Pass(pattern, s[m.length..], vars)
    case None => [s[0]] + Pass(pattern, s[1..], vars)
  }

  /** `replaceVariables(text)` */
  function Render(s: string, vars: Variables): string
  {
    Pass(VariablePattern, Pass(IfPattern, Pass(IfElsePattern, s, vars), vars), vars)
  }

  // ---------------------------------------------------------------------
  // Properties

  /** Text without a `{` character. */
  predicate Plain(s: string)
  {
    '{' !in s
  }

  /** A pass copies text that holds no `{` unchanged. */
  lemma PassPlain(pattern: Pattern, s: string, vars: Variables)
    requires Plain(s)
    ensures Pass(pattern, s, vars) == s
  {
    PassAfterPlain(pattern, s, "", vars);
    assert s + "" == s;
  }

  /** A pass copies plain text in front of whatever follows it, wherever that text stands. */
  lemma {:induction false} PassAfterPlain(pattern: Pattern, p: string, x: string, vars: Variables)
    requires Plain(p)
    ensures Pass(pattern, p + x, vars) == p + Pass(pattern, x, vars)
    decreases |p|
  {
    if p == [] {
      assert p + x == x;
    } else {
      var s := p + x;
      assert s[0] == p[0] && s[1..] == p[1..] + x;
      PassAfterPlain(pattern, p[1..], x, vars);
      assert [p[0]] + (p[1..] + Pass(pattern, x, vars)) == p + Pass(pattern, x, vars);
    }
  }

  lemma NoMatchAtPlainChar(s: string)
    requires s != [] && s[0] != '{'
    ensures MatchIfElse(s) == None && MatchIf(s) == None && MatchVariable(s) == None
  {
    assert !StartsWith(s, IfOpen) by { assert s[0] != IfOpen[0]; }
    assert !StartsWith(s, Open) by { assert s[0] != Open[0]; }
  }

  /** Rendering leaves text without placeholders as it is. */
  lemma RenderPlain(s: string, vars: Variables)
    requires Plain(s)
    ensures Render(s, vars) == s
  {
    PassPlain(IfElsePattern, s, vars);
    PassPlain(IfPattern, s, vars);
    PassPlain(VariablePattern, s, vars);
  }

  /** The first `marker` after text without `{` is the one right after that text. */
  lemma UpToPlain(p: string, marker: string, rest: string)
    requires Plain(p) && |marker| > 0 && marker[0] == '{'
    ensures UpTo(p + marker + rest, marker) == Some((p, |p| + |marker|))
    ensures (p + marker + rest)[|p| + |marker|..] == rest
  {
    FindAfterPlain(p, marker, rest);
    assert (p + marker + rest)[..|p|] == p;
  }

  lemma FindAfterPlain(p: string, needle: string, rest: string)
    requires Plain(p) && |needle| > 0 && needle[0] == '{'
    ensures Find(p + needle + rest, needle) == Some(|p|)
  {
    var hay := p + needle + rest;
    assert hay[|p|..|p| + |needle|] == needle;
    SkipPlain(p, needle, rest, 0);
  }

  lemma {:induction false} SkipPlain(p: string, needle: string, rest: string, i: nat)
    requires Plain(p) && |needle| > 0 && needle[0] == '{' && i <= |p|
    requires (p + needle + rest)[|p|..|p| + |needle|] == needle
    ensures FindFrom(p + needle + rest, needle, i) == Some(|p|)
    decreases |p| - i
  {
    var hay := p + needle + rest;
    if i < |p| {
      assert hay[i] == p[i];
      assert hay[i..i + |needle|][0] == hay[i];
      SkipPlain(p, needle, rest, i + 1);
    }
  }

  /** An opening marker, a word and `}}`: the header patterns take exactly the word. */
  lemma HeaderParts(open: string, name: string, more: string)
    requires IsWord(name)
    ensures StartsWith(open + name + Close + more, open)
    ensures var rest := (open + name + Close + more)[|open|..];
            WordLen(rest) == |name| && rest[..|name|] == name && StartsWith(rest[|name|..], Close)
    ensures (open + name + Close + more)[|open| + |name| + |Close|..] == more
  {
    var s := open + name + Close + more;
    var rest := s[|open|..];
    assert s[..|open|] == open;
    assert rest == name + (Close + more);
    assert (Close + more)[0] == '}';
    WordLenOfWord(name, Close + more);
    assert rest[..|name|] == name;
    assert rest[|name|..] == Close + more;
    assert (Close + more)[..|Close|] == Close;
  }

  lemma {:induction false} WordLenOfWord(name: string, rest: string)
    requires IsWord(name) && (rest == [] || !IsWordChar(rest[0]))
    ensures WordLen(name + rest) == |name|
    decreases |name|
  {
    var s := name + rest;
    assert s[1..] == name[1..] + rest;
    if |name| > 1 {
      WordLenOfWord(name[1..], rest);
    } else {
      assert s[1..] == rest;
    }
  }

  /** Pass 3 replaces one `{{V}}` by the variable's text and carries on after it. */
  lemma VariablePlaceholder(name: string, rest: string, vars: Variables)
    requires IsWord(name)
    ensures Pass(VariablePattern, Open + name + Close + rest, vars) == Display(vars, name) + Pass(VariablePattern, rest, vars)
  {
    var s := Open + name + Close + rest;
    HeaderParts(Open, name, rest);
    assert s[0] == '{' && s[..0] == [];
    assert MatchVariable(s) == Some(Match(name, "", "", |Open| + |name| + |Close|));
  }

  lemma IfHeaderOf(name: string, more: string)
    requires IsWord(name)
    ensures IfHeader(IfOpen + name + Close + more) == Some((name, |IfOpen| + |name| + |Close|))
    ensures (IfOpen + name + Close + more)[|IfOpen| + |name| + |Close|..] == more
  {
    HeaderParts(IfOpen, name, more);
  }

  lemma MatchIfElseOf(name: string, a: string, b: string, rest: string)
    requires IsWord(name) && Plain(a) && Plain(b)
    ensures var s := IfOpen + name + Close + (a + ElseMarker + (b + EndIf + rest));
            var len := |IfOpen| + |name| + |Close| + |a| + |ElseMarker| + |b| + |EndIf|;
            MatchIfElse(s) == Some(Match(name, a, b, len)) && s[len..] == rest
  {
    var tail := b + EndIf + rest;
    var body := a + ElseMarker + tail;
    var s := IfOpen + name + Close + body;
    var h := |IfOpen| + |name| + |Close|;
    IfHeaderOf(name, body);
    DropPrefix(IfOpen + name + Close, body);
    assert a + ElseMarker + tail == body;
    UpToAt(s, h, a, ElseMarker, tail);
    UpToAt(s, h + |a| + |ElseMarker|, b, EndIf, rest);
    MatchIfElseParts(s, name, h, a, |a| + |ElseMarker|, b, |b| + |EndIf|);
  }

  /** What follows a prefix. */
  lemma DropPrefix(p: string, x: string)
    ensures (p + x)[|p|..] == x
  {
  }

  /** The text from `h` on is `p`, a marker, and `rest`. */
  lemma UpToAt(s: string, h: nat, p: string, marker: string, rest: string)
    requires h <= |s| && s[h..] == p + marker + rest
    requires Plain(p) && |marker| > 0 && marker[0] == '{'
    ensures UpTo(s[h..], marker) == Some((p, |p| + |marker|))
    ensures s[h + |p| + |marker|..] == rest
  {
    UpToPlain(p, marker, rest);
    SliceOfSlice(s, h, |p| + |marker|);
  }

  /** Pattern 1 from its three parts: the header, the text up to `{{else}}`, the text up to `{{/if}}`. */
  lemma MatchIfElseParts(s: string, name: string, h: nat, a: string, e: nat, b: string, f: nat)
    requires IfHeader(s) == Some((name, h))
    requires UpTo(s[h..], ElseMarker) == Some((a, e))
    requires UpTo(s[h + e..], EndIf) == Some((b, f))
    ensures MatchIfElse(s) == Some(Match(name, a, b, h + e + f))
  {
  }

  lemma MatchIfOf(name: string, a: string, rest: string)
    requires IsWord(name) && Plain(a)
    ensures var s := IfOpen + name + Close + (a + EndIf + rest);
            var len := |IfOpen| + |name| + |Close| + |a| + |EndIf|;
            MatchIf(s) == Some(Match(name, a, "", len)) && s[len..] == rest
  {
    var body := a + EndIf + rest;
    var s := IfOpen + name + Close + body;
    var h := |IfOpen| + |name| + |Close|;
    IfHeaderOf(name, body);
    UpToPlain(a, EndIf, rest);
    SliceOfSlice(s, h, |a| + |EndIf|);
  }

  lemma SliceOfSlice(s: string, i: nat, j: nat)
    requires i + j <= |s|
    ensures s[i..][j..] == s[i + j..]
  {
  }

  /**
   * Pass 1 replaces one `{{#if V}}A{{else}}B{{/if}}` by A or B, as V is
   * truthy, and carries on after it.
   */
  lemma IfElsePlaceholder(name: string, a: string, b: string, rest: string, vars: Variables)
    requires IsWord(name) && Plain(a) && Plain(b)
    ensures Pass(IfElsePattern, IfOpen + name + Close + a + ElseMarker + b + EndIf + rest, vars)
         == (if TruthyOpt(Lookup(vars, name)) then a else b) + Pass(IfElsePattern, rest, vars)
  {
    var s := IfOpen + name + Close + (a + ElseMarker + (b + EndIf + rest));
    assert IfOpen + name + Close + a + ElseMarker + b + EndIf + rest == s;
    MatchIfElseOf(name, a, b, rest);
    assert s[0] == '{' && s[..0] == [];
  }

  /** Pass 2 replaces one `{{#if V}}A{{/if}}` by A or by nothing, as V is truthy. */
  lemma IfPlaceholder(name: string, a: string, rest: string, vars: Variables)
    requires IsWord(name) && Plain(a)
    ensures Pass(IfPattern, IfOpen + name + Close + a + EndIf + rest, vars)
         == (if TruthyOpt(Lookup(vars, name)) then a else "") + Pass(IfPattern, rest, vars)
  {
    var s := IfOpen + name + Close + (a + EndIf + rest);
    assert IfOpen + name + Close + a + EndIf + rest == s;
    MatchIfOf(name, a, rest);
    assert s[0] == '{' && s[..0] == [];
  }

  /** At a `{` where the pattern does not match, the pass copies the `{` and goes on. */
  lemma PassAtUnmatchedBrace(pattern: Pattern, s: string, vars: Variables)
    requires s != [] && s[0] == '{' && MatchAt(pattern, s).None?
    ensures Pass(pattern, s, vars) == "{" + Pass(pattern, s[1..], vars)
  {
    assert s[..0] == [] && s[0..] == s;
  }

  /** Neither `{{#if` pattern matches where the text does not start with `{{#if `. */
  lemma NoIfMatch(pattern: Pattern, s: string)
    requires pattern != VariablePattern && !StartsWith(s, IfOpen)
    ensures MatchAt(pattern, s).None?
  {
  }

  /** The `{{#if` passes copy a `{{` that does not open `{{#if `. */
  lemma IfPassesKeepBraces(pattern: Pattern, x: string, vars: Variables)
    requires pattern != VariablePattern && x != [] && x[0] != '#' && x[0] != '{'
    ensures Pass(pattern, "{{" + x, vars) == "{{" + Pass(pattern, x, vars)
  {
    var u := "{" + x;
    var s := "{" + u;
    assert "{{" + x == s;
    assert !StartsWith(s, IfOpen) by {
      assert |s| < |IfOpen| || s[..|IfOpen|][2] != IfOpen[2];
    }
    NoIfMatch(pattern, s);
    PassAtUnmatchedBrace(pattern, s, vars);
    assert s[1..] == u;
    assert !StartsWith(u, IfOpen) by {
      assert |u| < |IfOpen| || u[..|IfOpen|][1] != IfOpen[1];
    }
  }

  /** A word followed by `}}` holds no `{`. */
  lemma WordClosePlain(name: string)
    requires IsWord(name)
    ensures Plain(name + Close)
  {
    var t := name + Close;
    forall j | 0 <= j < |t| ensures t[j] != '{' {
      if j < |name| { assert IsWordChar(name[j]); }
    }
  }

  /** The two `{{#if` passes leave a `{{V}}` placeholder where it is. */
  lemma IfPassesKeepVariable(pattern: Pattern, name: string, rest: string, vars: Variables)
    requires pattern != VariablePattern && IsWord(name)
    ensures Pass(pattern, Open + name + Close + rest, vars) == Open + name + Close + Pass(pattern, rest, vars)
  {
    var t := name + Close;
    VariableRegrouped(name, rest);
    VariableRegrouped(name, Pass(pattern, rest, vars));
    assert IsWordChar(name[0]) && t[0] == name[0];
    WordClosePlain(name);
    IfPassesKeepPlain(pattern, t, rest, vars);
  }

  /** `{{V}}` followed by `r`, read as `{{` followed by `V}}` and `r`. */
  lemma VariableRegrouped(name: string, r: string)
    ensures Open + name + Close + r == "{{" + (name + Close + r)
  {
  }

  /** The `{{#if` passes copy `{{` and the plain text after it that does not open `{{#if `. */
  lemma IfPassesKeepPlain(pattern: Pattern, t: string, rest: string, vars: Variables)
    requires pattern != VariablePattern && Plain(t) && t != [] && t[0] != '#'
    ensures Pass(pattern, "{{" + (t + rest), vars) == "{{" + (t + Pass(pattern, rest, vars))
  {
    assert (t + rest)[0] == t[0];
    IfPassesKeepBraces(pattern, t + rest, vars);
    PassAfterPlain(pattern, t, rest, vars);
  }

  /**
   * `replaceVariables` on a text holding one `{{V}}` between plain texts:
   * the placeholder becomes the variable's text and the rest is kept.
   */
  lemma RenderVariable(p: string, name: string, q: string, vars: Variables)
    requires Plain(p) && IsWord(name) && Plain(q)
    ensures Render(p + Open + name + Close + q, vars) == p + Display(vars, name) + q
  {
    var v := Open + name + Close;
    assert p + Open + name + Close + q == p + (v + q);
    assert v + q == Open + name + Close + q;
    PassAfterPlain(IfElsePattern, p, v + q, vars);
    IfPassesKeepVariable(IfElsePattern, name, q, vars);
    PassPlain(IfElsePattern, q, vars);
    PassAfterPlain(IfPattern, p, v + q, vars);
    IfPassesKeepVariable(IfPattern, name, q, vars);
    PassPlain(IfPattern, q, vars);
    PassAfterPlain(VariablePattern, p, v + q, vars);
    VariablePlaceholder(name, q, vars);
    PassPlain(VariablePattern, q, vars);
  }

  /**
   * `replaceVariables` on a text holding one `{{#if V}}A{{else}}B{{/if}}`
   * between plain texts: the block becomes A or B, as V is truthy.
   */
  lemma RenderIfElse(p: string, name: string, a: string, b: string, q: string, vars: Variables)
    requires Plain(p) && IsWord(name) && Plain(a) && Plain(b) && Plain(q)
    ensures Render(p + IfOpen + name + Close + a + ElseMarker + b + EndIf + q, vars)
         == p + (if TruthyOpt(Lookup(vars, name)) then a else b) + q
  {
    var block := IfOpen + name + Close + a + ElseMarker + b + EndIf;
    var chosen := if TruthyOpt(Lookup(vars, name)) then a else b;
    assert p + IfOpen + name + Close + a + ElseMarker + b + EndIf + q == p + (block + q);
    PassAfterPlain(IfElsePattern, p, block + q, vars);
    IfElsePlaceholder(name, a, b, q, vars);
    PassPlain(IfElsePattern, q, vars);
    var after := p + chosen + q;
    assert Pass(IfElsePattern, p + (block + q), vars) == after;
    assert Plain(after) by {
      forall j | 0 <= j < |after| ensures after[j] != '{' {
        if j < |p| { assert after[j] == p[j]; }
        else if j < |p| + |chosen| { assert after[j] == chosen[j - |p|]; }
        else { assert after[j] == q[j - |p| - |chosen|]; }
      }
    }
    PassPlain(IfPattern, after, vars);
    PassPlain(VariablePattern, after, vars);
  }
}
