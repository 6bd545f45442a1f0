/**
 * Dashboard theme resolution (`vendor/dashboard-engine/dist/theme-resolver.js`):
 * the default theme, filling a partial theme from the defaults, merging
 * themes right to left, and the colour check. A colour that is absent or
 * the empty string is falsy and never taken.
 */
module Themes {
  import opened JsValues

  /** The five colours of a theme. */
  datatype Field = Background | Card | Accent | Text | Border

  /** A theme as written in a config: any colour may be missing. */
  datatype PartialTheme = PartialTheme(
    backgroundColor: Option<string>,
    cardColor: Option<string>,
    accentColor: Option<string>,
    textColor: Option<string>,
    borderColor: Option<string>)

  /** A resolved theme: every colour present. */
  datatype Theme = Theme(backgroundColor: string, cardColor: string, accentColor: string, textColor: string, borderColor: string)

  /** `DEFAULT_THEME` */
  const DefaultTheme := Theme("#f8fafc", "#ffffff", "#10b981", "#1f2937", "#e5e7eb")

  /** `{}` */
  const NoColours := PartialTheme(None, None, None, None, None)

  function Get(p: PartialTheme, f: Field): Option<string>
  {
    match f
    case Background => p.backgroundColor
    case Card => p.cardColor
    case Accent => p.accentColor
    case Text => p.textColor
    case Border => p.borderColor
  }

  function Colour(t: Theme, f: Field): string
  {
    match f
    case Background => t.backgroundColor
    case Card => t.cardColor
    case Accent => t.accentColor
    case Text => t.textColor
    case Border => t.borderColor
  }

  /** The partial theme that sets every colour of `t`. */
  function Complete(t: Theme): PartialTheme
  {
    PartialTheme(Some(t.backgroundColor), Some(t.cardColor), Some(t.accentColor), Some(t.textColor), Some(t.borderColor))
  }

  /** `partial.f || DEFAULT_THEME.f` for each colour. */
  function Filled(p: PartialTheme): (t: Theme)
    ensures forall f :: Colour(t, f) == OrElse(Get(p, f), Colour(DefaultTheme, f))
  {
    Theme(
      OrElse(p.backgroundColor, DefaultTheme.backgroundColor),
      OrElse(p.cardColor, DefaultTheme.cardColor),
      OrElse(p.accentColor, DefaultTheme.accentColor),
      OrElse(p.textColor, DefaultTheme.textColor),
      OrElse(p.borderColor, DefaultTheme.borderColor))
  }

  /** Every colour of a filled theme is non-empty. */
  lemma FilledNonEmpty(p: PartialTheme)
    ensures forall f :: Colour(Filled(p), f) != ""
  {
    forall f
      ensures Colour(Filled(p), f) != ""
    {
      assert Colour(DefaultTheme, f) != "";
    }
  }

  /**
   * `resolveTheme` ; `theme` is `config.metadata.theme`, `None` when the
   * config, its metadata or its theme is absent.
   */
  function ResolveTheme(theme: Option<PartialTheme>): (t: Theme)
    ensures theme.None? ==> t == DefaultTheme
    ensures theme.Some? ==> forall f :: NonEmpty(Get(theme.value, f)) ==> Colour(t, f) == Get(theme.value, f).value
    ensures theme.Some? ==> forall f :: !NonEmpty(Get(theme.value, f)) ==> Colour(t, f) == Colour(DefaultTheme, f)
  {
    Filled(if theme.Some? then theme.value else NoColours)
  }

  /** Resolving a theme that sets every colour to a non-empty value gives that theme back. */
  lemma ResolveComplete(t: Theme)
    requires forall f :: Colour(t, f) != ""
    ensures ResolveTheme(Some(Complete(t))) == t
  {
    assert t.backgroundColor == Colour(t, Background);
    assert t.cardColor == Colour(t, Card);
    assert t.accentColor == Colour(t, Accent);
    assert t.textColor == Colour(t, Text);
    assert t.borderColor == Colour(t, Border);
  }

  /** `getDefaultTheme` : a copy of the defaults. */
  function GetDefaultTheme(): (t: Theme)
    ensures forall f :: Colour(t, f) == Colour(DefaultTheme, f)
  {
    DefaultTheme
  }

  /** One step of the merge: a truthy colour of `theme` replaces the merged one. */
  function Overlay(merged: PartialTheme, theme: PartialTheme): PartialTheme
  {
    PartialTheme(
      Either(theme.backgroundColor, merged.backgroundColor),
      Either(theme.cardColor, merged.cardColor),
      Either(theme.accentColor, merged.accentColor),
      Either(theme.textColor, merged.textColor),
      Either(theme.borderColor, merged.borderColor))
  }

  /** The `merged` record after the themes, in order. */
  function Merged(themes: seq<PartialTheme>): PartialTheme
  {
    if themes == [] then NoColours else Overlay(Merged(themes[..|themes| - 1]), themes[|themes| - 1])
  }

  /** `mergeThemes(...themes)` */
  method MergeThemes(themes: seq<PartialTheme>) returns (t: Theme)
    ensures t == Filled(Merged(themes))
  {
    var merged := NoColours;
    for i := 0 to |themes|
      invariant merged == Merged(themes[..i])
    {
      assert themes[..i + 1][..i] == themes[..i];
      var theme := themes[i];
      if NonEmpty(theme.backgroundColor) {
        merged := merged.(backgroundColor := theme.backgroundColor);
      }
      if NonEmpty(theme.cardColor) {
        merged := merged.(cardColor := theme.cardColor);
      }
      if NonEmpty(theme.accentColor) {
        merged := merged.(accentColor := theme.accentColor);
      }
      if NonEmpty(theme.textColor) {
        merged := merged.(textColor := theme.textColor);
      }
      if NonEmpty(theme.borderColor) {
        merged := merged.(borderColor := theme.borderColor);
      }
    }
    assert themes[..|themes|] == themes;
    t := Filled(merged);
  }

  /** Per colour, the right-most theme that sets it wins. */
  lemma {:induction false} MergeRightmostWins(themes: seq<PartialTheme>, f: Field, i: nat)
    requires i < |themes| && NonEmpty(Get(themes[i], f))
    requires forall j | i < j < |themes| :: !NonEmpty(Get(themes[j], f))
    ensures Colour(Filled(Merged(themes)), f) == Get(themes[i], f).value
    ensures Get(Merged(themes), f) == Get(themes[i], f)
  {
    var n := |themes| - 1;
    if i < n {
      assert forall j | i < j < n :: themes[..n][j] == themes[j];
      MergeRightmostWins(themes[..n], f, i);
      assert themes[..n][i] == themes[i];
    }
  }

  /** A colour no theme sets comes from the defaults. */
  lemma {:induction false} MergeUnsetDefault(themes: seq<PartialTheme>, f: Field)
    requires forall j | 0 <= j < |themes| :: !NonEmpty(Get(themes[j], f))
    ensures !NonEmpty(Get(Merged(themes), f))
    ensures Colour(Filled(Merged(themes)), f) == Colour(DefaultTheme, f)
  {
    if themes != [] {
      var n := |themes| - 1;
      assert forall j | 0 <= j < n :: themes[..n][j] == themes[j];
      MergeUnsetDefault(themes[..n], f);
    }
  }

  /** With no arguments the merge is the default theme; with one it resolves that theme. */
  lemma MergeOneOrNone(p: PartialTheme)
    ensures Filled(Merged([])) == DefaultTheme
    ensures Filled(Merged([p])) == ResolveTheme(Some(p))
  {
    assert [p][..0] == [];
  }

  // ---------------------------------------------------------------------
  // Validation

  predicate IsHexDigit(c: char)
  {
    ('0' <= c <= '9') || ('a' <= c <= 'f') || ('A' <= c <= 'F')
  }

  /** The number of hex digits in a row from `i`, at most `limit`. */
  function HexRun(s: string, i: nat, limit: nat): (n: nat)
    requires i <= |s|
    ensures n <= limit && i + n <= |s|
    ensures forall k | i <= k < i + n :: IsHexDigit(s[k])
    ensures n < limit && i + n < |s| ==> !IsHexDigit(s[i + n])
    decreases limit
  {
    if limit == 0 || i == |s| || !IsHexDigit(s[i]) then 0 else 1 + HexRun(s, i + 1, limit - 1)
  }

  predicate StartsWith(s: string, prefix: string)
  {
    |prefix| <= |s| && s[..|prefix|] == prefix
  }

  /** `/^(#[0-9a-fA-F]{3,8}|rgb|rgba|hsl|hsla)/.test(s)` : the alternatives tried in turn at the start. */
  predicate ColourMatches(s: string)
  {
    (|s| > 0 && s[0] == '#' && HexRun(s, 1, 8) >= 3)
    || StartsWith(s, "rgb") || StartsWith(s, "rgba") || StartsWith(s, "hsl") || StartsWith(s, "hsla")
  }

  /** The pattern holds exactly when the text starts with '#' and three hex digits, or with "rgb" or "hsl". */
  lemma ColourMatchesIff(s: string)
    ensures ColourMatches(s) <==>
      (|s| >= 4 && s[0] == '#' && IsHexDigit(s[1]) && IsHexDigit(s[2]) && IsHexDigit(s[3]))
      || StartsWith(s, "rgb") || StartsWith(s, "hsl")
  {
    if StartsWith(s, "rgba") {
      assert s[..3] == s[..4][..3];
    }
    if StartsWith(s, "hsla") {
      assert s[..3] == s[..4][..3];
    }
    if |s| >= 4 && s[0] == '#' && IsHexDigit(s[1]) && IsHexDigit(s[2]) && IsHexDigit(s[3]) {
      HexRunAtLeast(s, 1, 8, 3);
    }
  }

  lemma {:induction false} HexRunAtLeast(s: string, i: nat, limit: nat, m: nat)
    requires i + m <= |s| && m <= limit
    requires forall k | i <= k < i + m :: IsHexDigit(s[k])
    ensures HexRun(s, i, limit) >= m
    decreases m
  {
    if m > 0 {
      HexRunAtLeast(s, i + 1, limit - 1, m - 1);
    }
  }

  /** Only the start is checked: anything may follow a matching colour. */
  lemma TrailingTextIgnored(s: string, rest: string)
    requires ColourMatches(s)
    ensures ColourMatches(s + rest)
  {
    ColourMatchesIff(s);
    ColourMatchesIff(s + rest);
    if StartsWith(s, "rgb") {
      assert (s + rest)[..3] == s[..3];
    } else if StartsWith(s, "hsl") {
      assert (s + rest)[..3] == s[..3];
    } else {
      assert (s + rest)[..4] == s[..4];
    }
  }

  /** The truthy colours of a theme, in field order. */
  function TruthyColours(t: PartialTheme): (cs: seq<string>)
    ensures forall c :: c in cs <==> exists f :: NonEmpty(Get(t, f)) && Get(t, f).value == c
  {
    var all := [t.backgroundColor, t.cardColor, t.accentColor, t.textColor, t.borderColor];
    assert forall f :: Get(t, f) in all;
    assert forall k | 0 <= k < 5 :: exists f :: all[k] == Get(t, f) by {
      assert all[0] == Get(t, Background) && all[1] == Get(t, Card) && all[2] == Get(t, Accent);
      assert all[3] == Get(t, Text) && all[4] == Get(t, Border);
    }
    Truthy(all)
  }

  function Truthy(xs: seq<Option<string>>): (cs: seq<string>)
    ensures forall c :: c in cs <==> exists k | 0 <= k < |xs| :: NonEmpty(xs[k]) && xs[k].value == c
  {
    if xs == [] then []
    else
      var n := |xs| - 1;
      var rest := Truthy(xs[..n]);
      assert forall k | 0 <= k < n :: xs[..n][k] == xs[k];
      if NonEmpty(xs[n]) then rest + [xs[n].value] else rest
  }

  /** `validateTheme` : every truthy colour matches the pattern. */
  function ValidateTheme(t: PartialTheme): (ok: bool)
    ensures ok <==> forall f :: NonEmpty(Get(t, f)) ==> ColourMatches(Get(t, f).value)
  {
    var cs := TruthyColours(t);
    assert forall f | NonEmpty(Get(t, f)) :: Get(t, f).value in cs;
    forall c | c in cs :: ColourMatches(c)
  }

  /** A '#' and three hex digits make a colour. */
  lemma HexColour(c: string)
    requires |c| >= 4 && c[0] == '#' && IsHexDigit(c[1]) && IsHexDigit(c[2]) && IsHexDigit(c[3])
    ensures ColourMatches(c)
  {
    ColourMatchesIff(c);
  }

  /** The default colours pass the check. */
  lemma DefaultColoursMatch(f: Field)
    ensures ColourMatches(Colour(DefaultTheme, f))
  {
    HexColour(Colour(DefaultTheme, f));
  }

  /** One colour of a resolved theme: the theme's own, which passed the check, or a default. */
  lemma ResolvedColourMatches(theme: Option<PartialTheme>, f: Field)
    requires theme.Some? ==> ValidateTheme(theme.value)
    ensures ColourMatches(Colour(ResolveTheme(theme), f))
  {
    DefaultColoursMatch(f);
  }

  /**
   * Resolving a theme that passes the check (or no theme at all) gives a
   * complete theme that passes it too: every colour is either one the
   * check accepted or a default.
   */
  lemma ValidResolvesValid(theme: Option<PartialTheme>)
    requires theme.Some? ==> ValidateTheme(theme.value)
    ensures ValidateTheme(Complete(ResolveTheme(theme)))
    ensures ValidateTheme(NoColours)
  {
    var t := ResolveTheme(theme);
    forall f
      ensures ColourMatches(Get(Complete(t), f).value)
    {
      ResolvedColourMatches(theme, f);
      assert Get(Complete(t), f) == Some(Colour(t, f));
    }
    assert forall f :: !NonEmpty(Get(NoColours, f));
  }
}
