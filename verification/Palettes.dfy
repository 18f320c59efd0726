/**
 scripts/maintenance/palettes.ts 101-205 and 296-336: the search for a lightness, the tokens of a palette in one mode, and the
 contrast rules that hold by construction. Colors are made and compared by functions that are parameters here.
 */
module Palettes {
  import opened Colors
  import opened Wrappers

  // ----- the search for a lightness -----

  /** How different two colors are. */
  type Measure = (Color, Color) -> real

  datatype Target = Target(surface: Color, ratio: real)

  predicate Meets(contrast: Measure, color: Color, targets: seq<Target>) {
    forall i :: 0 <= i < |targets| ==> contrast(color, targets[i].surface) >= targets[i].ratio
  }

  function Grid(start: real, step: real, n: nat): real
    decreases n
  {
    if n == 0 then start else Grid(start, step, n - 1) + step
  }

  const TRIES := 160

  predicate Inside(start: real, step: real, n: nat) {
    0.0 <= Grid(start, step, n) <= 1.0
  }

  predicate MeetsAt(contrast: Measure, start: real, step: real, make: real -> Color, targets: seq<Target>, n: nat) {
    Meets(contrast, make(Grid(start, step, n)), targets)
  }

  /** A point that the search gets to: the start may lie outside, every later point has to lie in the unit interval. */
  predicate IsTried(start: real, step: real, n: nat)
    decreases n
  {
    n < TRIES && (n == 0 || (Inside(start, step, n) && IsTried(start, step, n - 1)))
  }

  predicate NoneBefore(contrast: Measure, start: real, step: real, make: real -> Color, targets: seq<Target>, n: nat)
    decreases n
  {
    n == 0 || (!MeetsAt(contrast, start, step, make, targets, n - 1) && NoneBefore(contrast, start, step, make, targets, n - 1))
  }

  predicate IsFirst(contrast: Measure, start: real, step: real, make: real -> Color, targets: seq<Target>, n: nat) {
    IsTried(start, step, n) && MeetsAt(contrast, start, step, make, targets, n) && NoneBefore(contrast, start, step, make, targets, n)
  }

  /** Where a search has stopped, no point before and no point after would do. */
  lemma {:induction false} StoppedBefore(
      contrast: Measure, start: real, step: real, make: real -> Color, targets: seq<Target>, stop: nat, n: nat)
    requires NoneBefore(contrast, start, step, make, targets, stop) && !IsTried(start, step, stop) && IsTried(start, step, n)
    ensures n < stop && !MeetsAt(contrast, start, step, make, targets, n)
    decreases stop + n
  {
    if n >= stop {
      if n > stop {
        StoppedBefore(contrast, start, step, make, targets, stop, n - 1);
      }
    } else if n < stop - 1 {
      LessMeet(contrast, start, step, make, targets, stop, n);
    }
  }

  lemma {:induction false} LessMeet(
      contrast: Measure, start: real, step: real, make: real -> Color, targets: seq<Target>, stop: nat, n: nat)
    requires NoneBefore(contrast, start, step, make, targets, stop) && n < stop
    ensures !MeetsAt(contrast, start, step, make, targets, n)
    decreases stop
  {
    if n < stop - 1 {
      LessMeet(contrast, start, step, make, targets, stop - 1, n);
    }
  }

  /** The point of the grid after a number of steps. */
  function Point(start: real, step: real, n: nat): real {
    start + n as real * step
  }

  predicate Differs(contrast: Measure, color: Color, targets: seq<Target>) {
    forall target :: target in targets ==> contrast(color, target.surface) >= target.ratio
  }

  lemma OneMoreTimes(a: real, b: real)
    ensures (a + 1.0) * b == a * b + b
  {
  }

  lemma {:induction false} GridIsArithmetic(start: real, step: real, n: nat)
    ensures Grid(start, step, n) == Point(start, step, n)
    decreases n
  {
    if n == 0 {
      assert 0.0 * step == 0.0;
    } else {
      GridIsArithmetic(start, step, n - 1);
      OneMoreTimes((n - 1) as real, step);
      assert n as real == (n - 1) as real + 1.0;
    }
  }

  lemma {:induction false} TriedIsInside(start: real, step: real, n: nat)
    ensures IsTried(start, step, n) <==> n < 160 && forall k :: 0 < k <= n ==> 0.0 <= Point(start, step, k) <= 1.0
    decreases n
  {
    if n > 0 {
      TriedIsInside(start, step, n - 1);
      GridIsArithmetic(start, step, n);
    }
  }

  lemma MeetsIsDiffers(contrast: Measure, start: real, step: real, make: real -> Color, targets: seq<Target>, n: nat)
    ensures MeetsAt(contrast, start, step, make, targets, n) <==> Differs(contrast, make(Point(start, step, n)), targets)
  {
    GridIsArithmetic(start, step, n);
    var color := make(Point(start, step, n));
    if Differs(contrast, color, targets) {
      forall i | 0 <= i < |targets|
        ensures contrast(color, targets[i].surface) >= targets[i].ratio
      {
        assert targets[i] in targets;
      }
    }
  }

  lemma {:induction false} NoneIsNone(contrast: Measure, start: real, step: real, make: real -> Color, targets: seq<Target>, n: nat)
    ensures NoneBefore(contrast, start, step, make, targets, n) <==>
      forall k: nat :: k < n ==> !Differs(contrast, make(Point(start, step, k)), targets)
    decreases n
  {
    if n > 0 {
      NoneIsNone(contrast, start, step, make, targets, n - 1);
      MeetsIsDiffers(contrast, start, step, make, targets, n - 1);
    }
  }

  /**
   A search ends after n steps exactly if there are fewer than 160 of them, all points behind the start lie in the unit interval, the
   color at the last one differs enough from every surface, and the color at none before it does.
   */
  lemma SearchIsExact(contrast: Measure, start: real, step: real, make: real -> Color, targets: seq<Target>, n: nat)
    ensures IsFirst(contrast, start, step, make, targets, n) <==>
      && n < 160
      && (forall k :: 0 < k <= n ==> 0.0 <= Point(start, step, k) <= 1.0)
      && Differs(contrast, make(Point(start, step, n)), targets)
      && (forall k: nat :: k < n ==> !Differs(contrast, make(Point(start, step, k)), targets))
  {
    TriedIsInside(start, step, n);
    MeetsIsDiffers(contrast, start, step, make, targets, n);
    NoneIsNone(contrast, start, step, make, targets, n);
  }

  method MeetsAll(contrast: Measure, color: Color, targets: seq<Target>) returns (meets: bool)
    ensures meets <==> Meets(contrast, color, targets)
  {
    var i := 0;
    while i < |targets|
      invariant i <= |targets|
      invariant forall j :: 0 <= j < i ==> contrast(color, targets[j].surface) >= targets[j].ratio
    {
      if contrast(color, targets[i].surface) < targets[i].ratio {
        return false;
      }
      i := i + 1;
    }
    return true;
  }

  /** The search for the lightness at which `make` differs enough from every surface: the first point of the grid, or none. */
  method FitLightness(contrast: Measure, start: real, step: real, make: real -> Color, targets: seq<Target>) returns (found: Option<real>)
    ensures found.Some? ==> exists n: nat :: found.value == Grid(start, step, n) && IsFirst(contrast, start, step, make, targets, n)
    ensures found.None? ==> forall n: nat :: IsTried(start, step, n) ==> !MeetsAt(contrast, start, step, make, targets, n)
  {
    var lightness, guard := start, 0;
    while guard < TRIES
      invariant guard <= TRIES && lightness == Grid(start, step, guard)
      invariant guard < TRIES ==> IsTried(start, step, guard)
      invariant NoneBefore(contrast, start, step, make, targets, guard)
    {
      var meets := MeetsAll(contrast, make(lightness), targets);
      if meets {
        return Some(lightness);
      }
      lightness := lightness + step;
      guard := guard + 1;
      if lightness < 0.0 || lightness > 1.0 {
        break;
      }
    }
    forall n: nat | IsTried(start, step, n)
      ensures !MeetsAt(contrast, start, step, make, targets, n)
    {
      StoppedBefore(contrast, start, step, make, targets, guard, n);
    }
    return None;
  }

  // ----- tokens and rules -----

  /** Tokens are numbered in the order in which a palette gets them. */
  type Token = nat

  const APP: Token := 0
  const SHELL: Token := 1
  const BACKGROUND: Token := 2
  const CARD: Token := 3
  const SECONDARY: Token := 4
  const POPOVER: Token := 5
  const FOREGROUND: Token := 6
  const MUTED_FOREGROUND: Token := 7
  const BORDER_SOFT: Token := 8
  const BORDER: Token := 9
  const BORDER_STRONG: Token := 10
  const BAND: Token := 11
  const SELECTED: Token := 12
  const SELECTED_HOVER: Token := 13
  const SELECTED_FOREGROUND: Token := 14
  const SELECTED_BORDER: Token := 15
  const PRIMARY: Token := 16
  const PRIMARY_FOREGROUND: Token := 17
  const ACTIVE_SOFT: Token := 18
  const ACTIVE: Token := 19
  const SUCCESS_SOFT: Token := 20
  const SUCCESS: Token := 21
  const WARNING_SOFT: Token := 22
  const WARNING: Token := 23
  const DESTRUCTIVE_SOFT: Token := 24
  const DESTRUCTIVE: Token := 25
  const INFO_SOFT: Token := 26
  const INFO: Token := 27
  const CODE: Token := 28
  const CODE_BORDER: Token := 29
  const CODE_FOREGROUND: Token := 30
  const CODE_TINT: Token := 31
  const DIFF_INSERT: Token := 32
  const DIFF_DELETE: Token := 33
  const DIFF_INSERT_EDIT: Token := 34
  const DIFF_DELETE_EDIT: Token := 35
  const DIFF_INSERT_GUTTER: Token := 36
  const DIFF_DELETE_GUTTER: Token := 37
  const SYN_KEYWORD: Token := 38
  const SYN_STRING: Token := 39
  const SYN_NUMBER: Token := 40
  const SYN_FUNCTION: Token := 41
  const SYN_TYPE: Token := 42
  const SYN_ATTRIBUTE: Token := 43
  const SYN_COMMENT: Token := 44
  const ALL_TOKENS: nat := 45

  type Tokens = map<Token, Color>

  datatype Rule = Rule(first: Token, second: Token, goal: real)

  predicate Passes(contrast: Measure, tokens: Tokens, rule: Rule) {
    rule.first in tokens && rule.second in tokens && contrast(tokens[rule.first], tokens[rule.second]) >= rule.goal
  }

  predicate AllPass(contrast: Measure, tokens: Tokens, rules: seq<Rule>) {
    forall i :: 0 <= i < |rules| ==> Passes(contrast, tokens, rules[i])
  }

  /** A palette holds exactly the tokens up to some point. */
  ghost predicate Filled(tokens: Tokens, n: nat) {
    forall t: Token :: t in tokens <==> t < n
  }

  predicate Extends(before: Tokens, after: Tokens) {
    forall t :: t in before ==> t in after && after[t] == before[t]
  }

  function On(token: Token, surfaces: seq<Token>, goal: real): seq<Rule> {
    seq(|surfaces|, i requires 0 <= i < |surfaces| => Rule(token, surfaces[i], goal))
  }

  const CONTENT: seq<Token> := [BACKGROUND, CARD, POPOVER]
  const EVERYWHERE: seq<Token> := [APP, SHELL, BACKGROUND, CARD, SECONDARY, POPOVER]
  const TEXT_ON: seq<Token> := [BACKGROUND, CARD, SELECTED, SELECTED_HOVER]
  const PLAIN_CODE: seq<Token> := [CODE, DIFF_INSERT, DIFF_DELETE]
  const EDITED_CODE: seq<Token> := [DIFF_INSERT_EDIT, DIFF_DELETE_EDIT]
  const ON_CODE: seq<Token> := [CODE, DIFF_INSERT, DIFF_DELETE, DIFF_INSERT_EDIT, DIFF_DELETE_EDIT]

  lemma AllPassAppend(contrast: Measure, tokens: Tokens, a: seq<Rule>, b: seq<Rule>)
    ensures AllPass(contrast, tokens, a + b) <==> AllPass(contrast, tokens, a) && AllPass(contrast, tokens, b)
  {
    forall i | 0 <= i < |b|
      ensures b[i] == (a + b)[|a| + i]
    {
    }
    forall i | 0 <= i < |a|
      ensures a[i] == (a + b)[i]
    {
    }
  }

  predicate AllKept(contrast: Measure, tokens: Tokens, promised: seq<seq<Rule>>) {
    forall i :: 0 <= i < |promised| ==> AllPass(contrast, tokens, promised[i])
  }

  // ----- what each search is for -----

  function BorderSoftRules(dark: bool): seq<Rule> {
    On(BORDER_SOFT, CONTENT, if dark then 1.22 else 1.2)
  }

  function BorderRules(dark: bool): seq<Rule> {
    On(BORDER, EVERYWHERE, if dark then 1.4 else 1.35) + On(BORDER, [CARD], if dark then 1.55 else 1.45)
  }

  function BorderStrongRules(): seq<Rule> {
    On(BORDER_STRONG, CONTENT, 3.0) + On(BORDER_STRONG, [SECONDARY], 2.6)
  }

  function BandRules(dark: bool): seq<Rule> {
    On(BAND, [CARD], if dark then 1.22 else 1.2) + On(BAND, [BACKGROUND], 1.1)
  }

  function LineRules(dark: bool): seq<seq<Rule>> {
    [BorderSoftRules(dark), BorderRules(dark), BorderStrongRules(), BandRules(dark)]
  }

  function SelectedRules(dark: bool): seq<Rule> {
    On(SELECTED, CONTENT, 1.2) + On(SELECTED, [CARD], if dark then 1.35 else 1.32)
  }

  function SelectedBorderRules(): seq<Rule> {
    On(SELECTED_BORDER, [SELECTED, CARD], 3.0)
  }

  function SelectionRules(dark: bool): seq<seq<Rule>> {
    [SelectedRules(dark), SelectedBorderRules()]
  }

  function TextOn(token: Token, extra: seq<Token>): seq<Rule> {
    On(token, TEXT_ON, 4.5) + On(token, extra, 4.5)
  }

  function TextRules(): seq<seq<Rule>> {
    [TextOn(PRIMARY, []), TextOn(ACTIVE, [ACTIVE_SOFT])]
  }

  function SemanticRules(): seq<seq<Rule>> {
    [TextOn(SUCCESS, [SUCCESS_SOFT]), TextOn(WARNING, [WARNING_SOFT]), TextOn(DESTRUCTIVE, [DESTRUCTIVE_SOFT]), TextOn(INFO, [INFO_SOFT])]
  }

  function CodeBorderRules(dark: bool): seq<Rule> {
    On(CODE_BORDER, CONTENT, if dark then 2.0 else 1.7) + On(CODE_BORDER, [CODE], 1.3)
  }

  function CodeTintRules(dark: bool): seq<Rule> {
    On(CODE_TINT, CONTENT, if dark then 1.3 else 1.18) + On(CODE_TINT, [CODE_FOREGROUND], 4.5)
  }

  function CodeRules(dark: bool): seq<seq<Rule>> {
    [FillRules(CODE, dark), CodeBorderRules(dark), CodeTintRules(dark)]
  }

  /** A surface of code that keeps its distance from the content. */
  function FillRules(token: Token, dark: bool): seq<Rule> {
    On(token, CONTENT, if dark then 1.35 else 1.18)
  }

  function DiffFillRules(dark: bool): seq<seq<Rule>> {
    [FillRules(DIFF_INSERT, dark), FillRules(DIFF_DELETE, dark)]
  }

  function MarkRules(): seq<seq<Rule>> {
    [On(DIFF_INSERT_EDIT, [DIFF_INSERT], 1.32), On(DIFF_DELETE_EDIT, [DIFF_DELETE], 1.32),
     On(DIFF_INSERT_GUTTER, [DIFF_INSERT], 1.14), On(DIFF_DELETE_GUTTER, [DIFF_DELETE], 1.14)]
  }

  function CommentRules(): seq<Rule> {
    On(SYN_COMMENT, PLAIN_CODE, 4.5) + On(SYN_COMMENT, EDITED_CODE, 3.2)
  }

  function SyntaxRules(): seq<seq<Rule>> {
    [On(SYN_KEYWORD, ON_CODE, 4.5), On(SYN_STRING, ON_CODE, 4.5), On(SYN_NUMBER, ON_CODE, 4.5), On(SYN_FUNCTION, ON_CODE, 4.5),
     On(SYN_TYPE, ON_CODE, 4.5), On(SYN_ATTRIBUTE, ON_CODE, 4.5), CommentRules()]
  }

  // ----- the plan of a palette -----

  datatype Hue = Hue(hue: real, chroma: real)

  /** The places of the ladder that the tokens with a rule need. */
  datatype Ladder = Ladder(
    app: real, shell: real, background: real, card: real, secondary: real, popover: real, foreground: real, muted: real,
    borderSoft: real, border: real, borderStrong: real, primary: real, accentSoft: real,
    selected: real, selectedFg: real, selectedBorder: real)

  datatype Seed = Seed(neutral: Hue, accent: Hue, codeHue: real, activeHue: Option<real>, light: Ladder, dark: Ladder)

  /** Lightness, chroma and hue to a color. */
  type Paint = (real, real, real) -> Color

  /** All that the tokens of one mode depend on. */
  datatype Kit = Kit(paint: Paint, contrast: Measure, dark: bool, seed: Seed) {
    function Neutral(factor: real): real -> Color {
      (lightness: real) => paint(lightness, seed.neutral.chroma * factor, seed.neutral.hue)
    }

    function Accent(factor: real): real -> Color {
      (lightness: real) => paint(lightness, seed.accent.chroma * factor, seed.accent.hue)
    }

    function Fixed(chroma: real, hue: real): real -> Color {
      (lightness: real) => paint(lightness, chroma, hue)
    }

    function Steps(): Ladder {
      if dark then seed.dark else seed.light
    }

    function Either(inDark: real, inLight: real): real {
      if dark then inDark else inLight
    }

    function Away(): real {
      Either(0.005, -0.005)
    }

    function ActiveHue(): real {
      if seed.activeHue.Some? then seed.activeHue.value else seed.accent.hue
    }

    function Hover(): real -> Color {
      (lightness: real) => Accent(0.36)(lightness + Either(0.03, -0.02))
    }
  }

  /** How a token gets its color: as it is, at the first lightness that keeps the rules, or beside the lightness of another one. */
  datatype Plan =
    | Given(color: Color)
    | Searched(start: real, make: real -> Color, rules: seq<Rule>)
    | Following(leader: Plan, make: real -> Color)

  function SurfacePlan(k: Kit, t: Token): Plan {
    var ladder := k.Steps();
    if t == APP then Given(k.Neutral(0.9)(ladder.app))
    else if t == SHELL then Given(k.Neutral(0.95)(ladder.shell))
    else if t == BACKGROUND then Given(k.Neutral(1.0)(ladder.background))
    else if t == CARD then Given(k.Neutral(1.0)(ladder.card))
    else if t == SECONDARY then Given(k.Neutral(1.1)(ladder.secondary))
    else if t == POPOVER then Given(k.Neutral(0.9)(ladder.popover))
    else if t == FOREGROUND then Given(k.Neutral(0.5)(ladder.foreground))
    else Given(k.Neutral(0.7)(ladder.muted))
  }

  function LinePlan(k: Kit, t: Token): Plan {
    var ladder := k.Steps();
    if t == BORDER_SOFT then Searched(ladder.borderSoft, k.Neutral(1.1), BorderSoftRules(k.dark))
    else if t == BORDER then Searched(ladder.border, k.Neutral(1.2), BorderRules(k.dark))
    else if t == BORDER_STRONG then Searched(ladder.borderStrong, k.Neutral(1.3), BorderStrongRules())
    else Searched(ladder.card + k.Either(0.05, -0.05), k.Neutral(1.15), BandRules(k.dark))
  }

  function SelectedPlan(k: Kit): Plan {
    Searched(k.Steps().selected, k.Accent(0.34), SelectedRules(k.dark))
  }

  function SelectionPlan(k: Kit, t: Token): Plan {
    if t == SELECTED then SelectedPlan(k)
    else if t == SELECTED_HOVER then Following(SelectedPlan(k), k.Hover())
    else if t == SELECTED_FOREGROUND then Given(k.Accent(0.35)(k.Steps().selectedFg))
    else Searched(k.Steps().selectedBorder, k.Accent(0.8), SelectedBorderRules())
  }

  function TextPlan(k: Kit, t: Token): Plan {
    var ladder, chroma := k.Steps(), k.seed.accent.chroma;
    if t == PRIMARY then Searched(ladder.primary, k.Accent(1.0), TextOn(PRIMARY, []))
    else if t == PRIMARY_FOREGROUND then Given(if k.dark then k.Neutral(0.6)(0.17) else Color(255, 255, 255))
    else if t == ACTIVE_SOFT then Given(k.Fixed(chroma * 0.4, k.ActiveHue())(ladder.accentSoft))
    else Searched(ladder.primary, k.Fixed(chroma, k.ActiveHue()), TextOn(ACTIVE, [ACTIVE_SOFT]))
  }

  function SoftPlan(k: Kit, hue: real, chroma: real): Plan {
    Given(k.Fixed(chroma * k.Either(0.42, 0.25), hue)(k.Either(k.Steps().card + 0.045, 0.945)))
  }

  function OnSoftPlan(k: Kit, t: Token, hue: real, chroma: real): Plan
    requires t > 0
  {
    Searched(k.Either(0.79, 0.47), k.Fixed(chroma, hue), TextOn(t, [t - 1]))
  }

  function SemanticPlan(k: Kit, t: Token): Plan {
    if t == SUCCESS_SOFT then SoftPlan(k, 155.0, 0.12)
    else if t == SUCCESS then OnSoftPlan(k, SUCCESS, 155.0, 0.12)
    else if t == WARNING_SOFT then SoftPlan(k, 72.0, 0.12)
    else if t == WARNING then OnSoftPlan(k, WARNING, 72.0, 0.12)
    else if t == DESTRUCTIVE_SOFT then SoftPlan(k, 17.0, 0.15)
    else if t == DESTRUCTIVE then OnSoftPlan(k, DESTRUCTIVE, 17.0, 0.15)
    else if t == INFO_SOFT then SoftPlan(k, 245.0, 0.1)
    else OnSoftPlan(k, INFO, 245.0, 0.1)
  }

  function CodePlan(k: Kit, t: Token): Plan {
    var ladder := k.Steps();
    if t == CODE then Searched(ladder.secondary + k.Either(0.025, -0.01), k.Neutral(k.Either(1.3, 1.2)), FillRules(CODE, k.dark))
    else if t == CODE_BORDER then Searched(ladder.border + k.Either(0.0, 0.02), k.Neutral(1.2), CodeBorderRules(k.dark))
    else if t == CODE_FOREGROUND then Given(k.Fixed(0.07, k.seed.codeHue)(k.Either(0.84, 0.4)))
    else Searched(ladder.background + k.Either(0.09, -0.08), k.Fixed(k.Either(0.05, 0.045), k.seed.codeHue), CodeTintRules(k.dark))
  }

  function FillPlan(k: Kit, t: Token): Plan {
    var start := k.Either(k.Steps().background + 0.08, 0.95);
    if t == DIFF_INSERT then Searched(start, k.Fixed(k.Either(0.085, 0.05), 150.0), FillRules(DIFF_INSERT, k.dark))
    else Searched(start, k.Fixed(k.Either(0.1, 0.06), 17.0), FillRules(DIFF_DELETE, k.dark))
  }

  function MarkPlan(k: Kit, t: Token): Plan {
    var background := k.Steps().background;
    var edit, gutter := k.Either(background + 0.17, 0.87), k.Either(background + 0.12, 0.91);
    if t == DIFF_INSERT_EDIT then Searched(edit, k.Fixed(k.Either(0.12, 0.09), 150.0), On(DIFF_INSERT_EDIT, [DIFF_INSERT], 1.32))
    else if t == DIFF_DELETE_EDIT then Searched(edit, k.Fixed(k.Either(0.14, 0.1), 17.0), On(DIFF_DELETE_EDIT, [DIFF_DELETE], 1.32))
    else if t == DIFF_INSERT_GUTTER then
      Searched(gutter, k.Fixed(k.Either(0.1, 0.07), 150.0), On(DIFF_INSERT_GUTTER, [DIFF_INSERT], 1.14))
    else Searched(gutter, k.Fixed(k.Either(0.12, 0.08), 17.0), On(DIFF_DELETE_GUTTER, [DIFF_DELETE], 1.14))
  }

  function CodeTextPlan(k: Kit, t: Token, hue: real, chroma: real): Plan {
    Searched(k.Either(0.82, 0.45), k.Fixed(chroma, hue), On(t, ON_CODE, 4.5))
  }

  function SyntaxPlan(k: Kit, t: Token): Plan {
    if t == SYN_KEYWORD then CodeTextPlan(k, SYN_KEYWORD, 305.0, 0.13)
    else if t == SYN_STRING then CodeTextPlan(k, SYN_STRING, 150.0, 0.12)
    else if t == SYN_NUMBER then CodeTextPlan(k, SYN_NUMBER, 62.0, 0.13)
    else if t == SYN_FUNCTION then CodeTextPlan(k, SYN_FUNCTION, 245.0, 0.11)
    else if t == SYN_TYPE then CodeTextPlan(k, SYN_TYPE, 195.0, 0.09)
    else if t == SYN_ATTRIBUTE then CodeTextPlan(k, SYN_ATTRIBUTE, 20.0, 0.12)
    else Searched(k.Either(0.67, 0.55), k.Neutral(0.8), CommentRules())
  }

  function ChromePlan(k: Kit, t: Token): Plan {
    if t < BORDER_SOFT then SurfacePlan(k, t)
    else if t < SELECTED then LinePlan(k, t)
    else if t < PRIMARY then SelectionPlan(k, t)
    else if t < SUCCESS_SOFT then TextPlan(k, t)
    else SemanticPlan(k, t)
  }

  function SourcePlan(k: Kit, t: Token): Plan {
    if t < DIFF_INSERT then CodePlan(k, t)
    else if t < DIFF_INSERT_EDIT then FillPlan(k, t)
    else if t < SYN_KEYWORD then MarkPlan(k, t)
    else SyntaxPlan(k, t)
  }

  function PlanOf(k: Kit, t: Token): Plan {
    if t < CODE then ChromePlan(k, t) else SourcePlan(k, t)
  }

  // ----- palettes that keep to the plan -----

  predicate Ready(tokens: Tokens, rules: seq<Rule>) {
    forall i :: 0 <= i < |rules| ==> rules[i].second in tokens
  }

  function Targets(tokens: Tokens, rules: seq<Rule>): seq<Target>
    requires Ready(tokens, rules)
  {
    seq(|rules|, i requires 0 <= i < |rules| => Target(tokens[rules[i].second], rules[i].goal))
  }

  /** The lightness of the first point of the grid that is far enough from the surfaces of the rules. */
  ghost predicate IsLightness(k: Kit, tokens: Tokens, plan: Plan, lightness: real) {
    plan.Searched? && Ready(tokens, plan.rules)
    && (exists n: nat ::
          lightness == Grid(plan.start, k.Away(), n)
          && IsFirst(k.contrast, plan.start, k.Away(), plan.make, Targets(tokens, plan.rules), n))
  }

  ghost predicate MadeAs(k: Kit, tokens: Tokens, t: Token, plan: Plan) {
    t in tokens
    && match plan
       case Given(color) => tokens[t] == color
       case Searched(_, make, _) => exists lightness: real :: IsLightness(k, tokens, plan, lightness) && tokens[t] == make(lightness)
       case Following(leader, make) =>
         exists lightness: real :: IsLightness(k, tokens, leader, lightness) && tokens[t] == make(lightness)
  }

  ghost predicate MadeAt(k: Kit, tokens: Tokens, t: Token) {
    MadeAs(k, tokens, t, PlanOf(k, t))
  }

  ghost predicate Made(k: Kit, tokens: Tokens, n: nat) {
    forall t: Token :: t < n ==> MadeAt(k, tokens, t)
  }

  /** A complete palette: every token has the color that the plan demands beside the other ones. */
  ghost predicate IsPalette(k: Kit, tokens: Tokens) {
    Filled(tokens, ALL_TOKENS) && Made(k, tokens, ALL_TOKENS)
  }

  /** No point of the grid is far enough from the surfaces of the rules. */
  ghost predicate NothingFits(k: Kit, tokens: Tokens, plan: Plan) {
    plan.Searched? && Ready(tokens, plan.rules)
    && forall n: nat :: IsTried(plan.start, k.Away(), n) ==>
      !MeetsAt(k.contrast, plan.start, k.Away(), plan.make, Targets(tokens, plan.rules), n)
  }

  /** All tokens before t are there, and no lightness of the search for t keeps its rules. */
  ghost predicate Stuck(k: Kit, tokens: Tokens, t: Token) {
    t < ALL_TOKENS && Filled(tokens, t) && Made(k, tokens, t) && NothingFits(k, tokens, PlanOf(k, t))
  }

  ghost predicate Agree(a: Tokens, b: Tokens, n: nat) {
    forall t: Token :: t < n ==> t in a && t in b && a[t] == b[t]
  }

  predicate About(rules: seq<Rule>, token: Token) {
    forall i :: 0 <= i < |rules| ==> rules[i].first == token && rules[i].second < token
  }

  predicate Before(rules: seq<Rule>, token: Token) {
    forall i :: 0 <= i < |rules| ==> rules[i].second < token
  }

  /** A plan needs no token after its own. */
  predicate Grounded(plan: Plan, t: Token) {
    match plan
    case Given(_) => true
    case Searched(_, _, rules) => About(rules, t)
    case Following(leader, _) => leader.Searched? && Before(leader.rules, t)
  }

  lemma AboutOn(t: Token, surfaces: seq<Token>, goal: real)
    requires forall i :: 0 <= i < |surfaces| ==> surfaces[i] < t
    ensures About(On(t, surfaces, goal), t)
  {
  }

  lemma AboutBoth(t: Token, a: seq<Rule>, b: seq<Rule>)
    requires About(a, t) && About(b, t)
    ensures About(a + b, t)
  {
  }

  lemma AboutTextOn(t: Token, extra: seq<Token>)
    requires t > SELECTED_HOVER && forall i :: 0 <= i < |extra| ==> extra[i] < t
    ensures About(TextOn(t, extra), t)
  {
    AboutOn(t, TEXT_ON, 4.5);
    AboutOn(t, extra, 4.5);
    AboutBoth(t, On(t, TEXT_ON, 4.5), On(t, extra, 4.5));
  }

  lemma LinesAreGrounded(dark: bool)
    ensures About(BorderSoftRules(dark), BORDER_SOFT) && About(BorderRules(dark), BORDER)
    ensures About(BorderStrongRules(), BORDER_STRONG) && About(BandRules(dark), BAND)
  {
    AboutOn(BORDER, EVERYWHERE, if dark then 1.4 else 1.35);
    AboutBoth(BORDER, On(BORDER, EVERYWHERE, if dark then 1.4 else 1.35), On(BORDER, [CARD], if dark then 1.55 else 1.45));
    AboutBoth(BORDER_STRONG, On(BORDER_STRONG, CONTENT, 3.0), On(BORDER_STRONG, [SECONDARY], 2.6));
    AboutBoth(BAND, On(BAND, [CARD], if dark then 1.22 else 1.2), On(BAND, [BACKGROUND], 1.1));
  }

  lemma SelectionIsGrounded(dark: bool)
    ensures About(SelectedRules(dark), SELECTED) && About(SelectedBorderRules(), SELECTED_BORDER)
    ensures Before(SelectedRules(dark), SELECTED_HOVER)
  {
    AboutBoth(SELECTED, On(SELECTED, CONTENT, 1.2), On(SELECTED, [CARD], if dark then 1.35 else 1.32));
  }

  lemma ChromeIsGrounded(k: Kit, t: Token)
    requires t < CODE
    ensures Grounded(ChromePlan(k, t), t)
  {
    LinesAreGrounded(k.dark);
    SelectionIsGrounded(k.dark);
    AboutTextOn(PRIMARY, []);
    if t > 0 && t > SELECTED_BORDER {
      AboutTextOn(t, [t - 1]);
    }
  }

  lemma CodeIsGrounded(dark: bool)
    ensures About(FillRules(CODE, dark), CODE) && About(CodeBorderRules(dark), CODE_BORDER) && About(CodeTintRules(dark), CODE_TINT)
    ensures About(FillRules(DIFF_INSERT, dark), DIFF_INSERT) && About(FillRules(DIFF_DELETE, dark), DIFF_DELETE)
  {
    AboutBoth(CODE_BORDER, On(CODE_BORDER, CONTENT, if dark then 2.0 else 1.7), On(CODE_BORDER, [CODE], 1.3));
    AboutBoth(CODE_TINT, On(CODE_TINT, CONTENT, if dark then 1.3 else 1.18), On(CODE_TINT, [CODE_FOREGROUND], 4.5));
  }

  lemma SyntaxIsGrounded(k: Kit, t: Token)
    requires SYN_KEYWORD <= t < ALL_TOKENS
    ensures Grounded(SyntaxPlan(k, t), t)
  {
    if t < SYN_COMMENT {
      AboutOn(t, ON_CODE, 4.5);
    } else {
      AboutOn(t, PLAIN_CODE, 4.5);
      AboutOn(t, EDITED_CODE, 3.2);
      AboutBoth(t, On(t, PLAIN_CODE, 4.5), On(t, EDITED_CODE, 3.2));
    }
  }

  lemma PlansAreGrounded(k: Kit, t: Token)
    requires t < ALL_TOKENS
    ensures Grounded(PlanOf(k, t), t)
  {
    if t < CODE {
      ChromeIsGrounded(k, t);
    } else if t < SYN_KEYWORD {
      CodeIsGrounded(k.dark);
    } else {
      SyntaxIsGrounded(k, t);
    }
  }

  lemma SameTargets(a: Tokens, b: Tokens, rules: seq<Rule>, n: nat)
    requires Agree(a, b, n) && Before(rules, n)
    ensures Ready(a, rules) && Ready(b, rules) && Targets(a, rules) == Targets(b, rules)
  {
  }

  lemma SameLightness(k: Kit, a: Tokens, b: Tokens, plan: Plan, n: nat, lightness: real)
    requires Agree(a, b, n) && plan.Searched? && Before(plan.rules, n)
    ensures IsLightness(k, a, plan, lightness) <==> IsLightness(k, b, plan, lightness)
  {
    SameTargets(a, b, plan.rules, n);
  }

  lemma OneLightness(k: Kit, tokens: Tokens, plan: Plan, x: real, y: real)
    requires IsLightness(k, tokens, plan, x) && IsLightness(k, tokens, plan, y)
    ensures x == y
  {
    var targets := Targets(tokens, plan.rules);
    var m: nat :| x == Grid(plan.start, k.Away(), m) && IsFirst(k.contrast, plan.start, k.Away(), plan.make, targets, m);
    var n: nat :| y == Grid(plan.start, k.Away(), n) && IsFirst(k.contrast, plan.start, k.Away(), plan.make, targets, n);
    if m < n {
      LessMeet(k.contrast, plan.start, k.Away(), plan.make, targets, n, m);
    } else if n < m {
      LessMeet(k.contrast, plan.start, k.Away(), plan.make, targets, m, n);
    }
  }

  lemma MadeAsStays(k: Kit, a: Tokens, b: Tokens, t: Token, plan: Plan)
    requires Agree(a, b, t + 1) && Grounded(plan, t) && MadeAs(k, a, t, plan)
    ensures MadeAs(k, b, t, plan)
  {
    match plan
    case Given(_) =>
    case Searched(_, make, _) =>
      var lightness :| IsLightness(k, a, plan, lightness) && a[t] == make(lightness);
      SameLightness(k, a, b, plan, t, lightness);
    case Following(leader, make) =>
      var lightness :| IsLightness(k, a, leader, lightness) && a[t] == make(lightness);
      SameLightness(k, a, b, leader, t, lightness);
  }

  lemma MadeStays(k: Kit, a: Tokens, b: Tokens, n: nat)
    requires Agree(a, b, n) && Made(k, a, n) && n <= ALL_TOKENS
    ensures Made(k, b, n)
  {
    forall t: Token | t < n
      ensures MadeAt(k, b, t)
    {
      PlansAreGrounded(k, t);
      assert MadeAt(k, a, t);
      MadeAsStays(k, a, b, t, PlanOf(k, t));
    }
  }

  lemma MadeAsOnce(k: Kit, a: Tokens, b: Tokens, t: Token, plan: Plan)
    requires Agree(a, b, t) && Grounded(plan, t) && MadeAs(k, a, t, plan) && MadeAs(k, b, t, plan)
    ensures a[t] == b[t]
  {
    match plan
    case Given(_) =>
    case Searched(_, make, _) =>
      var x :| IsLightness(k, a, plan, x) && a[t] == make(x);
      var y :| IsLightness(k, b, plan, y) && b[t] == make(y);
      SameLightness(k, a, b, plan, t, y);
      OneLightness(k, a, plan, x, y);
    case Following(leader, make) =>
      var x :| IsLightness(k, a, leader, x) && a[t] == make(x);
      var y :| IsLightness(k, b, leader, y) && b[t] == make(y);
      SameLightness(k, a, b, leader, t, y);
      OneLightness(k, a, leader, x, y);
  }

  /** The plan leaves no choice: what keeps to it agrees, whatever order it was made in. */
  lemma {:induction false} PlanLeavesNoChoice(k: Kit, a: Tokens, b: Tokens, n: nat)
    requires Made(k, a, n) && Made(k, b, n) && n <= ALL_TOKENS
    ensures Agree(a, b, n)
  {
    if n > 0 {
      PlanLeavesNoChoice(k, a, b, n - 1);
      PlansAreGrounded(k, n - 1);
      assert MadeAt(k, a, n - 1) && MadeAt(k, b, n - 1);
      MadeAsOnce(k, a, b, n - 1, PlanOf(k, n - 1));
    }
  }

  lemma PaletteIsUnique(k: Kit, a: Tokens, b: Tokens)
    requires IsPalette(k, a) && IsPalette(k, b)
    ensures a == b
  {
    PlanLeavesNoChoice(k, a, b, ALL_TOKENS);
  }

  /** A search moves away from the surfaces of its mode, to light colors in the dark and to dark ones in the light, by less than 0.8. */
  lemma SearchMovesAway(k: Kit, tokens: Tokens, t: Token) returns (lightness: real)
    requires IsPalette(k, tokens) && t < ALL_TOKENS && PlanOf(k, t).Searched?
    ensures tokens[t] == PlanOf(k, t).make(lightness)
    ensures k.dark ==> PlanOf(k, t).start <= lightness < PlanOf(k, t).start + 0.8
    ensures !k.dark ==> PlanOf(k, t).start - 0.8 < lightness <= PlanOf(k, t).start
    ensures lightness != PlanOf(k, t).start ==> 0.0 <= lightness <= 1.0
  {
    var plan := PlanOf(k, t);
    assert MadeAt(k, tokens, t);
    lightness :| IsLightness(k, tokens, plan, lightness) && tokens[t] == plan.make(lightness);
    var n: nat :| lightness == Grid(plan.start, k.Away(), n)
      && IsFirst(k.contrast, plan.start, k.Away(), plan.make, Targets(tokens, plan.rules), n);
    GridIsArithmetic(plan.start, k.Away(), n);
  }

  /** The surfaces of a palette have the hue of its neutral colors, the selected text that of its accent, each on the ladder of its mode. */
  lemma PaletteShowsSeed(k: Kit, tokens: Tokens)
    requires IsPalette(k, tokens)
    ensures var neutral, accent, ladder := k.seed.neutral, k.seed.accent, if k.dark then k.seed.dark else k.seed.light;
      && tokens[BACKGROUND] == k.paint(ladder.background, neutral.chroma, neutral.hue)
      && tokens[CARD] == k.paint(ladder.card, neutral.chroma, neutral.hue)
      && tokens[SELECTED_FOREGROUND] == k.paint(ladder.selectedFg, accent.chroma * 0.35, accent.hue)
  {
    assert MadeAt(k, tokens, BACKGROUND) && MadeAt(k, tokens, CARD) && MadeAt(k, tokens, SELECTED_FOREGROUND);
  }

  /** One search without a result means that no palette at all keeps to the plan. */
  lemma StuckForGood(k: Kit, part: Tokens, t: Token, whole: Tokens)
    requires Stuck(k, part, t)
    ensures !IsPalette(k, whole)
  {
    if IsPalette(k, whole) {
      PlanLeavesNoChoice(k, part, whole, t);
      PlansAreGrounded(k, t);
      var plan := PlanOf(k, t);
      assert MadeAt(k, whole, t);
      var lightness :| IsLightness(k, whole, plan, lightness);
      SameTargets(part, whole, plan.rules, t);
      NoLightness(k, part, plan, lightness);
      SameLightness(k, part, whole, plan, t, lightness);
      assert false;
    }
  }

  lemma NoLightness(k: Kit, tokens: Tokens, plan: Plan, lightness: real)
    requires NothingFits(k, tokens, plan)
    ensures !IsLightness(k, tokens, plan, lightness)
  {
  }

  // ----- making a palette -----

  class Palette {
    const kit: Kit
    var tokens: Tokens

    ghost predicate Valid(n: nat)
      reads this
    {
      Filled(tokens, n) && Made(kit, tokens, n)
    }

    /** A search has found nothing. */
    ghost predicate Halted()
      reads this
    {
      exists t: Token :: Stuck(kit, tokens, t)
    }

    constructor (kit: Kit)
      ensures Valid(0) && this.kit == kit
    {
      this.kit, tokens := kit, map[];
    }

    method Put(token: Token, color: Color)
      requires Valid(token) && token < ALL_TOKENS && MadeAt(kit, tokens[token := color], token)
      modifies this
      ensures Valid(token + 1) && tokens == old(tokens)[token := color]
    {
      MadeStays(kit, tokens, tokens[token := color], token);
      tokens := tokens[token := color];
    }

    method Place(token: Token, color: Color)
      requires Valid(token) && token < ALL_TOKENS && PlanOf(kit, token) == Given(color)
      modifies this
      ensures Valid(token + 1) && tokens == old(tokens)[token := color]
    {
      Put(token, color);
    }

    /** The lightness from which a color keeps its distance from the surfaces of the rules. */
    method Search(token: Token, start: real, make: real -> Color, rules: seq<Rule>) returns (found: Option<real>)
      requires Valid(token) && token < ALL_TOKENS && PlanOf(kit, token) == Searched(start, make, rules)
      ensures found.Some? ==> IsLightness(kit, tokens, PlanOf(kit, token), found.value)
      ensures found.Some? ==> MadeAt(kit, tokens[token := make(found.value)], token)
      ensures found.None? ==> Stuck(kit, tokens, token)
    {
      PlansAreGrounded(kit, token);
      SameTargets(tokens, tokens, rules, token);
      found := FitLightness(kit.contrast, start, kit.Away(), make, Targets(tokens, rules));
      if found.Some? {
        SameLightness(kit, tokens, tokens[token := make(found.value)], PlanOf(kit, token), token, found.value);
      }
    }

    method Fit(token: Token, start: real, make: real -> Color, rules: seq<Rule>) returns (fits: bool)
      requires Valid(token) && token < ALL_TOKENS && PlanOf(kit, token) == Searched(start, make, rules)
      modifies this
      ensures fits ==> Valid(token + 1) && Extends(old(tokens), tokens)
      ensures !fits ==> tokens == old(tokens) && Stuck(kit, tokens, token)
    {
      var found := Search(token, start, make, rules);
      if found.None? {
        return false;
      }
      Put(token, make(found.value));
      return true;
    }

    method Backdrop()
      requires Valid(APP)
      modifies this
      ensures Valid(SECONDARY)
    {
      Place(APP, kit.Neutral(0.9)(kit.Steps().app));
      Place(SHELL, kit.Neutral(0.95)(kit.Steps().shell));
      Place(BACKGROUND, kit.Neutral(1.0)(kit.Steps().background));
      Place(CARD, kit.Neutral(1.0)(kit.Steps().card));
    }

    /** The other surfaces, and the two texts that the seed places itself. */
    method Surfaces()
      requires Valid(SECONDARY)
      modifies this
      ensures Valid(BORDER_SOFT) && Extends(old(tokens), tokens)
    {
      Place(SECONDARY, kit.Neutral(1.1)(kit.Steps().secondary));
      Place(POPOVER, kit.Neutral(0.9)(kit.Steps().popover));
      Place(FOREGROUND, kit.Neutral(0.5)(kit.Steps().foreground));
      Place(MUTED_FOREGROUND, kit.Neutral(0.7)(kit.Steps().muted));
    }

    method Lines() returns (fits: bool)
      requires Valid(BORDER_SOFT)
      modifies this
      ensures Extends(old(tokens), tokens) && (if fits then Valid(SELECTED) else Halted())
    {
      var ladder := kit.Steps();
      fits := Fit(BORDER_SOFT, ladder.borderSoft, kit.Neutral(1.1), BorderSoftRules(kit.dark));
      if !fits { return; }
      fits := Fit(BORDER, ladder.border, kit.Neutral(1.2), BorderRules(kit.dark));
      if !fits { return; }
      fits := Fit(BORDER_STRONG, ladder.borderStrong, kit.Neutral(1.3), BorderStrongRules());
      if !fits { return; }
      fits := Fit(BAND, ladder.card + kit.Either(0.05, -0.05), kit.Neutral(1.15), BandRules(kit.dark));
    }

    method Selection() returns (fits: bool)
      requires Valid(SELECTED)
      modifies this
      ensures Extends(old(tokens), tokens) && (if fits then Valid(PRIMARY) else Halted())
    {
      var selected := Search(SELECTED, kit.Steps().selected, kit.Accent(0.34), SelectedRules(kit.dark));
      if selected.None? {
        return false;
      }
      ghost var before := tokens;
      Put(SELECTED, kit.Accent(0.34)(selected.value));
      SelectionIsGrounded(kit.dark);
      SameLightness(kit, before, tokens, SelectedPlan(kit), SELECTED, selected.value);
      fits := SelectionDetails(selected.value);
    }

    /** The colors that follow the lightness of the selection. */
    method SelectionDetails(lightness: real) returns (fits: bool)
      requires Valid(SELECTED_HOVER) && IsLightness(kit, tokens, SelectedPlan(kit), lightness)
      modifies this
      ensures Extends(old(tokens), tokens) && (if fits then Valid(PRIMARY) else Halted())
    {
      var color := kit.Accent(0.36)(lightness + kit.Either(0.03, -0.02));
      SelectionIsGrounded(kit.dark);
      SameLightness(kit, tokens, tokens[SELECTED_HOVER := color], SelectedPlan(kit), SELECTED_HOVER, lightness);
      Put(SELECTED_HOVER, color);
      Place(SELECTED_FOREGROUND, kit.Accent(0.35)(kit.Steps().selectedFg));
      fits := Fit(SELECTED_BORDER, kit.Steps().selectedBorder, kit.Accent(0.8), SelectedBorderRules());
    }

    method Texts() returns (fits: bool)
      requires Valid(PRIMARY)
      modifies this
      ensures Extends(old(tokens), tokens) && (if fits then Valid(SUCCESS_SOFT) else Halted())
    {
      var ladder, chroma, activeHue := kit.Steps(), kit.seed.accent.chroma, kit.ActiveHue();
      fits := Fit(PRIMARY, ladder.primary, kit.Accent(1.0), TextOn(PRIMARY, []));
      if !fits { return; }
      Place(PRIMARY_FOREGROUND, if kit.dark then kit.Neutral(0.6)(0.17) else Color(255, 255, 255));
      Place(ACTIVE_SOFT, kit.Fixed(chroma * 0.4, activeHue)(ladder.accentSoft));
      fits := Fit(ACTIVE, ladder.primary, kit.Fixed(chroma, activeHue), TextOn(ACTIVE, [ACTIVE_SOFT]));
    }

    /** A soft surface and the text on it. */
    method Semantic(soft: Token, text: Token, hue: real, chroma: real) returns (fits: bool)
      requires Valid(soft) && text == soft + 1 && text < ALL_TOKENS
      requires PlanOf(kit, soft) == SoftPlan(kit, hue, chroma) && PlanOf(kit, text) == OnSoftPlan(kit, text, hue, chroma)
      modifies this
      ensures Extends(old(tokens), tokens) && (if fits then Valid(text + 1) else Halted())
    {
      Place(soft, kit.Fixed(chroma * kit.Either(0.42, 0.25), hue)(kit.Either(kit.Steps().card + 0.045, 0.945)));
      fits := Fit(text, kit.Either(0.79, 0.47), kit.Fixed(chroma, hue), TextOn(text, [soft]));
    }

    method Semantics() returns (fits: bool)
      requires Valid(SUCCESS_SOFT)
      modifies this
      ensures Extends(old(tokens), tokens) && (if fits then Valid(CODE) else Halted())
    {
      fits := Semantic(SUCCESS_SOFT, SUCCESS, 155.0, 0.12);
      if !fits { return; }
      fits := Semantic(WARNING_SOFT, WARNING, 72.0, 0.12);
      if !fits { return; }
      fits := Semantic(DESTRUCTIVE_SOFT, DESTRUCTIVE, 17.0, 0.15);
      if !fits { return; }
      fits := Semantic(INFO_SOFT, INFO, 245.0, 0.1);
    }

    method Code() returns (fits: bool)
      requires Valid(CODE)
      modifies this
      ensures Extends(old(tokens), tokens) && (if fits then Valid(DIFF_INSERT) else Halted())
    {
      var ladder, hue := kit.Steps(), kit.seed.codeHue;
      fits := Fit(CODE, ladder.secondary + kit.Either(0.025, -0.01), kit.Neutral(kit.Either(1.3, 1.2)), FillRules(CODE, kit.dark));
      if !fits { return; }
      fits := Fit(CODE_BORDER, ladder.border + kit.Either(0.0, 0.02), kit.Neutral(1.2), CodeBorderRules(kit.dark));
      if !fits { return; }
      Place(CODE_FOREGROUND, kit.Fixed(0.07, hue)(kit.Either(0.84, 0.4)));
      fits := Fit(CODE_TINT, ladder.background + kit.Either(0.09, -0.08), kit.Fixed(kit.Either(0.05, 0.045), hue), CodeTintRules(kit.dark));
    }

    method Diffs() returns (fits: bool)
      requires Valid(DIFF_INSERT)
      modifies this
      ensures Extends(old(tokens), tokens) && (if fits then Valid(SYN_KEYWORD) else Halted())
    {
      fits := Fills();
      if !fits { return; }
      fits := Marks();
    }

    method Fills() returns (fits: bool)
      requires Valid(DIFF_INSERT)
      modifies this
      ensures Extends(old(tokens), tokens) && (if fits then Valid(DIFF_INSERT_EDIT) else Halted())
    {
      var start := kit.Either(kit.Steps().background + 0.08, 0.95);
      fits := Fit(DIFF_INSERT, start, kit.Fixed(kit.Either(0.085, 0.05), 150.0), FillRules(DIFF_INSERT, kit.dark));
      if !fits { return; }
      fits := Fit(DIFF_DELETE, start, kit.Fixed(kit.Either(0.1, 0.06), 17.0), FillRules(DIFF_DELETE, kit.dark));
    }

    method Marks() returns (fits: bool)
      requires Valid(DIFF_INSERT_EDIT)
      modifies this
      ensures Extends(old(tokens), tokens) && (if fits then Valid(SYN_KEYWORD) else Halted())
    {
      var background := kit.Steps().background;
      var edit, gutter := kit.Either(background + 0.17, 0.87), kit.Either(background + 0.12, 0.91);
      fits := Fit(DIFF_INSERT_EDIT, edit, kit.Fixed(kit.Either(0.12, 0.09), 150.0), On(DIFF_INSERT_EDIT, [DIFF_INSERT], 1.32));
      if !fits { return; }
      fits := Fit(DIFF_DELETE_EDIT, edit, kit.Fixed(kit.Either(0.14, 0.1), 17.0), On(DIFF_DELETE_EDIT, [DIFF_DELETE], 1.32));
      if !fits { return; }
      fits := Fit(DIFF_INSERT_GUTTER, gutter, kit.Fixed(kit.Either(0.1, 0.07), 150.0), On(DIFF_INSERT_GUTTER, [DIFF_INSERT], 1.14));
      if !fits { return; }
      fits := Fit(DIFF_DELETE_GUTTER, gutter, kit.Fixed(kit.Either(0.12, 0.08), 17.0), On(DIFF_DELETE_GUTTER, [DIFF_DELETE], 1.14));
    }

    method SyntaxColor(token: Token, hue: real, chroma: real) returns (fits: bool)
      requires Valid(token) && token < ALL_TOKENS && PlanOf(kit, token) == CodeTextPlan(kit, token, hue, chroma)
      modifies this
      ensures Extends(old(tokens), tokens) && (if fits then Valid(token + 1) else Halted())
    {
      fits := Fit(token, kit.Either(0.82, 0.45), kit.Fixed(chroma, hue), On(token, ON_CODE, 4.5));
    }

    method Syntax() returns (fits: bool)
      requires Valid(SYN_KEYWORD)
      modifies this
      ensures Extends(old(tokens), tokens) && (if fits then Valid(ALL_TOKENS) else Halted())
    {
      fits := SyntaxColor(SYN_KEYWORD, 305.0, 0.13);
      if !fits { return; }
      fits := SyntaxColor(SYN_STRING, 150.0, 0.12);
      if !fits { return; }
      fits := SyntaxColor(SYN_NUMBER, 62.0, 0.13);
      if !fits { return; }
      fits := SyntaxColor(SYN_FUNCTION, 245.0, 0.11);
      if !fits { return; }
      fits := SyntaxColor(SYN_TYPE, 195.0, 0.09);
      if !fits { return; }
      fits := SyntaxColor(SYN_ATTRIBUTE, 20.0, 0.12);
      if !fits { return; }
      fits := Fit(SYN_COMMENT, kit.Either(0.67, 0.55), kit.Neutral(0.8), CommentRules());
    }

    /** Surfaces, lines and texts of the application. */
    method Chrome() returns (fits: bool)
      requires Valid(APP)
      modifies this
      ensures if fits then Valid(CODE) else Halted()
    {
      Backdrop();
      Surfaces();
      fits := Lines();
      if !fits { return; }
      fits := Selection();
      if !fits { return; }
      fits := Texts();
      if !fits { return; }
      fits := Semantics();
    }

    /** Code, differences and syntax. */
    method Source() returns (fits: bool)
      requires Valid(CODE)
      modifies this
      ensures Extends(old(tokens), tokens) && (if fits then Valid(ALL_TOKENS) else Halted())
    {
      fits := Code();
      if !fits { return; }
      fits := Diffs();
      if !fits { return; }
      fits := Syntax();
    }
  }

  /** The tokens of one mode: the palette that keeps to the plan, or nothing when there is none. */
  method ModeTokens(kit: Kit) returns (tokens: Option<Tokens>)
    ensures tokens.Some? ==> IsPalette(kit, tokens.value)
    ensures tokens.None? ==> forall whole: Tokens :: !IsPalette(kit, whole)
    ensures tokens.None? ==> exists part: Tokens, t: Token :: Stuck(kit, part, t)
  {
    var palette := new Palette(kit);
    var fits := palette.Chrome();
    if fits {
      fits := palette.Source();
    }
    if fits {
      return Some(palette.tokens);
    }
    ghost var t: Token :| Stuck(kit, palette.tokens, t);
    forall whole: Tokens
      ensures !IsPalette(kit, whole)
    {
      StuckForGood(kit, palette.tokens, t, whole);
    }
    return None;
  }

  // ----- the rules that are checked -----

  /** Some rules of the list; `fitted` tells whether a search makes sure of them or the seed is relied on. */
  datatype Group = Group(rules: seq<Rule>, fitted: bool)

  function Fitted(token: Token, surfaces: seq<Token>, goal: real): Group {
    Group(On(token, surfaces, goal), true)
  }

  function Relied(token: Token, surfaces: seq<Token>, goal: real): Group {
    Group(On(token, surfaces, goal), false)
  }

  const HOVERED: seq<Token> := [SELECTED, SELECTED_HOVER]

  function SeedTextGroups(): seq<Group> {
    [Relied(FOREGROUND, [BACKGROUND, CARD, SECONDARY], 7.0),
     Relied(MUTED_FOREGROUND, [BACKGROUND, CARD, SECONDARY, POPOVER], 4.5),
     Fitted(PRIMARY, [BACKGROUND], 4.5),
     Relied(PRIMARY_FOREGROUND, [PRIMARY], 4.5),
     Relied(SELECTED_FOREGROUND, HOVERED, 4.5),
     Fitted(SELECTED_BORDER, [SELECTED, CARD], 3.0)]
  }

  function HoveredGroups(): seq<Group> {
    [Fitted(PRIMARY, HOVERED, 4.5), Fitted(SUCCESS, HOVERED, 4.5), Fitted(WARNING, HOVERED, 4.5),
     Fitted(DESTRUCTIVE, HOVERED, 4.5), Fitted(INFO, HOVERED, 4.5), Fitted(ACTIVE, HOVERED, 4.5)]
  }

  function SoftGroups(): seq<Group> {
    [Fitted(SUCCESS, [SUCCESS_SOFT], 4.5), Fitted(WARNING, [WARNING_SOFT], 4.5), Fitted(DESTRUCTIVE, [DESTRUCTIVE_SOFT], 4.5),
     Fitted(INFO, [INFO_SOFT], 4.5), Fitted(ACTIVE, [ACTIVE_SOFT], 4.5)]
  }

  function CodeTextGroups(): seq<Group> {
    [Relied(CODE_FOREGROUND, [CODE], 4.5), Fitted(CODE_FOREGROUND, [CODE_TINT], 4.5), Relied(FOREGROUND, [CODE], 7.0),
     Fitted(BORDER_STRONG, CONTENT, 3.0)]
  }

  function SyntaxGroups(): seq<Group> {
    [Fitted(SYN_KEYWORD, [CODE], 4.5), Fitted(SYN_STRING, [CODE], 4.5), Fitted(SYN_NUMBER, [CODE], 4.5),
     Fitted(SYN_FUNCTION, [CODE], 4.5), Fitted(SYN_TYPE, [CODE], 4.5), Fitted(SYN_ATTRIBUTE, [CODE], 4.5),
     Fitted(SYN_COMMENT, [CODE], 4.5)]
  }

  function DiffTextGroups(): seq<Group> {
    [Relied(FOREGROUND, [DIFF_INSERT, DIFF_DELETE], 7.0), Relied(FOREGROUND, [DIFF_INSERT_EDIT, DIFF_DELETE_EDIT], 4.5),
     Fitted(SYN_KEYWORD, [DIFF_INSERT, DIFF_DELETE, DIFF_INSERT_EDIT, DIFF_DELETE_EDIT], 4.5),
     Fitted(SYN_ATTRIBUTE, [DIFF_DELETE_EDIT], 4.5), Fitted(SYN_STRING, [DIFF_INSERT_EDIT], 4.5),
     Fitted(SYN_COMMENT, [DIFF_INSERT, DIFF_DELETE], 4.5), Fitted(SYN_COMMENT, [DIFF_INSERT_EDIT, DIFF_DELETE_EDIT], 3.2)]
  }

  function SurfaceGroups(dark: bool): seq<Group> {
    [Relied(CARD, [BACKGROUND], if dark then 1.05 else 1.04), Relied(SECONDARY, [BACKGROUND], if dark then 1.15 else 1.08),
     Fitted(BORDER, EVERYWHERE, if dark then 1.4 else 1.35), Fitted(BORDER, [CARD], if dark then 1.55 else 1.45),
     Fitted(BORDER_SOFT, CONTENT, if dark then 1.22 else 1.2),
     Fitted(BAND, [CARD], if dark then 1.22 else 1.2), Fitted(BAND, [BACKGROUND], 1.1),
     Fitted(SELECTED, [CARD], if dark then 1.35 else 1.32), Fitted(SELECTED, CONTENT, 1.2),
     Fitted(BORDER_STRONG, [SECONDARY], 2.6)]
  }

  function CodeSurfaceGroups(dark: bool): seq<Group> {
    [Fitted(CODE, CONTENT, if dark then 1.35 else 1.18), Fitted(CODE_TINT, CONTENT, if dark then 1.3 else 1.18),
     Fitted(CODE_BORDER, CONTENT, if dark then 2.0 else 1.7), Fitted(CODE_BORDER, [CODE], 1.3)]
  }

  function DiffSurfaceGroups(dark: bool): seq<Group> {
    [Fitted(DIFF_INSERT, CONTENT, if dark then 1.35 else 1.18), Fitted(DIFF_DELETE, CONTENT, if dark then 1.35 else 1.18),
     Fitted(DIFF_INSERT_EDIT, [DIFF_INSERT], 1.32), Fitted(DIFF_DELETE_EDIT, [DIFF_DELETE], 1.32),
     Fitted(DIFF_INSERT_GUTTER, [DIFF_INSERT], 1.14), Fitted(DIFF_DELETE_GUTTER, [DIFF_DELETE], 1.14)]
  }

  /** All rules that are checked on the tokens of a mode. */
  function ContrastRules(dark: bool): seq<seq<Group>> {
    [SeedTextGroups(), HoveredGroups(), SoftGroups(), CodeTextGroups(), SyntaxGroups(), DiffTextGroups(),
     SurfaceGroups(dark), CodeSurfaceGroups(dark), DiffSurfaceGroups(dark)]
  }

  predicate FittedPass(contrast: Measure, tokens: Tokens, groups: seq<Group>) {
    forall i :: 0 <= i < |groups| && groups[i].fitted ==> AllPass(contrast, tokens, groups[i].rules)
  }

  ghost predicate Symmetric(contrast: Measure) {
    forall a: Color, b: Color :: contrast(a, b) == contrast(b, a)
  }

  lemma OnFewer(contrast: Measure, tokens: Tokens, token: Token, surfaces: seq<Token>, fewer: seq<Token>, goal: real)
    requires AllPass(contrast, tokens, On(token, surfaces, goal)) && forall t :: t in fewer ==> t in surfaces
    ensures AllPass(contrast, tokens, On(token, fewer, goal))
  {
    forall i | 0 <= i < |fewer|
      ensures Passes(contrast, tokens, On(token, fewer, goal)[i])
    {
      assert fewer[i] in surfaces;
      var k :| 0 <= k < |surfaces| && surfaces[k] == fewer[i];
      assert Passes(contrast, tokens, On(token, surfaces, goal)[k]);
    }
  }

  lemma TextsPass(contrast: Measure, tokens: Tokens)
    requires AllKept(contrast, tokens, TextRules()) && AllKept(contrast, tokens, SemanticRules())
    ensures FittedPass(contrast, tokens, HoveredGroups()) && FittedPass(contrast, tokens, SoftGroups())
    ensures AllPass(contrast, tokens, On(PRIMARY, [BACKGROUND], 4.5))
  {
    var texts, semantics := TextRules(), SemanticRules();
    assert AllPass(contrast, tokens, texts[0]) && AllPass(contrast, tokens, texts[1]);
    AllPassAppend(contrast, tokens, On(PRIMARY, TEXT_ON, 4.5), On(PRIMARY, [], 4.5));
    OnFewer(contrast, tokens, PRIMARY, TEXT_ON, HOVERED, 4.5);
    OnFewer(contrast, tokens, PRIMARY, TEXT_ON, [BACKGROUND], 4.5);
    TextBoth(contrast, tokens, ACTIVE, ACTIVE_SOFT);
    assert AllPass(contrast, tokens, semantics[0]) && AllPass(contrast, tokens, semantics[1]);
    TextBoth(contrast, tokens, SUCCESS, SUCCESS_SOFT);
    TextBoth(contrast, tokens, WARNING, WARNING_SOFT);
    assert AllPass(contrast, tokens, semantics[2]) && AllPass(contrast, tokens, semantics[3]);
    TextBoth(contrast, tokens, DESTRUCTIVE, DESTRUCTIVE_SOFT);
    TextBoth(contrast, tokens, INFO, INFO_SOFT);
  }

  lemma TextBoth(contrast: Measure, tokens: Tokens, token: Token, soft: Token)
    requires AllPass(contrast, tokens, TextOn(token, [soft]))
    ensures AllPass(contrast, tokens, On(token, HOVERED, 4.5)) && AllPass(contrast, tokens, On(token, [soft], 4.5))
  {
    AllPassAppend(contrast, tokens, On(token, TEXT_ON, 4.5), On(token, [soft], 4.5));
    OnFewer(contrast, tokens, token, TEXT_ON, HOVERED, 4.5);
  }

  lemma LinesPass(contrast: Measure, tokens: Tokens, dark: bool)
    requires AllKept(contrast, tokens, LineRules(dark)) && AllKept(contrast, tokens, SelectionRules(dark))
    ensures FittedPass(contrast, tokens, SurfaceGroups(dark))
    ensures AllPass(contrast, tokens, On(BORDER_STRONG, CONTENT, 3.0))
    ensures AllPass(contrast, tokens, On(SELECTED_BORDER, [SELECTED, CARD], 3.0))
  {
    var lines, selection := LineRules(dark), SelectionRules(dark);
    assert AllPass(contrast, tokens, lines[0]) && AllPass(contrast, tokens, lines[1]);
    AllPassAppend(contrast, tokens, On(BORDER, EVERYWHERE, if dark then 1.4 else 1.35), On(BORDER, [CARD], if dark then 1.55 else 1.45));
    assert AllPass(contrast, tokens, lines[2]) && AllPass(contrast, tokens, lines[3]);
    AllPassAppend(contrast, tokens, On(BORDER_STRONG, CONTENT, 3.0), On(BORDER_STRONG, [SECONDARY], 2.6));
    AllPassAppend(contrast, tokens, On(BAND, [CARD], if dark then 1.22 else 1.2), On(BAND, [BACKGROUND], 1.1));
    assert AllPass(contrast, tokens, selection[0]) && AllPass(contrast, tokens, selection[1]);
    AllPassAppend(contrast, tokens, On(SELECTED, CONTENT, 1.2), On(SELECTED, [CARD], if dark then 1.35 else 1.32));
  }

  lemma CodePasses(contrast: Measure, tokens: Tokens, dark: bool)
    requires Symmetric(contrast) && AllKept(contrast, tokens, CodeRules(dark))
    ensures FittedPass(contrast, tokens, CodeSurfaceGroups(dark)) && AllPass(contrast, tokens, On(CODE_FOREGROUND, [CODE_TINT], 4.5))
  {
    var code := CodeRules(dark);
    assert AllPass(contrast, tokens, code[0]) && AllPass(contrast, tokens, code[1]) && AllPass(contrast, tokens, code[2]);
    AllPassAppend(contrast, tokens, On(CODE_BORDER, CONTENT, if dark then 2.0 else 1.7), On(CODE_BORDER, [CODE], 1.3));
    AllPassAppend(contrast, tokens, On(CODE_TINT, CONTENT, if dark then 1.3 else 1.18), On(CODE_TINT, [CODE_FOREGROUND], 4.5));
    assert Passes(contrast, tokens, On(CODE_TINT, [CODE_FOREGROUND], 4.5)[0]);
    assert contrast(tokens[CODE_TINT], tokens[CODE_FOREGROUND]) == contrast(tokens[CODE_FOREGROUND], tokens[CODE_TINT]);
  }

  lemma DiffsPass(contrast: Measure, tokens: Tokens, dark: bool)
    requires AllKept(contrast, tokens, DiffFillRules(dark)) && AllKept(contrast, tokens, MarkRules())
    ensures FittedPass(contrast, tokens, DiffSurfaceGroups(dark))
  {
    var fills, marks := DiffFillRules(dark), MarkRules();
    assert AllPass(contrast, tokens, fills[0]) && AllPass(contrast, tokens, fills[1]);
    assert AllPass(contrast, tokens, marks[0]) && AllPass(contrast, tokens, marks[1]);
    assert AllPass(contrast, tokens, marks[2]) && AllPass(contrast, tokens, marks[3]);
  }

  lemma SyntaxPasses(contrast: Measure, tokens: Tokens)
    requires AllKept(contrast, tokens, SyntaxRules())
    ensures FittedPass(contrast, tokens, SyntaxGroups()) && FittedPass(contrast, tokens, DiffTextGroups())
  {
    var syntax := SyntaxRules();
    assert AllPass(contrast, tokens, syntax[0]) && AllPass(contrast, tokens, syntax[1]) && AllPass(contrast, tokens, syntax[2]);
    assert AllPass(contrast, tokens, syntax[3]) && AllPass(contrast, tokens, syntax[4]) && AllPass(contrast, tokens, syntax[5]);
    OnFewer(contrast, tokens, SYN_KEYWORD, ON_CODE, [CODE], 4.5);
    OnFewer(contrast, tokens, SYN_STRING, ON_CODE, [CODE], 4.5);
    OnFewer(contrast, tokens, SYN_NUMBER, ON_CODE, [CODE], 4.5);
    OnFewer(contrast, tokens, SYN_FUNCTION, ON_CODE, [CODE], 4.5);
    OnFewer(contrast, tokens, SYN_TYPE, ON_CODE, [CODE], 4.5);
    OnFewer(contrast, tokens, SYN_ATTRIBUTE, ON_CODE, [CODE], 4.5);
    OnFewer(contrast, tokens, SYN_KEYWORD, ON_CODE, [DIFF_INSERT, DIFF_DELETE, DIFF_INSERT_EDIT, DIFF_DELETE_EDIT], 4.5);
    OnFewer(contrast, tokens, SYN_ATTRIBUTE, ON_CODE, [DIFF_DELETE_EDIT], 4.5);
    OnFewer(contrast, tokens, SYN_STRING, ON_CODE, [DIFF_INSERT_EDIT], 4.5);
    assert AllPass(contrast, tokens, syntax[6]);
    CommentsPass(contrast, tokens);
  }

  lemma CommentsPass(contrast: Measure, tokens: Tokens)
    requires AllPass(contrast, tokens, CommentRules())
    ensures AllPass(contrast, tokens, On(SYN_COMMENT, [CODE], 4.5))
    ensures AllPass(contrast, tokens, On(SYN_COMMENT, [DIFF_INSERT, DIFF_DELETE], 4.5))
    ensures AllPass(contrast, tokens, On(SYN_COMMENT, [DIFF_INSERT_EDIT, DIFF_DELETE_EDIT], 3.2))
  {
    AllPassAppend(contrast, tokens, On(SYN_COMMENT, PLAIN_CODE, 4.5), On(SYN_COMMENT, EDITED_CODE, 3.2));
    OnFewer(contrast, tokens, SYN_COMMENT, PLAIN_CODE, [CODE], 4.5);
    OnFewer(contrast, tokens, SYN_COMMENT, PLAIN_CODE, [DIFF_INSERT, DIFF_DELETE], 4.5);
    OnFewer(contrast, tokens, SYN_COMMENT, EDITED_CODE, [DIFF_INSERT_EDIT, DIFF_DELETE_EDIT], 3.2);
  }

  // ----- what a palette keeps -----

  lemma SearchKeepsRules(k: Kit, tokens: Tokens, t: Token)
    requires IsPalette(k, tokens) && t < ALL_TOKENS && PlanOf(k, t).Searched?
    ensures AllPass(k.contrast, tokens, PlanOf(k, t).rules)
  {
    assert MadeAt(k, tokens, t);
    PlansAreGrounded(k, t);
    LightnessPasses(k, tokens, t, PlanOf(k, t));
  }

  lemma LightnessPasses(k: Kit, tokens: Tokens, t: Token, plan: Plan)
    requires plan.Searched? && About(plan.rules, t) && MadeAs(k, tokens, t, plan)
    ensures AllPass(k.contrast, tokens, plan.rules)
  {
    var targets := Targets(tokens, plan.rules);
    forall i | 0 <= i < |plan.rules|
      ensures Passes(k.contrast, tokens, plan.rules[i])
    {
      assert k.contrast(tokens[t], targets[i].surface) >= targets[i].ratio;
    }
  }

  lemma LinesKept(k: Kit, tokens: Tokens)
    requires IsPalette(k, tokens)
    ensures AllKept(k.contrast, tokens, LineRules(k.dark))
  {
    SearchKeepsRules(k, tokens, BORDER_SOFT);
    SearchKeepsRules(k, tokens, BORDER);
    SearchKeepsRules(k, tokens, BORDER_STRONG);
    SearchKeepsRules(k, tokens, BAND);
  }

  lemma SelectionKept(k: Kit, tokens: Tokens)
    requires IsPalette(k, tokens)
    ensures AllKept(k.contrast, tokens, SelectionRules(k.dark))
  {
    SearchKeepsRules(k, tokens, SELECTED);
    SearchKeepsRules(k, tokens, SELECTED_BORDER);
  }

  lemma TextsKept(k: Kit, tokens: Tokens)
    requires IsPalette(k, tokens)
    ensures AllKept(k.contrast, tokens, TextRules()) && AllKept(k.contrast, tokens, SemanticRules())
  {
    SearchKeepsRules(k, tokens, PRIMARY);
    SearchKeepsRules(k, tokens, ACTIVE);
    SearchKeepsRules(k, tokens, SUCCESS);
    SearchKeepsRules(k, tokens, WARNING);
    SearchKeepsRules(k, tokens, DESTRUCTIVE);
    SearchKeepsRules(k, tokens, INFO);
  }

  lemma CodeKept(k: Kit, tokens: Tokens)
    requires IsPalette(k, tokens)
    ensures AllKept(k.contrast, tokens, CodeRules(k.dark))
  {
    SearchKeepsRules(k, tokens, CODE);
    SearchKeepsRules(k, tokens, CODE_BORDER);
    SearchKeepsRules(k, tokens, CODE_TINT);
  }

  lemma DiffsKept(k: Kit, tokens: Tokens)
    requires IsPalette(k, tokens)
    ensures AllKept(k.contrast, tokens, DiffFillRules(k.dark)) && AllKept(k.contrast, tokens, MarkRules())
  {
    SearchKeepsRules(k, tokens, DIFF_INSERT);
    SearchKeepsRules(k, tokens, DIFF_DELETE);
    SearchKeepsRules(k, tokens, DIFF_INSERT_EDIT);
    SearchKeepsRules(k, tokens, DIFF_DELETE_EDIT);
    SearchKeepsRules(k, tokens, DIFF_INSERT_GUTTER);
    SearchKeepsRules(k, tokens, DIFF_DELETE_GUTTER);
  }

  lemma SyntaxKept(k: Kit, tokens: Tokens)
    requires IsPalette(k, tokens)
    ensures AllKept(k.contrast, tokens, SyntaxRules())
  {
    SearchKeepsRules(k, tokens, SYN_KEYWORD);
    SearchKeepsRules(k, tokens, SYN_STRING);
    SearchKeepsRules(k, tokens, SYN_NUMBER);
    SearchKeepsRules(k, tokens, SYN_FUNCTION);
    SearchKeepsRules(k, tokens, SYN_TYPE);
    SearchKeepsRules(k, tokens, SYN_ATTRIBUTE);
    SearchKeepsRules(k, tokens, SYN_COMMENT);
  }

  /** Whatever the seed and the colors: in every palette that keeps to the plan, every rule that a search is responsible for passes. */
  lemma FittedRulesPass(k: Kit, tokens: Tokens)
    requires Symmetric(k.contrast) && IsPalette(k, tokens)
    ensures forall i :: 0 <= i < |ContrastRules(k.dark)| ==> FittedPass(k.contrast, tokens, ContrastRules(k.dark)[i])
  {
    LinesKept(k, tokens);
    SelectionKept(k, tokens);
    LinesPass(k.contrast, tokens, k.dark);
    TextsKept(k, tokens);
    TextsPass(k.contrast, tokens);
    CodeKept(k, tokens);
    CodePasses(k.contrast, tokens, k.dark);
    DiffsKept(k, tokens);
    DiffsPass(k.contrast, tokens, k.dark);
    SyntaxKept(k, tokens);
    SyntaxPasses(k.contrast, tokens);
  }

  // ----- which rules rely on the seed -----

  predicate GivenFirst(k: Kit, rules: seq<Rule>) {
    forall j :: 0 <= j < |rules| ==> PlanOf(k, rules[j].first).Given?
  }

  predicate ReliesOnGiven(k: Kit, groups: seq<Group>) {
    forall i :: 0 <= i < |groups| && !groups[i].fitted ==> GivenFirst(k, groups[i].rules)
  }

  lemma OnGiven(k: Kit, token: Token, surfaces: seq<Token>, goal: real)
    requires PlanOf(k, token).Given?
    ensures GivenFirst(k, On(token, surfaces, goal))
  {
  }

  lemma TextsRelyOnGiven(k: Kit)
    ensures ReliesOnGiven(k, SeedTextGroups()) && ReliesOnGiven(k, CodeTextGroups()) && ReliesOnGiven(k, DiffTextGroups())
  {
    OnGiven(k, FOREGROUND, [BACKGROUND, CARD, SECONDARY], 7.0);
    OnGiven(k, MUTED_FOREGROUND, [BACKGROUND, CARD, SECONDARY, POPOVER], 4.5);
    OnGiven(k, PRIMARY_FOREGROUND, [PRIMARY], 4.5);
    OnGiven(k, SELECTED_FOREGROUND, HOVERED, 4.5);
    OnGiven(k, CODE_FOREGROUND, [CODE], 4.5);
    OnGiven(k, FOREGROUND, [CODE], 7.0);
    OnGiven(k, FOREGROUND, [DIFF_INSERT, DIFF_DELETE], 7.0);
    OnGiven(k, FOREGROUND, [DIFF_INSERT_EDIT, DIFF_DELETE_EDIT], 4.5);
  }

  lemma SurfacesRelyOnGiven(k: Kit)
    ensures ReliesOnGiven(k, SurfaceGroups(k.dark))
  {
    OnGiven(k, CARD, [BACKGROUND], if k.dark then 1.05 else 1.04);
    OnGiven(k, SECONDARY, [BACKGROUND], if k.dark then 1.15 else 1.08);
  }

  lemma RulesRelyOnGiven(k: Kit)
    ensures forall i :: 0 <= i < |ContrastRules(k.dark)| ==> ReliesOnGiven(k, ContrastRules(k.dark)[i])
  {
    TextsRelyOnGiven(k);
    SurfacesRelyOnGiven(k);
  }

  ghost predicate PlacedPass(k: Kit, tokens: Tokens, rules: seq<Rule>) {
    forall j :: 0 <= j < |rules| && !PlanOf(k, rules[j].first).Given? ==> Passes(k.contrast, tokens, rules[j])
  }

  /** Every checked rule on a token that the seed does not fix passes, in every palette. */
  lemma SearchedTokensPass(k: Kit, tokens: Tokens, i: nat, j: nat)
    requires Symmetric(k.contrast) && IsPalette(k, tokens)
    requires i < |ContrastRules(k.dark)| && j < |ContrastRules(k.dark)[i]|
    ensures PlacedPass(k, tokens, ContrastRules(k.dark)[i][j].rules)
  {
    FittedRulesPass(k, tokens);
    RulesRelyOnGiven(k);
    var groups := ContrastRules(k.dark)[i];
    assert FittedPass(k.contrast, tokens, groups) && ReliesOnGiven(k, groups);
    assert groups[j].fitted ==> AllPass(k.contrast, tokens, groups[j].rules);
  }

  /** The kit of the stylesheet. */
  function StyleKit(o: Optics, dark: bool, seed: Seed): Kit {
    Kit((lightness, chroma, hue) => Ok(o, lightness, chroma, hue), (a: Color, b: Color) => Contrast(o, a, b), dark, seed)
  }

  /** The contrast of the stylesheet is symmetric, so that its palettes pass. */
  lemma ContrastFits(o: Optics, dark: bool, seed: Seed)
    ensures Symmetric(StyleKit(o, dark, seed).contrast)
  {
    forall a: Color, b: Color
      ensures Contrast(o, a, b) == Contrast(o, b, a)
    {
      ContrastIsSymmetric(o, a, b);
    }
  }

  /**
   A mode of a palette of the stylesheet, for every seed: the palette that keeps to the plan, in which every rule that a search is
   responsible for passes, or nothing when no palette keeps to the plan.
   */
  method PaletteTokens(o: Optics, dark: bool, seed: Seed) returns (tokens: Option<Tokens>)
    ensures tokens.Some? ==> IsPalette(StyleKit(o, dark, seed), tokens.value)
    ensures tokens.Some? ==> forall i :: 0 <= i < |ContrastRules(dark)| ==>
      FittedPass((a: Color, b: Color) => Contrast(o, a, b), tokens.value, ContrastRules(dark)[i])
    ensures tokens.None? ==> forall whole: Tokens :: !IsPalette(StyleKit(o, dark, seed), whole)
  {
    var kit := StyleKit(o, dark, seed);
    tokens := ModeTokens(kit);
    if tokens.Some? {
      ContrastFits(o, dark, seed);
      FittedRulesPass(kit, tokens.value);
    }
  }
}
