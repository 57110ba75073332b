/**
 * The recommendation builders. Specific advice is gathered category by category (naming,
 * modularity, comments, formatting, reusability, best practices), each category only when its
 * score is under a threshold; the list is then padded with generic advice up to 3 entries, and
 * cut to its first 5.
 */
module Recommendations {
  import opened Wrappers
  import opened Text
  import opened Signals
  import opened Modularity
  import opened Formatting

  /** The six category scores handed to the builders. */
  datatype Breakdown = Breakdown(
    naming: int, modularity: int, comments: int,
    formatting: int, reusability: int, bestPractices: int)

  /** One recommendation; `Message` renders it as the message the analyzer returns. */
  datatype Advice =
    | CamelCaseVariables | PascalCaseComponents | SnakeCaseNames | PascalCaseClasses
    | LongFunction(name: string, lines: nat)
    | DescriptiveComments | AddDocstrings | InlineComments
    | ConsistentStyle | ConsistentIndentation
    | NamedConstants
    | EffectDependencies | AccessibilityAttributes | AvoidUnsafeHtml
    | TypeHints | HttpErrorHandling | ContextManagers
    | UseEsLint | UseLinter | UnitTests | UseTypeScript | UseVirtualEnvs

  /** The category an advice belongs to, in the order the builders visit them; 6 is generic advice. */
  function Category(a: Advice): nat {
    match a
    case CamelCaseVariables | PascalCaseComponents | SnakeCaseNames | PascalCaseClasses => 0
    case LongFunction(_, _) => 1
    case DescriptiveComments | AddDocstrings | InlineComments => 2
    case ConsistentStyle | ConsistentIndentation => 3
    case NamedConstants => 4
    case EffectDependencies | AccessibilityAttributes | AvoidUnsafeHtml
      | TypeHints | HttpErrorHandling | ContextManagers => 5
    case UseEsLint | UseLinter | UnitTests | UseTypeScript | UseVirtualEnvs => 6
  }

  /** The message text of each advice. */
  function Message(a: Advice): string {
    match a
    case CamelCaseVariables =>
      "Use camelCase for variable names (e.g., 'totalAmount' instead of 'Total_Amount' or 'TotalAmount')."
    case PascalCaseComponents =>
      "Use PascalCase for React component names (e.g., 'UserProfile' instead of 'userProfile')."
    case SnakeCaseNames =>
      "Use snake_case for variable and function names (e.g., 'total_amount' instead of 'totalAmount')."
    case PascalCaseClasses =>
      "Use PascalCase for class names (e.g., 'UserProfile' instead of 'user_profile')."
    case LongFunction(name, lines) =>
      "Function '" + name + "' is too long (" + Decimal(lines) + " lines). Consider breaking it into smaller functions."
    case DescriptiveComments =>
      "Add more descriptive comments to explain complex logic and the purpose of functions."
    case AddDocstrings =>
      "Add docstrings to functions and classes to document their purpose and parameters."
    case InlineComments =>
      "Add more inline comments to explain complex logic and implementation details."
    case ConsistentStyle =>
      "Ensure consistent indentation and spacing throughout the code."
    case ConsistentIndentation =>
      "Use consistent indentation (PEP 8 recommends 4 spaces per indentation level)."
    case NamedConstants =>
      "Extract magic numbers and strings into named constants for better maintainability."
    case EffectDependencies =>
      "Add dependency arrays to useEffect hooks to prevent unnecessary re-renders."
    case AccessibilityAttributes =>
      "Add accessibility attributes (alt, aria-* attributes, role) to improve accessibility."
    case AvoidUnsafeHtml =>
      "Avoid using innerHTML, dangerouslySetInnerHTML, or eval() to prevent security vulnerabilities."
    case TypeHints =>
      "Add type hints to function parameters and return values for better code clarity."
    case HttpErrorHandling =>
      "Implement proper error handling with HTTPException and status codes."
    case ContextManagers =>
      "Use context managers (with statement) for file operations to ensure proper resource cleanup."
    case UseEsLint =>
      "Consider using ESLint to enforce code style and catch potential issues."
    case UseLinter =>
      "Consider using a linter like flake8 or pylint to enforce code style and catch potential issues."
    case UnitTests =>
      "Implement unit tests to ensure code reliability."
    case UseTypeScript =>
      "Use TypeScript for better type safety and developer experience."
    case UseVirtualEnvs =>
      "Use virtual environments to manage dependencies."
  }

  /** The messages of a list of advice, in order. */
  function Render(advice: seq<Advice>): seq<string> {
    seq(|advice|, i requires 0 <= i < |advice| => Message(advice[i]))
  }

  const JsGenerics: seq<Advice> := [UseEsLint, UnitTests, UseTypeScript]
  const PyGenerics: seq<Advice> := [UseLinter, UnitTests, UseVirtualEnvs]

  /** Pads with `generics[:3 - len]` when fewer than 3 entries exist, then keeps the first 5. */
  function Finish(specific: seq<Advice>, generics: seq<Advice>): seq<Advice>
    requires |generics| == 3
  {
    var padded := if |specific| < 3 then specific + generics[..3 - |specific|] else specific;
    padded[..if |padded| < 5 then |padded| else 5]
  }

  /** The finished list has 3 to 5 entries: every specific advice up to the fifth is kept in place,
      and exactly as many generic ones as were missing to reach 3 follow, in their given order. */
  lemma FinishSpec(specific: seq<Advice>, generics: seq<Advice>)
    requires |generics| == 3
    ensures |Finish(specific, generics)| == if |specific| < 3 then 3 else if |specific| > 5 then 5 else |specific|
    ensures forall i :: 0 <= i < |Finish(specific, generics)| && i < |specific| ==>
      Finish(specific, generics)[i] == specific[i]
    ensures forall i :: |specific| <= i < |Finish(specific, generics)| ==>
      Finish(specific, generics)[i] == generics[i - |specific|]
  {
  }

  /** The closing step shared by both builders: extend with `generics[:3 - len]` when fewer than
      3 entries exist, then keep `[:5]`. */
  method Limit(recommendations: seq<Advice>, generalRecommendations: seq<Advice>) returns (limited: seq<Advice>)
    requires |generalRecommendations| == 3
    ensures limited == Finish(recommendations, generalRecommendations)
  {
    limited := recommendations;
    if |limited| < 3 {
      limited := limited + generalRecommendations[..3 - |limited|];
    }
    limited := limited[..if |limited| < 5 then |limited| else 5];
  }

  // ---------------------------------------------------------------------------------------
  // JavaScript

  /** Advice on naming, given only when the naming score is under 8. */
  function JsNamingAdvice(code: string, m: JsNamingMatches, b: Breakdown): (r: seq<Advice>)
    ensures AllInCategory(r, 0)
  {
    if b.naming < 8 then
      (if m.nonCamelVars > 0 then [CamelCaseVariables] else [])
      + (if UsesReact(code) && m.lowerComponents > 0 then [PascalCaseComponents] else [])
    else []
  }

  /** A header whose body runs over 30 lines and whose header names the function. */
  predicate LongNamedJsFunction(code: string, h: FunctionHeader) {
    BodyLineCount(code, h).Some? && BodyLineCount(code, h).value > 30 && h.name.Some?
  }

  /** The advice naming a long named function and its body's line count. */
  function LongJsAdvice(code: string, h: FunctionHeader): (a: Advice)
    requires LongNamedJsFunction(code, h)
    ensures a.LongFunction? && a.name == h.name.value && a.lines > 30
  {
    LongFunction(h.name.value, BodyLineCount(code, h).value)
  }

  /** The advice for the first long named function in match order, if any. */
  function FirstLongJsFunction(code: string, hs: seq<FunctionHeader>): (r: Option<Advice>)
    ensures r.Some? ==> r.value.LongFunction?
  {
    if hs == [] then None
    else if LongNamedJsFunction(code, hs[0]) then
      Some(LongJsAdvice(code, hs[0]))
    else FirstLongJsFunction(code, hs[1..])
  }

  /** The index of the first header that is long and named, or `|hs|` when none is. */
  function FirstLongJsIndex(code: string, hs: seq<FunctionHeader>): (k: nat)
    ensures k <= |hs|
    ensures k < |hs| ==> LongNamedJsFunction(code, hs[k])
    ensures forall j :: 0 <= j < k ==> !LongNamedJsFunction(code, hs[j])
  {
    if hs == [] || LongNamedJsFunction(code, hs[0]) then 0
    else 1 + FirstLongJsIndex(code, hs[1..])
  }

  /** `FirstLongJsFunction` reports the first long named function, and nothing when no function
      is both long and named. */
  lemma {:induction false} FirstLongJsFunctionSpec(code: string, hs: seq<FunctionHeader>)
    ensures FirstLongJsFunction(code, hs) ==
      var k := FirstLongJsIndex(code, hs);
      if k < |hs| then Some(LongJsAdvice(code, hs[k])) else None
  {
    if hs != [] && !LongNamedJsFunction(code, hs[0]) {
      FirstLongJsFunctionSpec(code, hs[1..]);
    }
  }

  function OptionToSeq(o: Option<Advice>): (s: seq<Advice>)
    ensures |s| <= 1
  {
    match o case Some(a) => [a] case None => []
  }

  /** Advice on function length, given only when the modularity score is under 15. */
  function JsModularityAdvice(code: string, hs: seq<FunctionHeader>, b: Breakdown): (r: seq<Advice>)
    ensures AllInCategory(r, 1) && |r| <= 1
  {
    if b.modularity < 15 then OptionToSeq(FirstLongJsFunction(code, hs)) else []
  }

  function JsCommentsAdvice(b: Breakdown): (r: seq<Advice>)
    ensures AllInCategory(r, 2)
  {
    if b.comments < 15 then [DescriptiveComments] else []
  }

  function JsFormattingAdvice(b: Breakdown): (r: seq<Advice>)
    ensures AllInCategory(r, 3)
  {
    if b.formatting < 10 then [ConsistentStyle] else []
  }

  /** Advice on magic values: a reusability score under 10 and more than 2 hard-coded values. */
  function ReusabilityAdvice(hardcodedValues: nat, b: Breakdown): (r: seq<Advice>)
    ensures AllInCategory(r, 4)
  {
    if b.reusability < 10 && hardcodedValues > 2 then [NamedConstants] else []
  }

  /** Advice on practices, given only when the best-practice score is under 15. */
  function JsPracticeAdvice(code: string, p: JsPracticeMatches, b: Breakdown): (r: seq<Advice>)
    ensures AllInCategory(r, 5)
  {
    if b.bestPractices < 15 then
      var react := UsesReact(code);
      (if react && p.effectWithoutDeps then [EffectDependencies] else [])
      + (if react && ContainsAny(code, InteractiveElements) && !ContainsAny(code, A11yAttributes)
         then [AccessibilityAttributes] else [])
      + (if ContainsAny(code, UnsafeHtml) then [AvoidUnsafeHtml] else [])
    else []
  }

  /** The specific JavaScript advice, category by category: in category order, with at most one
      long-function advice. */
  function JsAdvice(code: string, m: JsMatches, b: Breakdown): (advice: seq<Advice>)
    ensures CategoryOrdered(advice) && CategoriesAtMost(advice, 5) && AtMostOneLongFunction(advice)
  {
    var n, md := JsNamingAdvice(code, m.naming, b), JsModularityAdvice(code, m.functions, b);
    var c, f := JsCommentsAdvice(b), JsFormattingAdvice(b);
    var r, p := ReusabilityAdvice(m.hardcodedValues, b), JsPracticeAdvice(code, m.practices, b);
    SixBlocks(n, md, c, f, r, p);
    n + md + c + f + r + p
  }

  function JsRecommendations(code: string, m: JsMatches, b: Breakdown): seq<Advice> {
    Finish(JsAdvice(code, m, b), JsGenerics)
  }

  /** The scan over the function headers: the first long named function ends it. */
  method FindLongJsFunction(code: string, hs: seq<FunctionHeader>) returns (advice: Option<Advice>)
    ensures advice == FirstLongJsFunction(code, hs)
  {
    advice := None;
    var k := 0;
    while k < |hs|
      invariant k <= |hs| && advice == None
      invariant FirstLongJsFunction(code, hs[k..]) == FirstLongJsFunction(code, hs)
    {
      assert hs[k..][1..] == hs[k + 1..];
      var startPos := hs[k].end;
      var endPos := FindBodyEnd(code, startPos);
      if endPos > startPos {
        var functionBody := code[startPos..endPos];
        var lineCount := Count(functionBody, "\n") + 1;
        if lineCount > 30 {
          if hs[k].name.Some? {
            advice := Some(LongFunction(hs[k].name.value, lineCount));
            break;
          }
        }
      }
      k := k + 1;
    }
  }

  /** The naming section of `generate_js_recommendations`. */
  method JsNamingSection(code: string, m: JsNamingMatches, b: Breakdown) returns (advice: seq<Advice>)
    ensures advice == JsNamingAdvice(code, m, b)
  {
    advice := [];
    if b.naming < 8 {
      if m.nonCamelVars > 0 {
        advice := advice + [CamelCaseVariables];
      }
      if UsesReact(code) {
        if m.lowerComponents > 0 {
          advice := advice + [PascalCaseComponents];
        }
      }
    }
  }

  /** The best-practice section of `generate_js_recommendations`. */
  method JsPracticeSection(code: string, p: JsPracticeMatches, b: Breakdown) returns (advice: seq<Advice>)
    ensures advice == JsPracticeAdvice(code, p, b)
  {
    advice := [];
    if b.bestPractices < 15 {
      if UsesReact(code) {
        if p.effectWithoutDeps {
          advice := advice + [EffectDependencies];
        }
        if ContainsAny(code, InteractiveElements) && !ContainsAny(code, A11yAttributes) {
          advice := advice + [AccessibilityAttributes];
        }
      }
      if ContainsAny(code, UnsafeHtml) {
        advice := advice + [AvoidUnsafeHtml];
      }
    }
  }

  /** `generate_js_recommendations`: appends advice category by category, scanning the function
      headers until the first long named one, then pads and truncates. */
  method GenerateJsRecommendations(code: string, m: JsMatches, b: Breakdown) returns (recommendations: seq<Advice>)
    ensures recommendations == JsRecommendations(code, m, b)
  {
    recommendations := JsNamingSection(code, m.naming, b);
    ghost var expected := JsNamingAdvice(code, m.naming, b);
    if b.modularity < 15 {
      var longFunction := FindLongJsFunction(code, m.functions);
      recommendations := recommendations + OptionToSeq(longFunction);
    }
    expected := expected + JsModularityAdvice(code, m.functions, b);
    assert recommendations == expected;
    if b.comments < 15 {
      recommendations := recommendations + [DescriptiveComments];
    }
    expected := expected + JsCommentsAdvice(b);
    assert recommendations == expected;
    if b.formatting < 10 {
      recommendations := recommendations + [ConsistentStyle];
    }
    expected := expected + JsFormattingAdvice(b);
    assert recommendations == expected;
    if b.reusability < 10 {
      if m.hardcodedValues > 2 {
        recommendations := recommendations + [NamedConstants];
      }
    }
    expected := expected + ReusabilityAdvice(m.hardcodedValues, b);
    assert recommendations == expected;
    var practices := JsPracticeSection(code, m.practices, b);
    recommendations := recommendations + practices;
    recommendations := Limit(recommendations, JsGenerics);
  }

  // ---------------------------------------------------------------------------------------
  // Python

  /** Advice on naming, given only when the naming score is under 8. */
  function PyNamingAdvice(m: PyNamingMatches, b: Breakdown): (r: seq<Advice>)
    ensures AllInCategory(r, 0)
  {
    if b.naming < 8 then
      (if m.nonSnakeVars > 0 then [SnakeCaseNames] else [])
      + (if m.lowerClasses > 0 then [PascalCaseClasses] else [])
    else []
  }

  /** A `def` hit whose function runs over 30 lines. */
  predicate LongPyFunction(code: string, d: DefHeader) {
    FunctionLength(code, d) > 30
  }

  /** The advice naming a long `def` hit and its length. */
  function LongPyAdvice(code: string, d: DefHeader): (a: Advice)
    requires LongPyFunction(code, d)
    ensures a.LongFunction? && a.name == d.name && a.lines > 30
  {
    LongFunction(d.name, FunctionLength(code, d) as nat)
  }

  /** The advice for the first `def` hit in match order that runs over 30 lines, if any. */
  function FirstLongPyFunction(code: string, defs: seq<DefHeader>): (r: Option<Advice>)
    ensures r.Some? ==> r.value.LongFunction?
  {
    if defs == [] then None
    else if LongPyFunction(code, defs[0]) then
      Some(LongPyAdvice(code, defs[0]))
    else FirstLongPyFunction(code, defs[1..])
  }

  /** The index of the first `def` hit that runs over 30 lines, or `|defs|` when none does. */
  function FirstLongPyIndex(code: string, defs: seq<DefHeader>): (k: nat)
    ensures k <= |defs|
    ensures k < |defs| ==> LongPyFunction(code, defs[k])
    ensures forall j :: 0 <= j < k ==> !LongPyFunction(code, defs[j])
  {
    if defs == [] || LongPyFunction(code, defs[0]) then 0
    else 1 + FirstLongPyIndex(code, defs[1..])
  }

  /** `FirstLongPyFunction` reports the first function over 30 lines, and nothing when no function
      is over 30 lines. */
  lemma {:induction false} FirstLongPyFunctionSpec(code: string, defs: seq<DefHeader>)
    ensures FirstLongPyFunction(code, defs) ==
      var k := FirstLongPyIndex(code, defs);
      if k < |defs| then Some(LongPyAdvice(code, defs[k])) else None
  {
    if defs != [] && !LongPyFunction(code, defs[0]) {
      FirstLongPyFunctionSpec(code, defs[1..]);
    }
  }

  function PyModularityAdvice(code: string, defs: seq<DefHeader>, b: Breakdown): (r: seq<Advice>)
    ensures AllInCategory(r, 1) && |r| <= 1
  {
    if b.modularity < 15 then OptionToSeq(FirstLongPyFunction(code, defs)) else []
  }

  /** Under 15 comment points: ask for docstrings when there is no `"""`, else for inline comments. */
  function PyCommentsAdvice(code: string, b: Breakdown): (r: seq<Advice>)
    ensures AllInCategory(r, 2)
  {
    if b.comments < 15 then (if !HasDocstringMarker(code) then [AddDocstrings] else [InlineComments]) else []
  }

  /** Under 10 formatting points, and only when more than one indentation style is in use. */
  function PyFormattingAdvice(code: string, b: Breakdown): (r: seq<Advice>)
    ensures AllInCategory(r, 3)
  {
    if b.formatting < 10 && MixedIndentation(Split(code)) then [ConsistentIndentation] else []
  }

  /** Advice on practices, given only when the best-practice score is under 15. */
  function PyPracticeAdvice(code: string, p: PyPracticeMatches, b: Breakdown): (r: seq<Advice>)
    ensures AllInCategory(r, 5)
  {
    if b.bestPractices < 15 then
      var fastapi := UsesFastApi(code);
      (if fastapi && !p.paramHints && !p.returnHints then [TypeHints] else [])
      + (if fastapi && !ContainsAny(code, HttpErrors) then [HttpErrorHandling] else [])
      + (if Contains(code, OpenCall) && !p.withOpen then [ContextManagers] else [])
    else []
  }

  /** The specific Python advice, category by category: in category order, with at most one
      long-function advice. */
  function PyAdvice(code: string, m: PyMatches, b: Breakdown): (advice: seq<Advice>)
    ensures CategoryOrdered(advice) && CategoriesAtMost(advice, 5) && AtMostOneLongFunction(advice)
  {
    var n, md := PyNamingAdvice(m.naming, b), PyModularityAdvice(code, m.defs, b);
    var c, f := PyCommentsAdvice(code, b), PyFormattingAdvice(code, b);
    var r, p := ReusabilityAdvice(m.hardcodedValues, b), PyPracticeAdvice(code, m.practices, b);
    SixBlocks(n, md, c, f, r, p);
    n + md + c + f + r + p
  }

  function PyRecommendations(code: string, m: PyMatches, b: Breakdown): seq<Advice> {
    Finish(PyAdvice(code, m, b), PyGenerics)
  }

  /** The scan over the `def` hits: the first function over 30 lines ends it. */
  method FindLongPyFunction(code: string, defs: seq<DefHeader>) returns (advice: Option<Advice>)
    ensures advice == FirstLongPyFunction(code, defs)
  {
    advice := None;
    var k := 0;
    while k < |defs|
      invariant k <= |defs| && advice == None
      invariant FirstLongPyFunction(code, defs[k..]) == FirstLongPyFunction(code, defs)
    {
      assert defs[k..][1..] == defs[k + 1..];
      var functionName := defs[k].name;
      var functionLength := MeasureFunction(code, defs[k]);
      if functionLength > 30 {
        advice := Some(LongFunction(functionName, functionLength));
        break;
      }
      k := k + 1;
    }
  }

  /** The naming section of `generate_py_recommendations`. */
  method PyNamingSection(m: PyNamingMatches, b: Breakdown) returns (advice: seq<Advice>)
    ensures advice == PyNamingAdvice(m, b)
  {
    advice := [];
    if b.naming < 8 {
      if m.nonSnakeVars > 0 {
        advice := advice + [SnakeCaseNames];
      }
      if m.lowerClasses > 0 {
        advice := advice + [PascalCaseClasses];
      }
    }
  }

  /** The best-practice section of `generate_py_recommendations`. */
  method PyPracticeSection(code: string, p: PyPracticeMatches, b: Breakdown) returns (advice: seq<Advice>)
    ensures advice == PyPracticeAdvice(code, p, b)
  {
    advice := [];
    if b.bestPractices < 15 {
      if UsesFastApi(code) {
        if !p.paramHints && !p.returnHints {
          advice := advice + [TypeHints];
        }
        if !ContainsAny(code, HttpErrors) {
          advice := advice + [HttpErrorHandling];
        }
      }
      if Contains(code, OpenCall) && !p.withOpen {
        advice := advice + [ContextManagers];
      }
    }
  }

  /** The formatting section of `generate_py_recommendations`: the indentation styles are
      collected only when the formatting score is under 10. */
  method PyFormattingSection(code: string, b: Breakdown) returns (advice: seq<Advice>)
    ensures advice == PyFormattingAdvice(code, b)
  {
    advice := [];
    if b.formatting < 10 {
      var indentationTypes := CollectIndentStyles(Split(code));
      MixedIndentationIsManyStyles(Split(code));
      if |indentationTypes| > 1 {
        advice := advice + [ConsistentIndentation];
      }
    }
  }

  /** `generate_py_recommendations`: appends advice category by category, measuring each `def`
      until the first one over 30 lines, then pads and truncates. */
  method GeneratePyRecommendations(code: string, m: PyMatches, b: Breakdown) returns (recommendations: seq<Advice>)
    ensures recommendations == PyRecommendations(code, m, b)
  {
    recommendations := PyNamingSection(m.naming, b);
    ghost var expected := PyNamingAdvice(m.naming, b);
    if b.modularity < 15 {
      var longFunction := FindLongPyFunction(code, m.defs);
      recommendations := recommendations + OptionToSeq(longFunction);
    }
    expected := expected + PyModularityAdvice(code, m.defs, b);
    assert recommendations == expected;
    if b.comments < 15 {
      if !HasDocstringMarker(code) {
        recommendations := recommendations + [AddDocstrings];
      } else {
        recommendations := recommendations + [InlineComments];
      }
    }
    expected := expected + PyCommentsAdvice(code, b);
    assert recommendations == expected;
    var formatting := PyFormattingSection(code, b);
    recommendations := recommendations + formatting;
    expected := expected + PyFormattingAdvice(code, b);
    assert recommendations == expected;
    if b.reusability < 10 {
      if m.hardcodedValues > 2 {
        recommendations := recommendations + [NamedConstants];
      }
    }
    expected := expected + ReusabilityAdvice(m.hardcodedValues, b);
    assert recommendations == expected;
    var practices := PyPracticeSection(code, m.practices, b);
    recommendations := recommendations + practices;
    recommendations := Limit(recommendations, PyGenerics);
  }

  // ---------------------------------------------------------------------------------------
  // Properties of the finished lists

  /** Categories never decrease along the list. */
  predicate CategoryOrdered(s: seq<Advice>) {
    forall i, j :: 0 <= i < j < |s| ==> Category(s[i]) <= Category(s[j])
  }

  /** Every entry has category at most `c`. */
  predicate CategoriesAtMost(s: seq<Advice>, c: nat) {
    forall i :: 0 <= i < |s| ==> Category(s[i]) <= c
  }

  /** Every entry has category `c`. */
  predicate AllInCategory(s: seq<Advice>, c: nat) {
    forall i :: 0 <= i < |s| ==> Category(s[i]) == c
  }

  /** At most one entry is a long-function advice. */
  predicate AtMostOneLongFunction(s: seq<Advice>) {
    forall i, j :: 0 <= i < j < |s| && s[i].LongFunction? ==> !s[j].LongFunction?
  }

  lemma OrderedAppend(a: seq<Advice>, b: seq<Advice>, c: nat)
    requires CategoryOrdered(a) && CategoriesAtMost(a, c) && AllInCategory(b, c)
    ensures CategoryOrdered(a + b) && CategoriesAtMost(a + b, c)
  {
    forall i, j | 0 <= i < j < |a + b| ensures Category((a + b)[i]) <= Category((a + b)[j]) {
      if j >= |a| {
        assert (a + b)[j] == b[j - |a|];
      }
    }
  }

  /** Every entry has category at least `c`. */
  predicate CategoriesAtLeast(s: seq<Advice>, c: nat) {
    forall i :: 0 <= i < |s| ==> Category(s[i]) >= c
  }

  lemma AtLeastAppend(a: seq<Advice>, b: seq<Advice>, c: nat)
    requires CategoriesAtLeast(a, c) && CategoriesAtLeast(b, c)
    ensures CategoriesAtLeast(a + b, c)
  {
    forall i | 0 <= i < |a + b| ensures Category((a + b)[i]) >= c {
      if i >= |a| {
        assert (a + b)[i] == b[i - |a|];
      }
    }
  }

  /** Naming advice, then at most one modularity advice, then advice of later categories: the
      only long-function advice sits right after the naming block. */
  lemma LongFunctionInMiddle(n: seq<Advice>, md: seq<Advice>, rest: seq<Advice>)
    requires AllInCategory(n, 0) && |md| <= 1 && CategoriesAtLeast(rest, 2)
    ensures forall t :: 0 <= t < |n + md + rest| && (n + md + rest)[t].LongFunction? ==> t == |n|
    ensures AtMostOneLongFunction(n + md + rest)
  {
    var s := n + md + rest;
  }

  /** Six blocks of categories 0 to 5, with at most one entry in the modularity block, concatenated
      in order, are category-ordered and hold at most one long-function advice. */
  lemma SixBlocks(n: seq<Advice>, md: seq<Advice>, c: seq<Advice>, f: seq<Advice>, r: seq<Advice>, p: seq<Advice>)
    requires AllInCategory(n, 0) && AllInCategory(md, 1) && |md| <= 1 && AllInCategory(c, 2)
    requires AllInCategory(f, 3) && AllInCategory(r, 4) && AllInCategory(p, 5)
    ensures CategoryOrdered(n + md + c + f + r + p) && CategoriesAtMost(n + md + c + f + r + p, 5)
    ensures AtMostOneLongFunction(n + md + c + f + r + p)
  {
    OrderedAppend([], n, 0);
    assert [] + n == n;
    OrderedAppend(n, md, 1);
    OrderedAppend(n + md, c, 2);
    OrderedAppend(n + md + c, f, 3);
    OrderedAppend(n + md + c + f, r, 4);
    OrderedAppend(n + md + c + f + r, p, 5);
    AtLeastAppend(c, f, 2);
    AtLeastAppend(c + f, r, 2);
    AtLeastAppend(c + f + r, p, 2);
    LongFunctionInMiddle(n, md, c + f + r + p);
    assert n + md + c + f + r + p == n + md + (c + f + r + p);
  }

  /** Padding with generic advice (category 6) and cutting to 5 keep both properties. */
  lemma FinishKeepsOrder(s: seq<Advice>, generics: seq<Advice>)
    requires |generics| == 3 && AllInCategory(generics, 6)
    requires CategoryOrdered(s) && CategoriesAtMost(s, 5) && AtMostOneLongFunction(s)
    ensures CategoryOrdered(Finish(s, generics)) && AtMostOneLongFunction(Finish(s, generics))
  {
    var padded := if |s| < 3 then s + generics[..3 - |s|] else s;
    if |s| < 3 {
      OrderedAppend(s, generics[..3 - |s|], 6);
      forall i, j | 0 <= i < j < |padded| && padded[i].LongFunction? ensures !padded[j].LongFunction? {
        if j >= |s| {
          assert padded[j] == generics[j - |s|];
        }
      }
    }
  }

  /** What a finished recommendation list promises about itself and the specific advice it was
      built from: 3 to 5 entries, in category order, at most one long-function advice, and, when
      there were at least 3 specific entries, exactly the first five of them (all, if fewer). */
  predicate WellShaped(list: seq<Advice>, specific: seq<Advice>) {
    3 <= |list| <= 5 && CategoryOrdered(list) && AtMostOneLongFunction(list)
    && (|specific| >= 3 ==> |list| == (if |specific| < 5 then |specific| else 5)
                            && forall i :: 0 <= i < |list| ==> list[i] == specific[i])
  }

  /** Specific advice in category order, finished with three generic entries, makes a
      well-shaped list. */
  lemma FinishedShape(specific: seq<Advice>, generics: seq<Advice>)
    requires CategoryOrdered(specific) && CategoriesAtMost(specific, 5) && AtMostOneLongFunction(specific)
    requires |generics| == 3 && AllInCategory(generics, 6)
    ensures WellShaped(Finish(specific, generics), specific)
  {
    FinishSpec(specific, generics);
    FinishKeepsOrder(specific, generics);
  }

  /** The JavaScript list has 3 to 5 entries, in category order, with at most one long-function
      advice; the specific advice comes first and generic advice only fills it up to 3. */
  lemma JsRecommendationsShape(code: string, m: JsMatches, b: Breakdown)
    ensures WellShaped(JsRecommendations(code, m, b), JsAdvice(code, m, b))
  {
    FinishedShape(JsAdvice(code, m, b), JsGenerics);
  }

  lemma PyRecommendationsShape(code: string, m: PyMatches, b: Breakdown)
    ensures WellShaped(PyRecommendations(code, m, b), PyAdvice(code, m, b))
  {
    FinishedShape(PyAdvice(code, m, b), PyGenerics);
  }

  /** When every category clears its threshold, the list is the three generic messages. */
  lemma JsAllClearIsGeneric(code: string, m: JsMatches, b: Breakdown)
    requires b.naming >= 8 && b.modularity >= 15 && b.comments >= 15
    requires b.formatting >= 10 && b.reusability >= 10 && b.bestPractices >= 15
    ensures JsRecommendations(code, m, b) == JsGenerics
  {
    assert JsAdvice(code, m, b) == [];
    assert JsGenerics[..3] == JsGenerics;
  }

  lemma PyAllClearIsGeneric(code: string, m: PyMatches, b: Breakdown)
    requires b.naming >= 8 && b.modularity >= 15 && b.comments >= 15
    requires b.formatting >= 10 && b.reusability >= 10 && b.bestPractices >= 15
    ensures PyRecommendations(code, m, b) == PyGenerics
  {
    assert PyAdvice(code, m, b) == [];
    assert PyGenerics[..3] == PyGenerics;
  }
}
