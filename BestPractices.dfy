/**
 * Web-development best practices; a category worth 20 points. Every check is a flag with a
 * fixed deduction; the caps add up to more than 20, so the score is floored at 0.
 */
module BestPractices {
  import opened Text
  import opened Rules
  import opened Signals

  /** The JavaScript table: no modern syntax (5); a React `useEffect` without dependencies (3);
      a React listener added but never removed (3); async calls without `try {` (4); React
      interactive elements without accessibility attributes (3); unsafe HTML injection or `eval(` (5). */
  function JsPracticeRules(code: string, p: JsPracticeMatches): seq<Rule> {
    var react := UsesReact(code);
    [ Flag(!ContainsAny(code, ModernSyntax), 5),
      Flag(react && p.effectWithoutDeps, 3),
      Flag(react && Contains(code, ListenerAdded) && !Contains(code, ListenerRemoved), 3),
      Flag(!p.tryBlock && ContainsAny(code, AsyncCalls), 4),
      Flag(react && ContainsAny(code, InteractiveElements) && !ContainsAny(code, A11yAttributes), 3),
      Flag(ContainsAny(code, UnsafeHtml), 5) ]
  }

  /** The Python table: a `fastapi` file without parameter or return hints (4), without response
      models (3), without `HTTPException`/`status.` (3); I/O without `try:` (4); no `"""` at all (3);
      `eval(`/`exec(`/`subprocess.` (5); `open(` outside `with open(` (3). */
  function PyPracticeRules(code: string, p: PyPracticeMatches): seq<Rule> {
    var fastapi := UsesFastApi(code);
    [ Flag(fastapi && !p.paramHints && !p.returnHints, 4),
      Flag(fastapi && !ContainsAny(code, ResponseModels), 3),
      Flag(fastapi && !ContainsAny(code, HttpErrors), 3),
      Flag(!p.tryBlock && ContainsAny(code, IoCalls), 4),
      Flag(!HasDocstringMarker(code), 3),
      Flag(ContainsAny(code, UnsafeCalls), 5),
      Flag(Contains(code, OpenCall) && !p.withOpen, 3) ]
  }

  /** The JavaScript table summed: each check that fires takes its points. */
  lemma JsPracticeTotal(code: string, p: JsPracticeMatches)
    ensures Total(JsPracticeRules(code, p)) ==
      (if !ContainsAny(code, ModernSyntax) then 5 else 0)
      + (if UsesReact(code) && p.effectWithoutDeps then 3 else 0)
      + (if UsesReact(code) && Contains(code, ListenerAdded) && !Contains(code, ListenerRemoved) then 3 else 0)
      + (if !p.tryBlock && ContainsAny(code, AsyncCalls) then 4 else 0)
      + (if UsesReact(code) && ContainsAny(code, InteractiveElements) && !ContainsAny(code, A11yAttributes) then 3 else 0)
      + (if ContainsAny(code, UnsafeHtml) then 5 else 0)
  {
    var t := JsPracticeRules(code, p);
    TotalOfSix(t);
    assert Deduction(t[0]) == if !ContainsAny(code, ModernSyntax) then 5 else 0;
    assert Deduction(t[1]) == if UsesReact(code) && p.effectWithoutDeps then 3 else 0;
    assert Deduction(t[2]) == if UsesReact(code) && Contains(code, ListenerAdded) && !Contains(code, ListenerRemoved) then 3 else 0;
  }

  method AnalyzeJsPractices(code: string, p: JsPracticeMatches) returns (score: int)
    ensures 0 <= score <= 20
    ensures score == Score(20, JsPracticeRules(code, p))
  {
    var modern, react := ContainsAny(code, ModernSyntax), UsesReact(code);
    var adds, removes := Contains(code, ListenerAdded), Contains(code, ListenerRemoved);
    var asyncCall, interactive := ContainsAny(code, AsyncCalls), ContainsAny(code, InteractiveElements);
    var a11y, unsafe := ContainsAny(code, A11yAttributes), ContainsAny(code, UnsafeHtml);
    JsPracticeTotal(code, p);
    score := 20;
    if !modern {
      score := score - 5;
    }
    if react {
      if p.effectWithoutDeps {
        score := score - 3;
      }
      if adds && !removes {
        score := score - 3;
      }
    }
    if !p.tryBlock && asyncCall {
      score := score - 4;
    }
    if react {
      if interactive && !a11y {
        score := score - 3;
      }
    }
    if unsafe {
      score := score - 5;
    }
    assert score == 20 - Total(JsPracticeRules(code, p));
    score := if score < 0 then 0 else score;
  }

  /** The Python table summed. */
  lemma PyPracticeTotal(code: string, p: PyPracticeMatches)
    ensures Total(PyPracticeRules(code, p)) ==
      (if UsesFastApi(code) && !p.paramHints && !p.returnHints then 4 else 0)
      + (if UsesFastApi(code) && !ContainsAny(code, ResponseModels) then 3 else 0)
      + (if UsesFastApi(code) && !ContainsAny(code, HttpErrors) then 3 else 0)
      + (if !p.tryBlock && ContainsAny(code, IoCalls) then 4 else 0)
      + (if !HasDocstringMarker(code) then 3 else 0)
      + (if ContainsAny(code, UnsafeCalls) then 5 else 0)
      + (if Contains(code, OpenCall) && !p.withOpen then 3 else 0)
  {
    var t := PyPracticeRules(code, p);
    TotalOfSeven(t);
    assert Deduction(t[0]) == if UsesFastApi(code) && !p.paramHints && !p.returnHints then 4 else 0;
    assert Deduction(t[1]) == if UsesFastApi(code) && !ContainsAny(code, ResponseModels) then 3 else 0;
    assert Deduction(t[2]) == if UsesFastApi(code) && !ContainsAny(code, HttpErrors) then 3 else 0;
    assert Deduction(t[3]) == if !p.tryBlock && ContainsAny(code, IoCalls) then 4 else 0;
  }

  method AnalyzePyPractices(code: string, p: PyPracticeMatches) returns (score: int)
    ensures 0 <= score <= 20
    ensures score == Score(20, PyPracticeRules(code, p))
  {
    var fastapi, responseModel := UsesFastApi(code), ContainsAny(code, ResponseModels);
    var httpErrors, ioCall := ContainsAny(code, HttpErrors), ContainsAny(code, IoCalls);
    var docstring, unsafe := HasDocstringMarker(code), ContainsAny(code, UnsafeCalls);
    var opens := Contains(code, OpenCall);
    PyPracticeTotal(code, p);
    score := 20;
    if fastapi {
      if !p.paramHints && !p.returnHints {
        score := score - 4;
      }
      if !responseModel {
        score := score - 3;
      }
      if !httpErrors {
        score := score - 3;
      }
    }
    if !p.tryBlock && ioCall {
      score := score - 4;
    }
    if !docstring {
      score := score - 3;
    }
    if unsafe {
      score := score - 5;
    }
    if opens && !p.withOpen {
      score := score - 3;
    }
    assert score == 20 - Total(PyPracticeRules(code, p));
    score := if score < 0 then 0 else score;
  }

  /** Full marks exactly when no JavaScript practice check fires. */
  lemma JsPracticesPerfect(code: string, p: JsPracticeMatches)
    ensures Score(20, JsPracticeRules(code, p)) == 20 <==>
      ContainsAny(code, ModernSyntax) && !ContainsAny(code, UnsafeHtml) &&
      (p.tryBlock || !ContainsAny(code, AsyncCalls)) &&
      (UsesReact(code) ==> !p.effectWithoutDeps
                           && (Contains(code, ListenerAdded) ==> Contains(code, ListenerRemoved))
                           && (ContainsAny(code, InteractiveElements) ==> ContainsAny(code, A11yAttributes)))
  {
    var t := JsPracticeRules(code, p);
    ScorePerfect(20, t);
    assert (forall i :: 0 <= i < |t| ==> Deduction(t[i]) == 0) <==>
      Deduction(t[0]) == 0 && Deduction(t[1]) == 0 && Deduction(t[2]) == 0 &&
      Deduction(t[3]) == 0 && Deduction(t[4]) == 0 && Deduction(t[5]) == 0;
  }

  /** Unsafe HTML injection alone costs 5 points: such a file scores at most 15. */
  lemma JsUnsafeHtmlCostsFive(code: string, p: JsPracticeMatches)
    requires ContainsAny(code, UnsafeHtml)
    ensures Score(20, JsPracticeRules(code, p)) <= 15
  {
    var t := JsPracticeRules(code, p);
    TotalOfSix(t);
  }

  /** Outside React only three checks apply (5 + 4 + 5), so the score never drops below 6. */
  lemma JsWithoutReactAtLeastSix(code: string, p: JsPracticeMatches)
    requires !UsesReact(code)
    ensures Score(20, JsPracticeRules(code, p)) >= 6
  {
    var t := JsPracticeRules(code, p);
    TotalOfSix(t);
  }

  /** Full marks exactly when no Python practice check fires. */
  lemma PyPracticesPerfect(code: string, p: PyPracticeMatches)
    ensures Score(20, PyPracticeRules(code, p)) == 20 <==>
      HasDocstringMarker(code) && !ContainsAny(code, UnsafeCalls) &&
      (p.tryBlock || !ContainsAny(code, IoCalls)) &&
      (Contains(code, OpenCall) ==> p.withOpen) &&
      (UsesFastApi(code) ==> (p.paramHints || p.returnHints)
                             && ContainsAny(code, ResponseModels) && ContainsAny(code, HttpErrors))
  {
    var t := PyPracticeRules(code, p);
    ScorePerfect(20, t);
    assert (forall i :: 0 <= i < |t| ==> Deduction(t[i]) == 0) <==>
      Deduction(t[0]) == 0 && Deduction(t[1]) == 0 && Deduction(t[2]) == 0 && Deduction(t[3]) == 0 &&
      Deduction(t[4]) == 0 && Deduction(t[5]) == 0 && Deduction(t[6]) == 0;
  }

  /** A bare `open(` with no `try:` and no `with open(` is charged twice, as unguarded I/O and as
      a missing context manager: at most 13 points remain. */
  lemma PyBareOpenCostsSeven(code: string, p: PyPracticeMatches)
    requires Contains(code, OpenCall) && !p.tryBlock && !p.withOpen
    ensures Score(20, PyPracticeRules(code, p)) <= 13
  {
    assert ContainsAny(code, IoCalls) by {
      assert IoCalls[1] == OpenCall;
    }
    var t := PyPracticeRules(code, p);
    TotalOfSeven(t);
  }

  /** Without `fastapi` only four checks apply (4 + 3 + 5 + 3), so the score never drops below 5. */
  lemma PyWithoutFastApiAtLeastFive(code: string, p: PyPracticeMatches)
    requires !UsesFastApi(code)
    ensures Score(20, PyPracticeRules(code, p)) >= 5
  {
    var t := PyPracticeRules(code, p);
    TotalOfSeven(t);
  }
}
