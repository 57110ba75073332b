/** Identifier-casing checks; a category worth 10 points. */
module Naming {
  import opened Rules
  import opened Signals

  /** The JavaScript naming table: camelCase bindings (3), PascalCase components when React
      is in use (3), UPPER_CASE literal constants (2), mixed styles (2). */
  function JsNamingRules(code: string, m: JsNamingMatches): seq<Rule> {
    [ Rule(m.nonCamelVars, 3),
      Rule(if UsesReact(code) then m.lowerComponents else 0, 3),
      Rule(m.nonCapsConstants, 2),
      Rule(m.mixedStyles, 2) ]
  }

  /** The Python naming table: snake_case targets (3), lower-case constants only when a
      `__main__` guard is present (2), CapWords classes (3), mixed styles (2). */
  function PyNamingRules(m: PyNamingMatches): seq<Rule> {
    [ Rule(m.nonSnakeVars, 3),
      Rule(if m.mainGuard then m.lowerConstants else 0, 2),
      Rule(m.lowerClasses, 3),
      Rule(m.mixedStyles, 2) ]
  }

  method AnalyzeJsNaming(code: string, m: JsNamingMatches) returns (score: int)
    ensures 0 <= score <= 10
    ensures score == Score(10, JsNamingRules(code, m))
  {
    var react := UsesReact(code);
    ghost var t := [Rule(m.nonCamelVars, 3), Rule(if react then m.lowerComponents else 0, 3),
                    Rule(m.nonCapsConstants, 2), Rule(m.mixedStyles, 2)];
    assert t == JsNamingRules(code, m);
    TotalOfFour(t);
    score := 10;
    if m.nonCamelVars > 0 {
      score := score - Min(3, m.nonCamelVars);
    }
    assert score == 10 - Deduction(t[0]);
    if react {
      if m.lowerComponents > 0 {
        score := score - Min(3, m.lowerComponents);
      }
    }
    assert score == 10 - Deduction(t[0]) - Deduction(t[1]);
    if m.nonCapsConstants > 0 {
      score := score - Min(2, m.nonCapsConstants);
    }
    assert score == 10 - Deduction(t[0]) - Deduction(t[1]) - Deduction(t[2]);
    if m.mixedStyles > 0 {
      score := score - Min(2, m.mixedStyles);
    }
    assert score == 10 - Total(t);
    score := if score < 0 then 0 else score;
  }

  method AnalyzePyNaming(m: PyNamingMatches) returns (score: int)
    ensures 0 <= score <= 10
    ensures score == Score(10, PyNamingRules(m))
  {
    ghost var t := [Rule(m.nonSnakeVars, 3), Rule(if m.mainGuard then m.lowerConstants else 0, 2),
                    Rule(m.lowerClasses, 3), Rule(m.mixedStyles, 2)];
    assert t == PyNamingRules(m);
    TotalOfFour(t);
    score := 10;
    if m.nonSnakeVars > 0 {
      score := score - Min(3, m.nonSnakeVars);
    }
    assert score == 10 - Deduction(t[0]);
    if m.lowerConstants > 0 && m.mainGuard {
      score := score - Min(2, m.lowerConstants);
    }
    assert score == 10 - Deduction(t[0]) - Deduction(t[1]);
    if m.lowerClasses > 0 {
      score := score - Min(3, m.lowerClasses);
    }
    assert score == 10 - Deduction(t[0]) - Deduction(t[1]) - Deduction(t[2]);
    if m.mixedStyles > 0 {
      score := score - Min(2, m.mixedStyles);
    }
    assert score == 10 - Total(t);
    score := if score < 0 then 0 else score;
  }

  /** Full marks exactly when no JavaScript naming pattern counts against the file. */
  lemma JsNamingPerfect(code: string, m: JsNamingMatches)
    ensures Score(10, JsNamingRules(code, m)) == 10 <==>
      m.nonCamelVars == 0 && (!UsesReact(code) || m.lowerComponents == 0) &&
      m.nonCapsConstants == 0 && m.mixedStyles == 0
  {
    var t := JsNamingRules(code, m);
    ScorePerfect(10, t);
    assert (forall i :: 0 <= i < |t| ==> Deduction(t[i]) == 0) <==>
      Deduction(t[0]) == 0 && Deduction(t[1]) == 0 && Deduction(t[2]) == 0 && Deduction(t[3]) == 0;
  }

  /** The caps add up to the maximum, so the floor at 0 never applies: the score is 10 minus
      the capped deductions. */
  lemma JsNamingNeverFloors(code: string, m: JsNamingMatches)
    ensures Score(10, JsNamingRules(code, m)) ==
      10 - Min(3, m.nonCamelVars) - (if UsesReact(code) then Min(3, m.lowerComponents) else 0)
         - Min(2, m.nonCapsConstants) - Min(2, m.mixedStyles)
  {
    var t := JsNamingRules(code, m);
    assert CapSum(t[3..]) == 2 && CapSum(t[2..]) == 4 && CapSum(t[1..]) == 7 by {
      assert t[3..][1..] == [] && t[2..][1..] == t[3..] && t[1..][1..] == t[2..];
    }
    NoFloor(10, t);
    TotalOfFour(t);
  }

  /** More hits of any naming pattern never raise the score. */
  lemma JsNamingMonotone(code: string, m: JsNamingMatches, more: JsNamingMatches)
    requires m.nonCamelVars <= more.nonCamelVars && m.lowerComponents <= more.lowerComponents
    requires m.nonCapsConstants <= more.nonCapsConstants && m.mixedStyles <= more.mixedStyles
    ensures Score(10, JsNamingRules(code, more)) <= Score(10, JsNamingRules(code, m))
  {
    ScoreMonotone(10, JsNamingRules(code, m), JsNamingRules(code, more));
  }

  /** Full marks exactly when no Python naming pattern counts against the file; lower-case
      constants count only beside a `__main__` guard. */
  lemma PyNamingPerfect(m: PyNamingMatches)
    ensures Score(10, PyNamingRules(m)) == 10 <==>
      m.nonSnakeVars == 0 && (!m.mainGuard || m.lowerConstants == 0) &&
      m.lowerClasses == 0 && m.mixedStyles == 0
  {
    var t := PyNamingRules(m);
    ScorePerfect(10, t);
    assert (forall i :: 0 <= i < |t| ==> Deduction(t[i]) == 0) <==>
      Deduction(t[0]) == 0 && Deduction(t[1]) == 0 && Deduction(t[2]) == 0 && Deduction(t[3]) == 0;
  }

  /** The Python caps also add up to 10: the score is 10 minus the capped deductions. */
  lemma PyNamingNeverFloors(m: PyNamingMatches)
    ensures Score(10, PyNamingRules(m)) ==
      10 - Min(3, m.nonSnakeVars) - (if m.mainGuard then Min(2, m.lowerConstants) else 0)
         - Min(3, m.lowerClasses) - Min(2, m.mixedStyles)
  {
    var t := PyNamingRules(m);
    assert CapSum(t[3..]) == 2 && CapSum(t[2..]) == 5 && CapSum(t[1..]) == 7 by {
      assert t[3..][1..] == [] && t[2..][1..] == t[3..] && t[1..][1..] == t[2..];
    }
    NoFloor(10, t);
    TotalOfFour(t);
  }
}
