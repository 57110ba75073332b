/**
 * Indentation consistency, line length, operator spacing and trailing whitespace; a category
 * worth 15 points, shared by both languages.
 */
module Formatting {
  import opened Wrappers
  import opened Text
  import opened Rules
  import opened Signals

  /** The indentation style of one line. */
  datatype IndentKind = Tab | TwoSpaces | FourSpaces | OtherWidth

  /** The style of a non-blank line that starts with whitespace: a tab, or by its count of
      leading blanks a multiple of 2 but not 4, a multiple of 4, or anything else. */
  function LineIndentKind(line: string): Option<IndentKind> {
    if Strip(line) != [] && IsSpace(line[0]) then
      if line[0] == '\t' then Some(Tab)
      else
        var spaces := LeadingBlanks(line);
        if spaces % 2 == 0 && spaces % 4 != 0 then Some(TwoSpaces)
        else if spaces % 4 == 0 then Some(FourSpaces)
        else Some(OtherWidth)
    else None
  }

  /** The set of styles in use. */
  function IndentStyles(lines: seq<string>): set<IndentKind>
  {
    if lines == [] then {}
    else
      var last := match LineIndentKind(lines[|lines| - 1]) case Some(k) => {k} case None => {};
      IndentStyles(lines[..|lines| - 1]) + last
  }

  /** A style is in use exactly when some line is indented in it. */
  lemma {:induction false} IndentStylesSpec(lines: seq<string>)
    ensures forall k :: k in IndentStyles(lines) <==>
      exists i :: 0 <= i < |lines| && LineIndentKind(lines[i]) == Some(k)
  {
    if lines != [] {
      var init := lines[..|lines| - 1];
      IndentStylesSpec(init);
      assert forall i :: 0 <= i < |init| ==> init[i] == lines[i];
      forall k | exists i :: 0 <= i < |lines| && LineIndentKind(lines[i]) == Some(k)
        ensures k in IndentStyles(lines)
      {
        var i :| 0 <= i < |lines| && LineIndentKind(lines[i]) == Some(k);
        if i < |init| {
          assert LineIndentKind(init[i]) == Some(k);
        }
      }
    }
  }

  /** Mixed indentation: a style is in use and it is not the only one. */
  predicate MixedIndentation(lines: seq<string>) {
    exists k :: k in IndentStyles(lines) && IndentStyles(lines) != {k}
  }

  /** The loop that collects `indentation_types`. */
  method CollectIndentStyles(lines: seq<string>) returns (indentationTypes: set<IndentKind>)
    ensures indentationTypes == IndentStyles(lines)
  {
    indentationTypes := {};
    for k := 0 to |lines|
      invariant indentationTypes == IndentStyles(lines[..k])
    {
      assert lines[..k + 1][..k] == lines[..k];
      var line := lines[k];
      if Strip(line) != [] && IsSpace(line[0]) {
        if line[0] == '\t' {
          indentationTypes := indentationTypes + {Tab};
        } else {
          var spaces := |line| - |LStripBlanks(line)|;
          if spaces % 2 == 0 && spaces % 4 != 0 {
            indentationTypes := indentationTypes + {TwoSpaces};
          } else if spaces % 4 == 0 {
            indentationTypes := indentationTypes + {FourSpaces};
          } else {
            indentationTypes := indentationTypes + {OtherWidth};
          }
        }
      }
    }
    assert lines[..|lines|] == lines;
  }

  /** `line.lstrip(' ')`: the line after its leading blanks. */
  function LStripBlanks(line: string): (r: string)
    ensures |line| - |r| == LeadingBlanks(line)
    ensures r == line[LeadingBlanks(line)..]
  {
    if line != [] && line[0] == ' ' then LStripBlanks(line[1..]) else line
  }

  /** A set has more than one element exactly when it holds an element and is not that
      element alone. */
  lemma MoreThanOne<T>(s: set<T>)
    ensures |s| > 1 <==> exists k :: k in s && s != {k}
  {
    if |s| > 1 {
      var k :| k in s;
      assert |s - {k}| == |s| - 1;
    }
    if k :| k in s && s != {k} {
      var j :| j in s && j != k;
      assert {k, j} <= s;
      SubsetCardinality({k, j}, s);
    }
  }

  /** The analyzer's test `len(indentation_types) > 1` is exactly mixed indentation. */
  lemma MixedIndentationIsManyStyles(lines: seq<string>)
    ensures MixedIndentation(lines) <==> |IndentStyles(lines)| > 1
  {
    MoreThanOne(IndentStyles(lines));
  }

  /** When every indented line uses one style, the indentation is not mixed. */
  lemma OneStyleIsConsistent(lines: seq<string>, k: IndentKind)
    requires forall i :: 0 <= i < |lines| ==> LineIndentKind(lines[i]) in {None, Some(k)}
    ensures !MixedIndentation(lines)
  {
    IndentStylesSpec(lines);
    assert IndentStyles(lines) <= {k};
  }

  /** Two lines indented in different styles make the indentation mixed. */
  lemma TwoStylesAreMixed(lines: seq<string>, i: nat, j: nat)
    requires i < |lines| && j < |lines|
    requires LineIndentKind(lines[i]).Some? && LineIndentKind(lines[j]).Some?
    requires LineIndentKind(lines[i]) != LineIndentKind(lines[j])
    ensures MixedIndentation(lines)
  {
    IndentStylesSpec(lines);
    var a, b := LineIndentKind(lines[i]).value, LineIndentKind(lines[j]).value;
    assert a in IndentStyles(lines) && b in IndentStyles(lines);
  }

  lemma SubsetCardinality<T>(a: set<T>, b: set<T>)
    requires a <= b
    ensures |a| <= |b|
  {
    assert b == a + (b - a);
  }

  /** The number of lines longer than 100 characters. */
  function LongLineCount(lines: seq<string>): (n: nat)
    ensures n <= |lines|
  {
    if lines == [] then 0
    else LongLineCount(lines[..|lines| - 1]) + (if |lines[|lines| - 1]| > 100 then 1 else 0)
  }

  /** The number of lines that `rstrip` changes. */
  function TrailingWhitespaceCount(lines: seq<string>): (n: nat)
    ensures n <= |lines|
  {
    if lines == [] then 0
    else
      var last := lines[|lines| - 1];
      TrailingWhitespaceCount(lines[..|lines| - 1]) + (if RStrip(last) != last then 1 else 0)
  }

  /** `rstrip` changes a line exactly when it ends in whitespace. */
  lemma TrailingWhitespaceIsLastSpace(line: string)
    ensures RStrip(line) != line <==> line != [] && IsSpace(line[|line| - 1])
  {
  }

  /** The number of operators found both tight and with space on one side only. */
  function InconsistentOperators(spacing: seq<OperatorSpacing>): (n: nat)
    ensures n <= |spacing|
  {
    if spacing == [] then 0
    else
      var last := spacing[|spacing| - 1];
      InconsistentOperators(spacing[..|spacing| - 1]) + (if last.tight > 0 && last.oneSided > 0 then 1 else 0)
  }

  /** The loop over the operator patterns that bumps `inconsistent_spacing`. */
  method CountInconsistentOperators(spacing: seq<OperatorSpacing>) returns (inconsistentSpacing: nat)
    ensures inconsistentSpacing == InconsistentOperators(spacing)
  {
    inconsistentSpacing := 0;
    for k := 0 to |spacing|
      invariant inconsistentSpacing == InconsistentOperators(spacing[..k])
    {
      assert spacing[..k + 1][..k] == spacing[..k];
      if spacing[k].tight > 0 && spacing[k].oneSided > 0 {
        inconsistentSpacing := inconsistentSpacing + 1;
      }
    }
    assert spacing[..|spacing|] == spacing;
  }

  /** The formatting table: mixed indentation (8), a point per 3 long lines (up to 5),
      a point per inconsistent operator (up to 5), a point per 5 lines with trailing whitespace (up to 3). */
  function FormattingRules(code: string, spacing: seq<OperatorSpacing>): seq<Rule> {
    var lines := Split(code);
    [ Flag(MixedIndentation(lines), 8),
      Rule(LongLineCount(lines) / 3, 5),
      Rule(InconsistentOperators(spacing), 5),
      Rule(TrailingWhitespaceCount(lines) / 5, 3) ]
  }

  /** The formatting table summed. */
  lemma FormattingTotal(code: string, spacing: seq<OperatorSpacing>)
    ensures Total(FormattingRules(code, spacing)) ==
      (if MixedIndentation(Split(code)) then 8 else 0) + Min(5, LongLineCount(Split(code)) / 3)
      + Min(5, InconsistentOperators(spacing)) + Min(3, TrailingWhitespaceCount(Split(code)) / 5)
  {
    var t, lines := FormattingRules(code, spacing), Split(code);
    TotalOfFour(t);
    assert Deduction(t[0]) == if MixedIndentation(lines) then 8 else 0;
    assert Deduction(t[1]) == Min(5, LongLineCount(lines) / 3);
    assert Deduction(t[2]) == Min(5, InconsistentOperators(spacing));
    assert Deduction(t[3]) == Min(3, TrailingWhitespaceCount(lines) / 5);
  }

  method AnalyzeFormatting(code: string, spacing: seq<OperatorSpacing>) returns (score: int)
    ensures 0 <= score <= 15
    ensures score == Score(15, FormattingRules(code, spacing))
  {
    FormattingTotal(code, spacing);
    score := 15;
    var lines := Split(code);
    var indentationTypes := CollectIndentStyles(lines);
    MixedIndentationIsManyStyles(lines);
    if |indentationTypes| > 1 {
      score := score - 8;
    }
    var longLines := LongLineCount(lines);
    score := score - Min(5, longLines / 3);
    var inconsistentSpacing := CountInconsistentOperators(spacing);
    score := score - Min(5, inconsistentSpacing);
    var trailingWhitespace := TrailingWhitespaceCount(lines);
    score := score - Min(3, trailingWhitespace / 5);
    assert score == 15 - Total(FormattingRules(code, spacing));
    score := if score < 0 then 0 else score;
  }

  /** Full marks exactly when the indentation is consistent, fewer than 3 lines are long,
      no operator is spaced inconsistently and fewer than 5 lines have trailing whitespace. */
  lemma FormattingPerfect(code: string, spacing: seq<OperatorSpacing>)
    ensures Score(15, FormattingRules(code, spacing)) == 15 <==>
      var lines := Split(code);
      !MixedIndentation(lines) && LongLineCount(lines) < 3
      && InconsistentOperators(spacing) == 0 && TrailingWhitespaceCount(lines) < 5
  {
    var table := FormattingRules(code, spacing);
    ScorePerfect(15, table);
    assert (forall i :: 0 <= i < |table| ==> Deduction(table[i]) == 0) <==>
      Deduction(table[0]) == 0 && Deduction(table[1]) == 0
      && Deduction(table[2]) == 0 && Deduction(table[3]) == 0;
  }
}
