/**
 * Comment density and documentation coverage; a category worth 20 points. The float ratios
 * `comment_lines / total_lines`, `docstrings / (defs + classes)` and `jsdocs / functions`
 * are compared by cross-multiplying, which decides every band exactly as the rationals do.
 */
module Comments {
  import opened Text
  import opened Rules
  import opened Signals

  // A line whose stripped text starts with `//`, `#`, `/*` or `*`.
  predicate IsCommentLine(line: string) {
    var stripped := Strip(line);
    StartsWith(stripped, "//") || StartsWith(stripped, "#")
    || StartsWith(stripped, "/*") || StartsWith(stripped, "*")
  }

  /** The number of comment lines. */
  function CommentLineCount(lines: seq<string>): (n: nat)
    ensures n <= |lines|
  {
    if lines == [] then 0
    else CommentLineCount(lines[..|lines| - 1]) + (if IsCommentLine(lines[|lines| - 1]) then 1 else 0)
  }

  /** The loop that bumps `comment_lines` once per comment line. */
  method CountCommentLines(lines: seq<string>) returns (commentLines: nat)
    ensures commentLines == CommentLineCount(lines)
  {
    commentLines := 0;
    for k := 0 to |lines|
      invariant commentLines == CommentLineCount(lines[..k])
    {
      assert lines[..k + 1][..k] == lines[..k];
      var stripped := Strip(lines[k]);
      if StartsWith(stripped, "//") || StartsWith(stripped, "#")
         || StartsWith(stripped, "/*") || StartsWith(stripped, "*") {
        commentLines := commentLines + 1;
      }
    }
    assert lines[..|lines|] == lines;
  }

  /** The comment-density band of `c` comment lines out of `t` lines: below 5%, below 10%,
      below 15%, above 40%, or in between; the ratio is 0 when there are no lines. */
  function RatioPenalty(c: nat, t: nat): nat {
    if t == 0 || 20 * c < t then 15
    else if 10 * c < t then 10
    else if 20 * c < 3 * t then 5
    else if 5 * c > 2 * t then 5
    else 0
  }

  lemma ScaleLess(x: real, y: real, k: real)
    requires k > 0.0
    ensures x < y <==> x * k < y * k
  {
    assert x * k - y * k == (x - y) * k;
    if x < y {
      assert (y - x) * k > 0.0;
    } else {
      assert (x - y) * k >= 0.0;
    }
  }

  /** `c / t` against the fraction `num / den`, decided by cross-multiplying. */
  lemma CrossMultiply(c: nat, t: nat, num: nat, den: nat)
    requires t > 0 && den > 0
    ensures c as real / t as real < num as real / den as real <==> den * c < num * t
    ensures c as real / t as real > num as real / den as real <==> den * c > num * t
  {
    var r, q := c as real / t as real, num as real / den as real;
    var k := (t * den) as real;
    assert r * k == (c * den) as real;
    assert q * k == (num * t) as real;
    ScaleLess(r, q, k);
    ScaleLess(q, r, k);
  }

  /** The banding on integers is the banding of the exact ratio. */
  lemma RatioPenaltyIsBanding(c: nat, t: nat)
    requires t > 0
    ensures var ratio := c as real / t as real;
      RatioPenalty(c, t) ==
        if ratio < 0.05 then 15
        else if ratio < 0.1 then 10
        else if ratio < 0.15 then 5
        else if ratio > 0.4 then 5
        else 0
  {
    assert 0.05 == 1 as real / 20 as real && 0.1 == 1 as real / 10 as real;
    assert 0.15 == 3 as real / 20 as real && 0.4 == 2 as real / 5 as real;
    CrossMultiply(c, t, 1, 20);
    CrossMultiply(c, t, 1, 10);
    CrossMultiply(c, t, 3, 20);
    CrossMultiply(c, t, 2, 5);
  }

  /** The documentation penalty: for text mentioning `.py`, docstring pairs against `def` and
      `class` keywords (below 1/2 costs 10, below 4/5 costs 5); otherwise JSDoc blocks against
      function declarations (below 3/10 costs 10, below 3/5 costs 5). No declarations, no penalty. */
  function DocPenalty(code: string, m: DocMatches): nat {
    if MentionsPy(code) then
      var docstrings := Count(code, "\"\"\"") / 2;
      var declared := m.defKeywords + m.classKeywords;
      if declared == 0 then 0
      else if 2 * docstrings < declared then 10
      else if 5 * docstrings < 4 * declared then 5
      else 0
    else
      var functions := m.jsFunctionDecls;
      if functions == 0 then 0
      else if 10 * m.jsdocBlocks < 3 * functions then 10
      else if 5 * m.jsdocBlocks < 3 * functions then 5
      else 0
  }

  /** The documentation bands on integers are the bands of the exact ratios. */
  lemma DocPenaltyIsBanding(code: string, m: DocMatches)
    ensures MentionsPy(code) && m.defKeywords + m.classKeywords > 0 ==>
      var ratio := (Count(code, "\"\"\"") / 2) as real / (m.defKeywords + m.classKeywords) as real;
      DocPenalty(code, m) == if ratio < 0.5 then 10 else if ratio < 0.8 then 5 else 0
    ensures !MentionsPy(code) && m.jsFunctionDecls > 0 ==>
      var ratio := m.jsdocBlocks as real / m.jsFunctionDecls as real;
      DocPenalty(code, m) == if ratio < 0.3 then 10 else if ratio < 0.6 then 5 else 0
    ensures MentionsPy(code) && m.defKeywords + m.classKeywords == 0 ==> DocPenalty(code, m) == 0
    ensures !MentionsPy(code) && m.jsFunctionDecls == 0 ==> DocPenalty(code, m) == 0
  {
    if MentionsPy(code) && m.defKeywords + m.classKeywords > 0 {
      var d, n := Count(code, "\"\"\"") / 2, m.defKeywords + m.classKeywords;
      assert 0.5 == 1 as real / 2 as real && 0.8 == 4 as real / 5 as real;
      CrossMultiply(d, n, 1, 2);
      CrossMultiply(d, n, 4, 5);
    }
    if !MentionsPy(code) && m.jsFunctionDecls > 0 {
      var j, f := m.jsdocBlocks, m.jsFunctionDecls;
      assert 0.3 == 3 as real / 10 as real && 0.6 == 3 as real / 5 as real;
      CrossMultiply(j, f, 3, 10);
      CrossMultiply(j, f, 3, 5);
    }
  }

  /** The comment table: the density band (up to 15) and the documentation band (up to 10). */
  function CommentRules(code: string, m: DocMatches): seq<Rule> {
    var lines := Split(code);
    [Rule(RatioPenalty(CommentLineCount(lines), |lines|), 15), Rule(DocPenalty(code, m), 10)]
  }

  method AnalyzeComments(code: string, m: DocMatches) returns (score: int)
    ensures 0 <= score <= 20
    ensures score == Score(20, CommentRules(code, m))
  {
    ghost var table := CommentRules(code, m);
    TotalOfTwo(table);
    score := 20;
    var lines := Split(code);
    var totalLines := |lines|;
    var commentLines := CountCommentLines(lines);

    // comment_ratio < 0.05, < 0.1, < 0.15, > 0.4, with comment_ratio = 0 for no lines
    if totalLines == 0 || 20 * commentLines < totalLines {
      score := score - 15;
    } else if 10 * commentLines < totalLines {
      score := score - 10;
    } else if 20 * commentLines < 3 * totalLines {
      score := score - 5;
    } else if 5 * commentLines > 2 * totalLines {
      score := score - 5;
    }

    if MentionsPy(code) {
      var docstringCount := Count(code, "\"\"\"") / 2;
      var functionCount := m.defKeywords;
      var classCount := m.classKeywords;
      if functionCount + classCount > 0 {
        // docstring_ratio < 0.5, < 0.8
        if 2 * docstringCount < functionCount + classCount {
          score := score - 10;
        } else if 5 * docstringCount < 4 * (functionCount + classCount) {
          score := score - 5;
        }
      }
    } else {
      var jsdocCount := m.jsdocBlocks;
      var functionCount := m.jsFunctionDecls;
      if functionCount > 0 {
        // jsdoc_ratio < 0.3, < 0.6
        if 10 * jsdocCount < 3 * functionCount {
          score := score - 10;
        } else if 5 * jsdocCount < 3 * functionCount {
          score := score - 5;
        }
      }
    }
    score := if score < 0 then 0 else score;
  }

  /** Empty text is one empty line with no comment: ratio 0 costs 15, and with no function
      declaration to document the score is exactly 5. */
  lemma EmptyTextScoresFive(m: DocMatches)
    requires m.jsFunctionDecls == 0
    ensures Score(20, CommentRules("", m)) == 5
  {
    var table := CommentRules("", m);
    assert Split("") == [""];
    assert CommentLineCount([""]) == 0 by {
      assert [""][..0] == [];
      assert Strip("") == "";
    }
    assert !MentionsPy("");
    TotalOfTwo(table);
  }

  /** Python text (one that mentions `.py`) with a `def` or `class` and no docstring marker loses
      the full 10 for documentation, so it scores at most 10. */
  lemma UndocumentedPythonAtMostTen(code: string, m: DocMatches)
    requires MentionsPy(code) && !HasDocstringMarker(code)
    requires m.defKeywords + m.classKeywords > 0
    ensures Score(20, CommentRules(code, m)) <= 10
  {
    CountPositive(code, "\"\"\"");
    TotalOfTwo(CommentRules(code, m));
  }
}
