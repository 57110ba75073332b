/**
 * Function length and nesting; a category worth 20 points. JavaScript bodies are delimited
 * by counting braces from the header's `{`; Python bodies by scanning for the next line that
 * starts in column 0. Lengths fall into one of three buckets, each with its own capped penalty.
 */
module Modularity {
  import opened Wrappers
  import opened Text
  import opened Rules
  import opened Signals

  // ---------------------------------------------------------------- length buckets

  /** Counters of functions longer than 15, 30 and 50 lines; the buckets are tried longest first. */
  datatype LengthTally = LengthTally(long: nat, veryLong: nat, extremelyLong: nat)

  /** Adds one function of `n` lines to the counters. */
  function AddLength(t: LengthTally, n: int): LengthTally {
    if n > 50 then t.(extremelyLong := t.extremelyLong + 1)
    else if n > 30 then t.(veryLong := t.veryLong + 1)
    else if n > 15 then t.(long := t.long + 1)
    else t
  }

  /** The counters after all of `lengths`, in order. */
  function TallyOf(lengths: seq<int>): LengthTally
  {
    if lengths == [] then LengthTally(0, 0, 0)
    else AddLength(TallyOf(lengths[..|lengths| - 1]), lengths[|lengths| - 1])
  }

  /** The number of `lengths` strictly between `lo` and `hi` (`hi < 0` stands for no upper bound). */
  function CountBetween(lengths: seq<int>, lo: int, hi: int): nat
  {
    if lengths == [] then 0
    else
      var n := lengths[|lengths| - 1];
      CountBetween(lengths[..|lengths| - 1], lo, hi) + (if lo < n && (hi < 0 || n <= hi) then 1 else 0)
  }

  /** The three buckets are disjoint: each counter counts exactly the lengths in its own range. */
  lemma {:induction false} TallyBuckets(lengths: seq<int>)
    ensures TallyOf(lengths).extremelyLong == CountBetween(lengths, 50, -1)
    ensures TallyOf(lengths).veryLong == CountBetween(lengths, 30, 50)
    ensures TallyOf(lengths).long == CountBetween(lengths, 15, 30)
    ensures TallyOf(lengths).long + TallyOf(lengths).veryLong + TallyOf(lengths).extremelyLong
              == CountBetween(lengths, 15, -1)
  {
    if lengths != [] {
      TallyBuckets(lengths[..|lengths| - 1]);
    }
  }

  /** Long functions cost 2 each up to 10, very long 3 each up to 15, extremely long 5 each up to 20. */
  function LengthRules(t: LengthTally): seq<Rule> {
    [Rule(2 * t.long, 10), Rule(3 * t.veryLong, 15), Rule(5 * t.extremelyLong, 20)]
  }

  // ---------------------------------------------------------------- JavaScript bodies

  /** Change of the brace depth at one character. */
  function BraceStep(c: char): int {
    if c == '{' then 1 else if c == '}' then -1 else 0
  }

  /** Opening minus closing braces in `s`. */
  function Net(s: string): int
  {
    if s == [] then 0 else Net(s[..|s| - 1]) + BraceStep(s[|s| - 1])
  }

  /** The scan from offset `i` at brace depth `depth` for the `}` that brings the depth to 0. */
  function CloseFrom(code: string, i: nat, depth: nat): (r: Option<nat>)
    requires depth >= 1
    ensures r.Some? ==> i <= r.value < |code| && code[r.value] == '}'
    decreases |code| - i
  {
    if i >= |code| then None
    else if code[i] == '{' then CloseFrom(code, i + 1, depth + 1)
    else if code[i] == '}' then (if depth == 1 then Some(i) else CloseFrom(code, i + 1, depth - 1))
    else CloseFrom(code, i + 1, depth)
  }

  /** Where the body that starts at `start` (just after its header's `{`) is closed, if anywhere. */
  function ClosingBrace(code: string, start: nat): Option<nat> {
    CloseFrom(code, start, 1)
  }

  lemma NetStep(code: string, start: nat, i: nat)
    requires start <= i < |code|
    ensures Net(code[start..i + 1]) == Net(code[start..i]) + BraceStep(code[i])
  {
    assert code[start..i + 1][..i - start] == code[start..i];
  }

  lemma {:induction false} CloseFromSpec(code: string, start: nat, i: nat, depth: nat)
    requires start <= i <= |code| && depth >= 1
    requires depth == 1 + Net(code[start..i])
    requires forall k :: start <= k <= i ==> 1 + Net(code[start..k]) >= 1
    ensures match CloseFrom(code, i, depth)
      case Some(e) =>
        i <= e < |code| && code[e] == '}' && 1 + Net(code[start..e + 1]) == 0
        && forall k :: start <= k <= e ==> 1 + Net(code[start..k]) >= 1
      case None =>
        forall k :: start <= k <= |code| ==> 1 + Net(code[start..k]) >= 1
    decreases |code| - i
  {
    if i < |code| {
      NetStep(code, start, i);
      if code[i] == '}' && depth == 1 {
      } else {
        var d := if code[i] == '{' then depth + 1 else if code[i] == '}' then depth - 1 else depth;
        assert CloseFrom(code, i, depth) == CloseFrom(code, i + 1, d);
        CloseFromSpec(code, start, i + 1, d);
      }
    }
  }

  /** The body ends at the first `}` at which the depth, 1 just after the header, returns to 0;
      when there is none, the depth stays at least 1 to the end of the text. */
  lemma ClosingBraceSpec(code: string, start: nat)
    ensures match ClosingBrace(code, start)
      case Some(e) =>
        start <= e < |code| && code[e] == '}' && 1 + Net(code[start..e + 1]) == 0
        && forall k :: start <= k <= e ==> 1 + Net(code[start..k]) >= 1
      case None =>
        forall k :: start <= k <= |code| ==> 1 + Net(code[start..k]) >= 1
  {
    if start <= |code| {
      assert code[start..start] == [];
      CloseFromSpec(code, start, start, 1);
    }
  }

  /** The brace scan of one header: `end_pos` is the closing brace, or `start` when none is found. */
  method FindBodyEnd(code: string, start: nat) returns (endPos: nat)
    ensures endPos == match ClosingBrace(code, start) case Some(e) => e case None => start
  {
    var braceCount := 1;
    endPos := start;
    var i := start;
    while i < |code|
      invariant braceCount >= 1 && endPos == start
      invariant CloseFrom(code, i, braceCount) == ClosingBrace(code, start)
      decreases |code| - i
    {
      if code[i] == '{' {
        braceCount := braceCount + 1;
      } else if code[i] == '}' {
        braceCount := braceCount - 1;
        if braceCount == 0 {
          endPos := i;
          break;
        }
      }
      i := i + 1;
    }
  }

  /** The body text after a header, when its closing brace lies beyond it. */
  function Body(code: string, h: FunctionHeader): Option<string> {
    match ClosingBrace(code, h.end)
    case Some(e) => if e > h.end then Some(code[h.end..e]) else None
    case None => None
  }

  /** `body.count('\n') + 1` for a header that has a body. */
  function BodyLineCount(code: string, h: FunctionHeader): Option<nat> {
    match Body(code, h)
    case Some(b) => Some(Count(b, "\n") + 1)
    case None => None
  }

  /** A body's line count is the number of lines the body splits into; a body is never empty. */
  lemma BodyLineCountIsLines(code: string, h: FunctionHeader)
    ensures BodyLineCount(code, h).Some? <==> Body(code, h).Some?
    ensures Body(code, h).Some? ==>
      Body(code, h).value != [] && BodyLineCount(code, h).value == |Split(Body(code, h).value)|
  {
    ClosingBraceSpec(code, h.end);
    if Body(code, h).Some? {
      SplitCount(Body(code, h).value);
    }
  }

  /** The line counts of the headers that have a body, in match order. */
  function JsBodyLengths(code: string, hs: seq<FunctionHeader>): seq<int>
  {
    if hs == [] then []
    else
      var last := match BodyLineCount(code, hs[|hs| - 1]) case Some(n) => [n] case None => [];
      JsBodyLengths(code, hs[..|hs| - 1]) + last
  }

  /** `count('=>') - count('=>{')` beyond 3: the callback-nesting proxy. */
  function CallbackExcess(code: string): nat {
    var depth := Count(code, "=>") - Count(code, "=>{");
    if depth > 3 then depth - 3 else 0
  }

  /** Half the excess of `<` over `</` beyond 10, when React is in use: the component-nesting proxy. */
  function ComponentExcess(code: string): nat {
    if UsesReact(code) then
      var nesting := Count(code, "<") - Count(code, "</");
      if nesting > 10 then (nesting - 10) / 2 else 0
    else 0
  }

  /** The JavaScript modularity table. */
  function JsModularityRules(code: string, hs: seq<FunctionHeader>): seq<Rule> {
    LengthRules(TallyOf(JsBodyLengths(code, hs)))
      + [Rule(CallbackExcess(code), 5), Rule(ComponentExcess(code), 5)]
  }

  /** The loop over the function headers: find each body and bump the counter of its bucket. */
  method TallyJsBodies(code: string, hs: seq<FunctionHeader>) returns (t: LengthTally)
    ensures t == TallyOf(JsBodyLengths(code, hs))
  {
    var longFunctions, veryLongFunctions, extremelyLongFunctions := 0, 0, 0;
    for k := 0 to |hs|
      invariant LengthTally(longFunctions, veryLongFunctions, extremelyLongFunctions)
                == TallyOf(JsBodyLengths(code, hs[..k]))
    {
      assert hs[..k + 1][..k] == hs[..k];
      var startPos := hs[k].end;
      var endPos := FindBodyEnd(code, startPos);
      if endPos > startPos {
        var functionBody := code[startPos..endPos];
        var lineCount := Count(functionBody, "\n") + 1;
        assert JsBodyLengths(code, hs[..k + 1]) == JsBodyLengths(code, hs[..k]) + [lineCount];
        if lineCount > 50 {
          extremelyLongFunctions := extremelyLongFunctions + 1;
        } else if lineCount > 30 {
          veryLongFunctions := veryLongFunctions + 1;
        } else if lineCount > 15 {
          longFunctions := longFunctions + 1;
        }
      } else {
        assert JsBodyLengths(code, hs[..k + 1]) == JsBodyLengths(code, hs[..k]);
      }
    }
    assert hs[..|hs|] == hs;
    t := LengthTally(longFunctions, veryLongFunctions, extremelyLongFunctions);
  }

  method AnalyzeJsModularity(code: string, hs: seq<FunctionHeader>) returns (score: int)
    ensures 0 <= score <= 20
    ensures score == Score(20, JsModularityRules(code, hs))
  {
    score := 20;
    var tally := TallyJsBodies(code, hs);
    ghost var table := [Rule(2 * tally.long, 10), Rule(3 * tally.veryLong, 15), Rule(5 * tally.extremelyLong, 20),
                        Rule(CallbackExcess(code), 5), Rule(ComponentExcess(code), 5)];
    assert table == JsModularityRules(code, hs);
    TotalOfFive(table);
    score := score - Min(10, tally.long * 2);
    score := score - Min(15, tally.veryLong * 3);
    score := score - Min(20, tally.extremelyLong * 5);
    assert score == 20 - Deduction(table[0]) - Deduction(table[1]) - Deduction(table[2]);

    var nestedCallbacks := 0;
    var callbackDepth := Count(code, "=>") - Count(code, "=>{");
    if callbackDepth > 3 {
      nestedCallbacks := callbackDepth - 3;
    }
    assert nestedCallbacks == CallbackExcess(code);
    score := score - Min(5, nestedCallbacks);

    if UsesReact(code) {
      var componentNesting := Count(code, "<") - Count(code, "</");
      if componentNesting > 10 {
        score := score - Min(5, (componentNesting - 10) / 2);
      }
    }
    assert score == 20 - Total(table);
    score := if score < 0 then 0 else score;
  }

  // ---------------------------------------------------------------- Python bodies

  /** `text[:i]`, which stops at the end of the text when `i` lies beyond it. */
  function Prefix(code: string, i: nat): string {
    if i <= |code| then code[..i] else code
  }

  /** `code[:match.start()].count('\n')`: the line on which a `def` hit starts. */
  function DefLine(code: string, d: DefHeader): nat {
    Count(Prefix(code, d.start), "\n")
  }

  /** A line that stops the body scan: not blank, not a `#` comment, not starting with whitespace. */
  predicate EndsBody(line: string) {
    var stripped := Strip(line);
    stripped != [] && !StartsWith(stripped, "#") && !(line != [] && IsSpace(line[0]))
  }

  /** The first line from `k` on that stops the body scan, or the end of the file. */
  function ScanEnd(lines: seq<string>, k: nat): (e: nat)
    ensures k <= e && (e <= |lines| || e == k)
    decreases |lines| - k
  {
    if k >= |lines| then k
    else if EndsBody(lines[k]) then k
    else ScanEnd(lines, k + 1)
  }

  /** The scan passes over blank, comment and indented lines only, and stops at the first
      line that is none of these, or at the end of the file. */
  lemma {:induction false} ScanEndSpec(lines: seq<string>, k: nat)
    ensures forall j :: k <= j < ScanEnd(lines, k) ==> !EndsBody(lines[j])
    ensures ScanEnd(lines, k) < |lines| ==> EndsBody(lines[ScanEnd(lines, k)])
    decreases |lines| - k
  {
    if k < |lines| && !EndsBody(lines[k]) {
      ScanEndSpec(lines, k + 1);
    }
  }

  /** The indentation scan of one `def`: from the line after it, skip blank and comment lines
      and indented lines, and stop at the first other line. */
  method FunctionEnd(lines: seq<string>, startLine: nat) returns (endLine: nat)
    ensures endLine == ScanEnd(lines, startLine + 1)
  {
    endLine := startLine + 1;
    while endLine < |lines|
      invariant startLine + 1 <= endLine
      invariant ScanEnd(lines, endLine) == ScanEnd(lines, startLine + 1)
      decreases |lines| - endLine
    {
      var stripped := Strip(lines[endLine]);
      if stripped == [] || StartsWith(stripped, "#") {
        endLine := endLine + 1;
        continue;
      }
      if !(lines[endLine] != [] && IsSpace(lines[endLine][0])) {
        break;
      }
      endLine := endLine + 1;
    }
  }

  /** `end_line - start_line` for one `def` hit. */
  function FunctionLength(code: string, d: DefHeader): int {
    var startLine := DefLine(code, d);
    ScanEnd(Split(code), startLine + 1) - startLine
  }

  /** The measurement of one `def` hit: its start line, the scan to its end, the difference. */
  method MeasureFunction(code: string, d: DefHeader) returns (functionLength: int)
    ensures functionLength == FunctionLength(code, d)
  {
    var startLine := Count(Prefix(code, d.start), "\n");
    var lines := Split(code);
    var endLine := FunctionEnd(lines, startLine);
    functionLength := endLine - startLine;
  }

  /** A `def` hit lies on a line of the file, and its length runs from 1 line to the rest of the file. */
  lemma FunctionExtent(code: string, d: DefHeader)
    ensures DefLine(code, d) < |Split(code)|
    ensures 1 <= FunctionLength(code, d) <= |Split(code)| - DefLine(code, d)
  {
    SplitCount(code);
    if d.start <= |code| {
      CountPrefix(code, d.start, "\n");
    } else {
      assert Prefix(code, d.start) == code;
    }
  }

  /** When the `def` hit begins with the newline before a top-level `def` (the `\s` of
      `(?:^|\s)def` takes it), the hit is counted on the line above and the scan stops at
      the `def` line at once: the function is 1 line long, however long its body. */
  lemma TopLevelDefCountsOneLine(code: string, d: DefHeader)
    requires d.start + 1 < |code| && code[d.start] == '\n'
    requires !IsSpace(code[d.start + 1]) && code[d.start + 1] != '#'
    ensures FunctionLength(code, d) == 1
  {
    var a, b := code[..d.start], code[d.start + 1..];
    assert code == a + "\n" + b;
    SplitAtNewline(a, b);
    SplitCount(a);
    var lines := Split(code);
    var s := DefLine(code, d);
    assert s == Count(a, "\n");
    assert lines[s + 1] == Split(b)[0];
    FirstLineStart(b);
    var line := lines[s + 1];
    assert line != [] && line[0] == b[0];
    assert LStrip(line) == line;
    RStripSpec(line);
    assert RStrip(line) != [] && RStrip(line)[0] == line[0];
    assert EndsBody(line);
  }

  /** The first line of a text that does not begin with a newline begins with the text's first character. */
  lemma FirstLineStart(b: string)
    requires b != [] && b[0] != '\n'
    ensures Split(b)[0] != [] && Split(b)[0][0] == b[0]
  {
    SplitCons(b[0], b[1..]);
    assert b == [b[0]] + b[1..];
  }

  /** The lengths of all `def` hits, in match order. */
  function PyLengths(code: string, defs: seq<DefHeader>): seq<int>
  {
    if defs == [] then []
    else PyLengths(code, defs[..|defs| - 1]) + [FunctionLength(code, defs[|defs| - 1])]
  }

  /** The widest leading whitespace of any line, 0 for none. */
  function MaxIndent(lines: seq<string>): nat
  {
    if lines == [] then 0
    else
      var rest := MaxIndent(lines[..|lines| - 1]);
      var last := Indent(lines[|lines| - 1]);
      if last > rest then last else rest
  }

  /** `MaxIndent` is the largest indentation of any line, and it is one of them unless it is 0. */
  lemma {:induction false} MaxIndentIsMaximum(lines: seq<string>)
    ensures forall i :: 0 <= i < |lines| ==> Indent(lines[i]) <= MaxIndent(lines)
    ensures MaxIndent(lines) == 0 || exists i :: 0 <= i < |lines| && Indent(lines[i]) == MaxIndent(lines)
  {
    if lines != [] {
      var init := lines[..|lines| - 1];
      MaxIndentIsMaximum(init);
      assert forall i :: 0 <= i < |init| ==> lines[i] == init[i];
    }
  }

  /** The nesting scan: the deepest indentation over all lines. */
  method DeepestIndent(lines: seq<string>) returns (nestedDepth: nat)
    ensures nestedDepth == MaxIndent(lines)
  {
    nestedDepth := 0;
    for k := 0 to |lines|
      invariant nestedDepth == MaxIndent(lines[..k])
    {
      assert lines[..k + 1][..k] == lines[..k];
      var indentLevel := |lines[k]| - |LStrip(lines[k])|;
      if indentLevel > nestedDepth {
        nestedDepth := indentLevel;
      }
    }
    assert lines[..|lines|] == lines;
  }

  /** One point per 4 columns of indentation past 16. */
  function NestingExcess(depth: nat): nat {
    if depth > 16 then (depth - 16) / 4 else 0
  }

  /** The Python modularity table. */
  function PyModularityRules(code: string, defs: seq<DefHeader>): seq<Rule> {
    LengthRules(TallyOf(PyLengths(code, defs)))
      + [Rule(NestingExcess(MaxIndent(Split(code))), 5)]
  }

  /** Measuring one more `def` hit adds its length to the counters. */
  lemma PyLengthsStep(code: string, defs: seq<DefHeader>, k: nat)
    requires k < |defs|
    ensures TallyOf(PyLengths(code, defs[..k + 1]))
            == AddLength(TallyOf(PyLengths(code, defs[..k])), FunctionLength(code, defs[k]))
  {
    assert defs[..k + 1][..k] == defs[..k];
    var s := PyLengths(code, defs[..k + 1]);
    assert s == PyLengths(code, defs[..k]) + [FunctionLength(code, defs[k])];
    assert s[..|s| - 1] == PyLengths(code, defs[..k]);
  }

  /** The loop over the `def` hits: measure each function and bump the counter of its bucket. */
  method TallyPyBodies(code: string, defs: seq<DefHeader>) returns (t: LengthTally)
    ensures t == TallyOf(PyLengths(code, defs))
  {
    var longFunctions, veryLongFunctions, extremelyLongFunctions := 0, 0, 0;
    for k := 0 to |defs|
      invariant LengthTally(longFunctions, veryLongFunctions, extremelyLongFunctions)
                == TallyOf(PyLengths(code, defs[..k]))
    {
      PyLengthsStep(code, defs, k);
      var functionLength := MeasureFunction(code, defs[k]);
      if functionLength > 50 {
        extremelyLongFunctions := extremelyLongFunctions + 1;
      } else if functionLength > 30 {
        veryLongFunctions := veryLongFunctions + 1;
      } else if functionLength > 15 {
        longFunctions := longFunctions + 1;
      }
    }
    assert defs[..|defs|] == defs;
    t := LengthTally(longFunctions, veryLongFunctions, extremelyLongFunctions);
  }

  method AnalyzePyModularity(code: string, defs: seq<DefHeader>) returns (score: int)
    ensures 0 <= score <= 20
    ensures score == Score(20, PyModularityRules(code, defs))
  {
    score := 20;
    var tally := TallyPyBodies(code, defs);
    ghost var table := [Rule(2 * tally.long, 10), Rule(3 * tally.veryLong, 15), Rule(5 * tally.extremelyLong, 20),
                        Rule(NestingExcess(MaxIndent(Split(code))), 5)];
    assert table == PyModularityRules(code, defs);
    TotalOfFour(table);
    score := score - Min(10, tally.long * 2);
    score := score - Min(15, tally.veryLong * 3);
    score := score - Min(20, tally.extremelyLong * 5);

    var lines := Split(code);
    var nestedDepth := DeepestIndent(lines);
    if nestedDepth > 16 {
      score := score - Min(5, (nestedDepth - 16) / 4);
    }
    score := if score < 0 then 0 else score;
  }

  // ---------------------------------------------------------------- empty text

  /** No length reaches a bucket when every length is at most 15 lines. */
  lemma {:induction false} ShortLengthsTallyNothing(lengths: seq<int>)
    requires forall i :: 0 <= i < |lengths| ==> lengths[i] <= 15
    ensures TallyOf(lengths) == LengthTally(0, 0, 0)
  {
    if lengths != [] {
      ShortLengthsTallyNothing(lengths[..|lengths| - 1]);
    }
  }

  /** The empty text closes no body, whatever headers are reported. */
  lemma {:induction false} EmptyTextHasNoJsBodies(hs: seq<FunctionHeader>)
    ensures JsBodyLengths("", hs) == []
  {
    if hs != [] {
      EmptyTextHasNoJsBodies(hs[..|hs| - 1]);
    }
  }

  /** No function measures more lines than the file has. */
  lemma {:induction false} PyLengthsWithinFile(code: string, defs: seq<DefHeader>)
    ensures forall i :: 0 <= i < |PyLengths(code, defs)| ==> PyLengths(code, defs)[i] <= |Split(code)|
  {
    if defs != [] {
      PyLengthsWithinFile(code, defs[..|defs| - 1]);
      FunctionExtent(code, defs[|defs| - 1]);
    }
  }

  /** The empty text keeps the full 20 JavaScript modularity points, whatever headers are reported. */
  lemma EmptyTextJsModularityIsTwenty(hs: seq<FunctionHeader>)
    ensures Score(20, JsModularityRules("", hs)) == 20
  {
    EmptyTextHasNoJsBodies(hs);
    var t := JsModularityRules("", hs);
    assert !UsesReact("");
    TotalOfFive(t);
  }

  /** The empty text keeps the full 20 Python modularity points, whatever `def` hits are reported:
      each measures at most its single line, and nothing is indented. */
  lemma EmptyTextPyModularityIsTwenty(defs: seq<DefHeader>)
    ensures Score(20, PyModularityRules("", defs)) == 20
  {
    PyLengthsWithinFile("", defs);
    assert Split("") == [""];
    ShortLengthsTallyNothing(PyLengths("", defs));
    assert MaxIndent(Split("")) == 0;
    TotalOfFour(PyModularityRules("", defs));
  }
}
