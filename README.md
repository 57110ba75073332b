# Code-quality scoring engine

A Dafny model of the scoring engine of a small code-quality analyzer (`backend/main.py`). The
analyzer takes one JavaScript/JSX or Python source text and returns:

- an overall score out of 100;
- a breakdown into six category scores: naming 10, modularity 20, comments 20, formatting 15,
  reusability 15 and best practices 20;
- three to five recommendation messages.

Each category analyzer starts at its maximum, takes off capped amounts for what it finds, and
floors the result at 0. In the model, each analyzer is an imperative method that lowers `score`
step by step, exactly as the source does. It is proved equal to `Rules.Score(max, table)` over a
table of `Rule(amount, cap)` entries, and the properties are proved about those tables.

The loops of the source are methods with loop invariants, each proved equal to a recursive
specification function:

- the brace scan that finds a JavaScript function body;
- the indentation scan that finds the end of a Python function;
- the deepest-indentation scan;
- the comment-line count;
- the sliding-window duplicate-block dictionary;
- the indentation-style set;
- the operator-spacing count;
- the recommendation builders and their padding and truncation.

The aggregators are functions that add the six scores up. Each has a method twin that calls the
imperative analyzers and builders, and the twin is proved to return the same result.

Patterns with character classes, repetition or captures are not modelled. Their results are
inputs (`Signals`): the hit counts of the naming, documentation, spacing, utility and
hard-coded-value patterns; the `useEffect`, `try`, type-hint and `with open(` searches; and the
positions and names of the function-header hits.

A search whose pattern is only an alternation of literal strings is computed from the text
(`Signals.Contains`, `Signals.ContainsAny`). `re.search` with such a pattern finds a hit exactly
when one of the literals occurs as a substring, so this is exact. These are the best-practice
searches at `backend/main.py:281`, `289`, `293`, `298`, `302`, `433`, `437`, `441`, `449` and `453`
(modern syntax, async calls, listeners, interactive elements, accessibility attributes, unsafe
HTML, response models, HTTP errors, I/O calls, unsafe calls). Lemmas such as
`BestPractices.JsUnsafeHtmlCostsFive` and `BestPractices.PyBareOpenCostsSeven` depend on them.

Also computed from the text, as `seq<char>`:

- `split('\n')`, `'\n'.join`, `strip`/`lstrip`/`rstrip`, `count` and `in`;
- the `.jsx`/`React`, `fastapi` and `.py` substring switches;
- brace depths and indentation;
- the rendering of line counts in messages.

The model preserves these behaviours of the code:

- The comment analyzer picks docstring or JSDoc counting by `'.py' in code`, not by the language
  of the file.
- `'.jsx' in code or 'React' in code` switches on the React checks.
- The Python `def` pattern may consume the newline before a top-level `def`. The body scan then
  starts on the `def` line itself, and the function measures 1 line
  (`Modularity.TopLevelDefCountsOneLine`).
- The camelCase pattern at `backend/main.py:164` finds no hit in `var Total_Amount = 5;`, although
  the camelCase advice at `backend/main.py:568` names `Total_Amount` as its example. The hit count
  is an input, so no contract claims a deduction for such a binding.

## Model

| member | source | states |
|---|---|---|
| `Text.LStrip` | backend/main.py:382 | `line.lstrip()` is never longer than the line |
| `Text.LStripSpec` | backend/main.py:382 | `lstrip` drops exactly the leading run of whitespace: the result is a suffix of the line, every dropped character is whitespace, and the result is empty or starts with a non-space |
| `Text.RStrip` | backend/main.py:553 | `line.rstrip()` is never longer than the line |
| `Text.RStripSpec` | backend/main.py:553 | `rstrip` drops exactly the trailing run of whitespace: the result is a prefix, every dropped character is whitespace, and the result is empty or ends in a non-space |
| `Text.StripEmpty` | backend/main.py:354 | `not line.strip()` holds exactly when every character of the line is whitespace |
| `Text.Indent` | backend/main.py:382 | `len(line) - len(line.lstrip())` lies between 0 and the line's length |
| `Text.IndentSpec` | backend/main.py:382 | that indentation is exactly the leading whitespace run: every character before it is whitespace, and the next one is not |
| `Text.LeadingBlanks` | backend/main.py:526 | `len(line) - len(line.lstrip(' '))` counts leading blanks only: each is a space, and the next character is not |
| `Text.Count` | backend/main.py:215 | `s.count(p)` non-overlapping occurrences never take up more than the text (`n * len(p) <= len(s)`) |
| `Text.CountPositive` | backend/main.py:445 | `s.count(p) > 0` holds exactly when `p in s` (ties the `"""` count to the docstring-marker search) |
| `Text.CountPrefix` | backend/main.py:347 | a prefix of the text never holds more occurrences than the whole text |
| `Text.Split` | backend/main.py:250 | `split('\n')` always yields at least one line |
| `Text.SplitCount` | backend/main.py:250 | `split('\n')` yields one line more than the text has newlines |
| `Text.SplitLinesNewlineFree` | backend/main.py:250 | no line of `split('\n')` holds a newline |
| `Text.SplitAtNewline` | backend/main.py:250 | splitting `a + '\n' + b` gives the lines of `a` followed by the lines of `b` |
| `Text.JoinSplit` | backend/main.py:255 | `'\n'.join(s.split('\n')) == s` |
| `Text.SplitJoin` | backend/main.py:255 | splitting the join of newline-free lines gives the lines back |
| `Text.Decimal` | backend/main.py:600 | the f-string rendering of a line count is a non-empty digit string without a leading zero |
| `Text.DecimalRoundTrip` | backend/main.py:600 | reading that rendering back gives the number (`int(str(n)) == n`) |
| `Rules.Deduction` | backend/main.py:166 | `min(cap, amount)` is at most both and equals one of them |
| `Rules.Flag` | backend/main.py:282 | a fixed penalty deducts its points exactly when its check fires, and nothing otherwise |
| `Rules.Score` | backend/main.py:184 | `max(0, max - total)` lies in `[0, max]`, is never below `max - total`, and equals it whenever positive |
| `Rules.Min` | backend/main.py:166 | `min(a, b)` is at most both and equals one of them |
| `Rules.TotalAtMostCaps` | backend/main.py:225-227 | a table never takes off more than the sum of its caps |
| `Rules.TotalZero` | backend/main.py:161-184 | nothing is taken off exactly when every rule deducts 0 |
| `Rules.ScorePerfect` | backend/main.py:161-184 | a category keeps its maximum exactly when no rule deducts anything |
| `Rules.NoFloor` | backend/main.py:184 | when the caps add up to at most the maximum, the floor at 0 never applies |
| `Rules.TotalMonotone` | backend/main.py:164-182 | more hits (same caps) never take off less |
| `Rules.ScoreMonotone` | backend/main.py:164-184 | more hits (same caps) never raise the score |
| `Rules.FlagAddsPoints` | backend/main.py:281-303 | firing one fixed-penalty check adds exactly its points to the total, whatever the other checks do |
| `Naming.AnalyzeJsNaming` | backend/main.py:159-184 | the JavaScript naming score lies in `[0, 10]` and equals `Score(10, …)` over its four rules; the component rule counts only when React is in use |
| `Naming.AnalyzePyNaming` | backend/main.py:308-332 | the Python naming score lies in `[0, 10]` and equals `Score(10, …)`; lower-case constants count only beside a `__main__` guard |
| `Naming.JsNamingPerfect` | backend/main.py:164-182 | JavaScript naming scores 10 exactly when no pattern has a hit (components only under React) |
| `Naming.JsNamingNeverFloors` | backend/main.py:164-184 | the caps 3+3+2+2 add up to 10, so the score is exactly 10 minus the capped counts |
| `Naming.JsNamingMonotone` | backend/main.py:164-182 | more naming hits never raise the JavaScript score |
| `Naming.PyNamingPerfect` | backend/main.py:313-330 | Python naming scores 10 exactly when no pattern has a hit (constants only beside `__main__`) |
| `Naming.PyNamingNeverFloors` | backend/main.py:313-332 | the caps 3+2+3+2 add up to 10: the score is 10 minus the capped counts |
| `Comments.CommentLineCount` | backend/main.py:466-470 | the number of comment lines never exceeds the number of lines |
| `Comments.CountCommentLines` | backend/main.py:466-470 | the loop counts exactly the lines whose stripped text starts with `//`, `#`, `/*` or `*` |
| `Comments.CrossMultiply` | backend/main.py:473 | comparing `c / t` with `num / den` is comparing `den * c` with `num * t` |
| `Comments.RatioPenaltyIsBanding` | backend/main.py:473-483 | the integer bands equal the bands of the exact ratio: below 0.05 costs 15, below 0.1 costs 10, below 0.15 costs 5, above 0.4 costs 5; the bands are exclusive |
| `Comments.DocPenaltyIsBanding` | backend/main.py:486-508 | with `.py` in the text, docstring pairs over `def`+`class` below 0.5 cost 10 and below 0.8 cost 5; otherwise JSDoc over functions below 0.3 cost 10 and below 0.6 cost 5; no declarations cost nothing |
| `Comments.AnalyzeComments` | backend/main.py:459-510 | the comments score lies in `[0, 20]` and is 20 minus the density band and the documentation band, floored |
| `Comments.EmptyTextScoresFive` | backend/main.py:462-508 | empty text is one line without comment: ratio 0 costs 15, no functions cost nothing, the score is exactly 5 |
| `Comments.UndocumentedPythonAtMostTen` | backend/main.py:486-497 | text mentioning `.py` with a `def` or `class` and no `"""` loses 10 for documentation: at most 10 remain |
| `Formatting.IndentStylesSpec` | backend/main.py:518-532 | a style is in `indentation_types` exactly when some line is indented in it |
| `Formatting.CollectIndentStyles` | backend/main.py:518-532 | the loop collects exactly the set of styles in use |
| `Formatting.LStripBlanks` | backend/main.py:526 | `line.lstrip(' ')` is exactly the line after its leading blanks, `line[LeadingBlanks(line):]`, so the length drop is their count |
| `Formatting.MixedIndentationIsManyStyles` | backend/main.py:535 | `len(indentation_types) > 1` holds exactly when a style is in use and it is not the only one |
| `Formatting.OneStyleIsConsistent` | backend/main.py:518-536 | when every indented line uses one style, nothing is deducted for indentation |
| `Formatting.TwoStylesAreMixed` | backend/main.py:518-536 | two lines indented in different styles make the indentation mixed |
| `Formatting.LongLineCount` | backend/main.py:539 | the number of lines over 100 characters never exceeds the number of lines |
| `Formatting.TrailingWhitespaceCount` | backend/main.py:553 | the number of lines that `rstrip` changes never exceeds the number of lines |
| `Formatting.TrailingWhitespaceIsLastSpace` | backend/main.py:553 | `line.rstrip() != line` exactly when the line ends in whitespace |
| `Formatting.InconsistentOperators` | backend/main.py:543-548 | at most one point per operator checked |
| `Formatting.CountInconsistentOperators` | backend/main.py:543-548 | the loop counts exactly the operators found both tight and spaced on one side |
| `Formatting.FormattingTotal` | backend/main.py:534-554 | the deduction is 8 for mixed indentation plus `min(5, long // 3)`, `min(5, inconsistent)` and `min(3, trailing // 5)` |
| `Formatting.AnalyzeFormatting` | backend/main.py:512-556 | the formatting score lies in `[0, 15]` and equals `Score(15, …)` over the four rules |
| `Formatting.FormattingPerfect` | backend/main.py:514-556 | full marks exactly when indentation is consistent, fewer than 3 lines are long, no operator is inconsistent and fewer than 5 lines have trailing whitespace |
| `Modularity.TallyBuckets` | backend/main.py:217-222 | the buckets over 50, over 30 and over 15 lines are disjoint: each counter counts exactly the lengths in its own range |
| `Modularity.CloseFrom` | backend/main.py:204-211 | a closing position the scan reports is a `}` inside the text, at or after where the scan began |
| `Modularity.CloseFromSpec` | backend/main.py:204-211 | from depth `1 + Net(code[start:i])`, the scan stops at the first `}` that brings the depth to 0, or finds none when the depth never returns to 0 |
| `Modularity.ClosingBraceSpec` | backend/main.py:200-211 | the body ends at the first `}` after the header at which the depth, 1 just after the `{`, returns to 0; no earlier position does |
| `Modularity.FindBodyEnd` | backend/main.py:199-211 | the brace loop returns that closing brace, or `start` when there is none |
| `Modularity.BodyLineCountIsLines` | backend/main.py:213-215 | a function has a line count exactly when its body was found; a found body is non-empty, and `body.count('\n') + 1` is the number of lines it splits into |
| `Modularity.TallyJsBodies` | backend/main.py:198-222 | the loop over the headers fills the three counters with the buckets of the line counts of all bodies found, in match order |
| `Modularity.AnalyzeJsModularity` | backend/main.py:186-243 | the JavaScript modularity score lies in `[0, 20]` and equals `Score(20, …)` over the length buckets, the `=>` callback excess and the React `<`/`</` excess |
| `Modularity.ScanEnd` | backend/main.py:351-362 | the end line of the indentation scan is never before its start, and never past the end of the file unless the scan starts there |
| `Modularity.ScanEndSpec` | backend/main.py:351-362 | the scan passes only blank, `#`-comment and indented lines, and stops at the first other line or at the end of the file |
| `Modularity.FunctionEnd` | backend/main.py:351-362 | the `while` loop stops exactly where that scan stops |
| `Modularity.MeasureFunction` | backend/main.py:347-364 | `end_line - start_line` of one `def` hit, computed from its start line and the scan |
| `Modularity.FunctionExtent` | backend/main.py:347-364 | a `def` hit lies on a line of the file, and its length is at least 1 and at most `len(lines) - start_line` |
| `Modularity.TopLevelDefCountsOneLine` | backend/main.py:339-364 | when the hit begins with the newline before a column-0 `def`, the function measures exactly 1 line, however long its body |
| `Modularity.MaxIndentIsMaximum` | backend/main.py:379-384 | the nesting depth is the largest indentation of any line, and it is one of them unless it is 0 |
| `Modularity.DeepestIndent` | backend/main.py:379-384 | the loop computes that largest indentation |
| `Modularity.TallyPyBodies` | backend/main.py:346-371 | the loop over the `def` hits fills the counters with the buckets of the lengths of all hits, in match order |
| `Modularity.AnalyzePyModularity` | backend/main.py:334-389 | the Python modularity score lies in `[0, 20]` and equals `Score(20, …)` over the length buckets and the nesting excess past 16 columns |
| `Modularity.ShortLengthsTallyNothing` | backend/main.py:217-222 | functions of at most 15 lines fall in no bucket |
| `Modularity.EmptyTextHasNoJsBodies` | backend/main.py:198-215 | the empty text closes no body, whatever headers are reported |
| `Modularity.PyLengthsWithinFile` | backend/main.py:346-364 | no function measures more lines than the file has |
| `Modularity.EmptyTextJsModularityIsTwenty` | backend/main.py:186-243 | the empty text keeps all 20 JavaScript modularity points, whatever headers are reported |
| `Modularity.EmptyTextPyModularityIsTwenty` | backend/main.py:334-389 | the empty text keeps all 20 Python modularity points, whatever `def` hits are reported |
| `Reusability.TallyCounts` | backend/main.py:251-260 | `code_blocks` holds exactly the texts seen, each mapped to how often it was seen |
| `Reusability.RepeatedAreMultiple` | backend/main.py:262 | the repeated-block count is the number of distinct texts that occur more than once among the windows |
| `Reusability.ScanRow` | backend/main.py:254-260 | the inner loop of row `i` adds the windows of that row, in order, to the counts so far |
| `Reusability.CountBlocks` | backend/main.py:250-260 | the nested loops build the dictionary of all candidate windows, in scan order |
| `Reusability.CandidatesAreWindows` | backend/main.py:253-256 | every tallied text is a window `lines[i:j]` with `i + 3 <= j < min(i + 20, n)` longer than 50 characters |
| `Reusability.WindowsAreCandidates` | backend/main.py:253-256 | conversely, every such window longer than 50 characters is tallied |
| `Reusability.ShortFileHasNoRepeats` | backend/main.py:253-263 | a text of fewer than 4 lines has no window, so nothing repeats and nothing is deducted for duplicates |
| `Reusability.AnalyzeReusability` | backend/main.py:245-274 | the reusability score lies in `[0, 15]` and equals `Score(15, …)` over 2 per repeated block (up to 10), 3 for fewer than 2 utilities, and 1 per hard-coded value (up to 5) |
| `BestPractices.JsPracticeTotal` | backend/main.py:280-303 | the JavaScript deduction is the sum of the points of the checks that fire (5, 3, 3, 4, 3, 5) |
| `BestPractices.AnalyzeJsPractices` | backend/main.py:276-305 | the JavaScript best-practice score lies in `[0, 20]` and equals `Score(20, …)` over its six checks |
| `BestPractices.PyPracticeTotal` | backend/main.py:426-454 | the Python deduction is the sum of the points of the checks that fire (4, 3, 3, 4, 3, 5, 3) |
| `BestPractices.AnalyzePyPractices` | backend/main.py:422-456 | the Python best-practice score lies in `[0, 20]` and equals `Score(20, …)` over its seven checks |
| `BestPractices.JsPracticesPerfect` | backend/main.py:280-303 | 20 exactly when modern syntax is used, there is no unsafe HTML, async calls are guarded by `try`, and under React no effect lacks dependencies, every listener is removed and interactive elements carry accessibility attributes |
| `BestPractices.JsUnsafeHtmlCostsFive` | backend/main.py:302-303 | unsafe HTML injection or `eval(` alone leaves at most 15 |
| `BestPractices.JsWithoutReactAtLeastSix` | backend/main.py:280-303 | outside React only three checks apply, so the score never drops below 6 |
| `BestPractices.PyPracticesPerfect` | backend/main.py:426-454 | 20 exactly when there is a docstring marker, no unsafe call, I/O is guarded by `try`, `open(` only inside `with open(`, and with `fastapi` type hints, response models and HTTP errors are present |
| `BestPractices.PyBareOpenCostsSeven` | backend/main.py:441-454 | a bare `open(` without `try` or `with` is charged twice, as unguarded I/O and as a missing context manager: at most 13 remain |
| `BestPractices.PyWithoutFastApiAtLeastFive` | backend/main.py:426-454 | without `fastapi` only four checks apply, so the score never drops below 5 |
| `Recommendations.FinishSpec` | backend/main.py:629-638 | the finished list has `3` entries when fewer than 3 were found, else `min(len, 5)`; specific entries keep their places; exactly the first `3 - len` generic entries follow, in order |
| `Recommendations.Limit` | backend/main.py:629-638 | the `extend` then `[:5]` step computes exactly that finished list |
| `Recommendations.JsNamingAdvice` | backend/main.py:566-572 | naming advice is all of the naming category |
| `Recommendations.LongJsAdvice` | backend/main.py:596-600 | the long-function message names the function's captured name and a line count over 30 |
| `Recommendations.FirstLongJsFunction` | backend/main.py:575-601 | what the header search reports is always a long-function advice |
| `Recommendations.FirstLongJsIndex` | backend/main.py:577-601 | the index of the first header whose body is over 30 lines and whose hit names it; no earlier header is both |
| `Recommendations.FirstLongJsFunctionSpec` | backend/main.py:577-601 | the search reports the first long named function, and nothing when no function is both long and named |
| `Recommendations.JsModularityAdvice` | backend/main.py:575-601 | at most one modularity message, of the modularity category |
| `Recommendations.JsCommentsAdvice` | backend/main.py:604-605 | comment advice is of the comment category |
| `Recommendations.JsFormattingAdvice` | backend/main.py:608-609 | formatting advice is of the formatting category |
| `Recommendations.ReusabilityAdvice` | backend/main.py:612-614 | reusability advice is of the reusability category |
| `Recommendations.JsPracticeAdvice` | backend/main.py:617-626 | best-practice advice is of the best-practice category |
| `Recommendations.JsAdvice` | backend/main.py:563-626 | the specific JavaScript advice is in category order and holds at most one long-function message |
| `Recommendations.FindLongJsFunction` | backend/main.py:576-601 | the loop over the headers, with its `break`, finds exactly the advice of the first long named function |
| `Recommendations.JsNamingSection` | backend/main.py:566-572 | the naming section appends exactly the naming advice |
| `Recommendations.JsPracticeSection` | backend/main.py:617-626 | the best-practice section appends exactly the best-practice advice |
| `Recommendations.GenerateJsRecommendations` | backend/main.py:559-638 | the builder returns the specific advice, category by category, padded and truncated |
| `Recommendations.PyNamingAdvice` | backend/main.py:647-652 | naming advice is all of the naming category |
| `Recommendations.LongPyAdvice` | backend/main.py:678-679 | the long-function message names the `def` and a length over 30 |
| `Recommendations.FirstLongPyFunction` | backend/main.py:655-680 | what the `def` search reports is always a long-function advice |
| `Recommendations.FirstLongPyIndex` | backend/main.py:657-680 | the index of the first `def` hit over 30 lines; no earlier hit is over 30 lines |
| `Recommendations.FirstLongPyFunctionSpec` | backend/main.py:657-680 | the search reports the first function over 30 lines, and nothing when none is |
| `Recommendations.PyModularityAdvice` | backend/main.py:655-680 | at most one modularity message, of the modularity category |
| `Recommendations.PyCommentsAdvice` | backend/main.py:683-687 | comment advice is of the comment category |
| `Recommendations.PyFormattingAdvice` | backend/main.py:690-707 | formatting advice is of the formatting category |
| `Recommendations.PyPracticeAdvice` | backend/main.py:715-724 | best-practice advice is of the best-practice category |
| `Recommendations.PyAdvice` | backend/main.py:644-724 | the specific Python advice is in category order and holds at most one long-function message |
| `Recommendations.FindLongPyFunction` | backend/main.py:656-680 | the loop over the `def` hits, with its `break`, finds exactly the advice of the first function over 30 lines |
| `Recommendations.PyNamingSection` | backend/main.py:647-652 | the naming section appends exactly the naming advice |
| `Recommendations.PyPracticeSection` | backend/main.py:715-724 | the best-practice section appends exactly the best-practice advice |
| `Recommendations.PyFormattingSection` | backend/main.py:690-707 | the set-building section appends the indentation advice exactly when more than one style is in use |
| `Recommendations.GeneratePyRecommendations` | backend/main.py:640-736 | the builder returns the specific advice, category by category, padded and truncated |
| `Recommendations.LongFunctionInMiddle` | backend/main.py:575-601 | naming advice, at most one modularity advice, then later categories: a long-function message can only sit right after the naming block |
| `Recommendations.SixBlocks` | backend/main.py:563-626 | six category blocks in order, with at most one modularity entry, are category-ordered and hold at most one long-function message |
| `Recommendations.FinishKeepsOrder` | backend/main.py:629-638 | padding with generic advice and cutting to 5 keep the category order and the single long-function message |
| `Recommendations.FinishedShape` | backend/main.py:629-638 | ordered specific advice, once finished, is well shaped: 3 to 5 entries, in category order, at most one long-function message, and with 3 or more specific entries, the list is exactly their first `min(n, 5)` |
| `Recommendations.JsRecommendationsShape` | backend/main.py:559-638 | the JavaScript list has 3 to 5 entries, in category order, with at most one long-function message; with 3 or more specific entries it is exactly their first `min(n, 5)` and holds no generic entry |
| `Recommendations.PyRecommendationsShape` | backend/main.py:640-736 | the same for the Python list |
| `Recommendations.JsAllClearIsGeneric` | backend/main.py:629-636 | when every category clears its threshold, the JavaScript list is the three generic messages |
| `Recommendations.PyAllClearIsGeneric` | backend/main.py:727-734 | when every category clears its threshold, the Python list is the three generic messages |
| `Analyzer.BreakdownMap` | backend/main.py:103-110 | the breakdown has exactly the keys naming, modularity, comments, formatting, reusability and best_practices |
| `Analyzer.BreakdownMapShape` | backend/main.py:101-111 | the breakdown has six entries, and they add up to the overall score |
| `Analyzer.JsBreakdown` | backend/main.py:73-78 | every JavaScript category score lies between 0 and its maximum |
| `Analyzer.PyBreakdown` | backend/main.py:117-122 | every Python category score lies between 0 and its maximum |
| `Analyzer.AnalyzeJavaScript` | backend/main.py:70-112 | the overall score is the sum of the six, between 0 and 100; each category is within its maximum; 3 to 5 recommendations |
| `Analyzer.AnalyzePython` | backend/main.py:114-156 | the same for Python |
| `Analyzer.AnalyzeJavaScriptCode` | backend/main.py:70-112 | running the imperative analyzers and builder gives exactly that result |
| `Analyzer.AnalyzePythonCode` | backend/main.py:114-156 | running the imperative analyzers and builder gives exactly that result |
| `Analyzer.LanguageOf` | backend/main.py:55-58 | an extension selects an analyzer exactly when it is `.js`, `.jsx` or `.py`; `.js` and `.jsx` select JavaScript, `.py` Python |
| `Analyzer.AnalyzeFile` | backend/main.py:36-58 | an unsupported extension is rejected with status 400, and only then; a supported one gets a score in `[0, 100]` with 3 to 5 recommendations; `.js`/`.jsx` get exactly the JavaScript analysis and `.py` the Python analysis of the same text |

## Left out

- Regular expressions: the engine is not modelled. The hits of every pattern beyond a plain alternation of literals are inputs (`Signals`), so no property depends on what those patterns match.
- The HTTP endpoint `analyze_code` (`backend/main.py:27-68`): the upload, the temporary file, the UTF-8 read, the mapping of exceptions to status 500 and the file clean-up. Also `root`, the CORS set-up and the uvicorn launch.
- Only the extension check and the dispatch of the endpoint are modelled. The extension is taken as given, already split off and lower-cased (`os.path.splitext`, `lower`).
- `Analyzer.AnalyzeFile` does not model the text of the 400 message: it lists the supported extensions in set iteration order, which is not fixed.
- `ui.py` and `app.py`: the Gradio user interface and its launcher.
- Floating point: ratios are compared exactly, by integer cross-multiplication, and proved equal to the exact rational comparison. Rounding of Python floats is not modelled.
- Operator spacing (`backend/main.py:544-546`): the two hit counts per operator are inputs, one `OperatorSpacing` per pattern.
- `Reusability.AnalyzeReusability` serves both languages. `analyze_js_reusability` and `analyze_py_reusability` differ only in their utility-name pattern, whose hit count is an input.
- `str.isspace` and the regex `\s` are modelled as one fixed set of whitespace characters (`Text.IsSpace`).
