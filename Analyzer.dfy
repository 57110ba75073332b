/**
 * The two aggregators, which run the six category analyzers on one text, add the scores up and
 * build the recommendations, and the choice of aggregator by file extension.
 */
module Analyzer {
  import opened Wrappers
  import opened Rules
  import opened Signals
  import opened Naming
  import opened Modularity
  import opened Comments
  import opened Formatting
  import opened Reusability
  import opened BestPractices
  import opened Recommendations

  /** The result returned for one file: the overall score, the six category scores and the
      recommendation messages. The `breakdown` dictionary of the response is
      `BreakdownMap(a.breakdown)`. */
  datatype Analysis = Analysis(overallScore: int, breakdown: Breakdown, recommendations: seq<string>)

  /** The most each category can score, in breakdown order. */
  const NamingMax := 10
  const ModularityMax := 20
  const CommentsMax := 20
  const FormattingMax := 15
  const ReusabilityMax := 15
  const BestPracticesMax := 20

  /** The sum of the six category scores. */
  function Overall(b: Breakdown): int {
    b.naming + b.modularity + b.comments + b.formatting + b.reusability + b.bestPractices
  }

  /** Every category score lies between 0 and its maximum. */
  predicate WithinMaxima(b: Breakdown) {
    0 <= b.naming <= NamingMax && 0 <= b.modularity <= ModularityMax && 0 <= b.comments <= CommentsMax
    && 0 <= b.formatting <= FormattingMax && 0 <= b.reusability <= ReusabilityMax
    && 0 <= b.bestPractices <= BestPracticesMax
  }

  /** The `breakdown` dictionary of the result. */
  function BreakdownMap(b: Breakdown): (d: map<string, int>)
    ensures d.Keys == {"naming", "modularity", "comments", "formatting", "reusability", "best_practices"}
  {
    map["naming" := b.naming, "modularity" := b.modularity, "comments" := b.comments,
        "formatting" := b.formatting, "reusability" := b.reusability, "best_practices" := b.bestPractices]
  }

  /** The dictionary has exactly six entries, and its values add up to the overall score. */
  lemma BreakdownMapShape(b: Breakdown)
    ensures |BreakdownMap(b)| == 6
    ensures BreakdownMap(b)["naming"] + BreakdownMap(b)["modularity"] + BreakdownMap(b)["comments"]
            + BreakdownMap(b)["formatting"] + BreakdownMap(b)["reusability"]
            + BreakdownMap(b)["best_practices"] == Overall(b)
  {
    var d := BreakdownMap(b);
    var keys := {"naming", "modularity", "comments", "formatting", "reusability", "best_practices"};
    assert "naming" != "modularity" && "comments" != "formatting" && "reusability" != "best_practices";
    assert |keys| == 6;
  }

  /** The six JavaScript category scores. */
  function JsBreakdown(code: string, m: JsMatches): (b: Breakdown)
    ensures WithinMaxima(b)
  {
    Breakdown(
      Score(NamingMax, JsNamingRules(code, m.naming)),
      Score(ModularityMax, JsModularityRules(code, m.functions)),
      Score(CommentsMax, CommentRules(code, m.docs)),
      Score(FormattingMax, FormattingRules(code, m.spacing)),
      Score(ReusabilityMax, ReusabilityRules(code, m.utilityDecls, m.hardcodedValues)),
      Score(BestPracticesMax, JsPracticeRules(code, m.practices)))
  }

  /** The six Python category scores. */
  function PyBreakdown(code: string, m: PyMatches): (b: Breakdown)
    ensures WithinMaxima(b)
  {
    Breakdown(
      Score(NamingMax, PyNamingRules(m.naming)),
      Score(ModularityMax, PyModularityRules(code, m.defs)),
      Score(CommentsMax, CommentRules(code, m.docs)),
      Score(FormattingMax, FormattingRules(code, m.spacing)),
      Score(ReusabilityMax, ReusabilityRules(code, m.utilityDefs, m.hardcodedValues)),
      Score(BestPracticesMax, PyPracticeRules(code, m.practices)))
  }

  /** `analyze_javascript_code`: the overall score is the sum of the six category scores, between
      0 and 100, and 3 to 5 recommendations come with it. */
  function AnalyzeJavaScript(code: string, m: JsMatches): (a: Analysis)
    ensures a.overallScore == Overall(a.breakdown) && 0 <= a.overallScore <= 100
    ensures WithinMaxima(a.breakdown)
    ensures 3 <= |a.recommendations| <= 5
  {
    var b := JsBreakdown(code, m);
    JsRecommendationsShape(code, m, b);
    Analysis(Overall(b), b, Render(JsRecommendations(code, m, b)))
  }

  /** `analyze_python_code`, with the same guarantees. */
  function AnalyzePython(code: string, m: PyMatches): (a: Analysis)
    ensures a.overallScore == Overall(a.breakdown) && 0 <= a.overallScore <= 100
    ensures WithinMaxima(a.breakdown)
    ensures 3 <= |a.recommendations| <= 5
  {
    var b := PyBreakdown(code, m);
    PyRecommendationsShape(code, m, b);
    Analysis(Overall(b), b, Render(PyRecommendations(code, m, b)))
  }

  /** The analyzers' scores are what the imperative category analyzers compute. */
  method AnalyzeJavaScriptCode(code: string, m: JsMatches) returns (a: Analysis)
    ensures a == AnalyzeJavaScript(code, m)
  {
    var namingScore := AnalyzeJsNaming(code, m.naming);
    var modularityScore := AnalyzeJsModularity(code, m.functions);
    var commentsScore := AnalyzeComments(code, m.docs);
    var formattingScore := AnalyzeFormatting(code, m.spacing);
    var reusabilityScore := AnalyzeReusability(code, m.utilityDecls, m.hardcodedValues);
    var bestPracticesScore := AnalyzeJsPractices(code, m.practices);
    var overallScore := namingScore + modularityScore + commentsScore + formattingScore
                        + reusabilityScore + bestPracticesScore;
    var breakdown := Breakdown(namingScore, modularityScore, commentsScore,
                               formattingScore, reusabilityScore, bestPracticesScore);
    var recommendations := GenerateJsRecommendations(code, m, breakdown);
    a := Analysis(overallScore, breakdown, Render(recommendations));
  }

  method AnalyzePythonCode(code: string, m: PyMatches) returns (a: Analysis)
    ensures a == AnalyzePython(code, m)
  {
    var namingScore := AnalyzePyNaming(m.naming);
    var modularityScore := AnalyzePyModularity(code, m.defs);
    var commentsScore := AnalyzeComments(code, m.docs);
    var formattingScore := AnalyzeFormatting(code, m.spacing);
    var reusabilityScore := AnalyzeReusability(code, m.utilityDefs, m.hardcodedValues);
    var bestPracticesScore := AnalyzePyPractices(code, m.practices);
    var overallScore := namingScore + modularityScore + commentsScore + formattingScore
                        + reusabilityScore + bestPracticesScore;
    var breakdown := Breakdown(namingScore, modularityScore, commentsScore,
                               formattingScore, reusabilityScore, bestPracticesScore);
    var recommendations := GeneratePyRecommendations(code, m, breakdown);
    a := Analysis(overallScore, breakdown, Render(recommendations));
  }

  // ---------------------------------------------------------------- dispatch by extension

  datatype Language = JavaScript | Python

  const SupportedExtensions: set<string> := {".js", ".jsx", ".py"}

  /** The analyzer an (already lower-cased) extension selects: `.js` and `.jsx` JavaScript,
      `.py` Python, anything else none. */
  function LanguageOf(extension: string): (l: Option<Language>)
    ensures l.Some? <==> extension in SupportedExtensions
    ensures extension == ".js" || extension == ".jsx" ==> l == Some(JavaScript)
    ensures extension == ".py" ==> l == Some(Python)
  {
    if extension == ".js" || extension == ".jsx" then Some(JavaScript)
    else if extension == ".py" then Some(Python)
    else None
  }

  /** The rejection of an unsupported extension: HTTP status 400. */
  datatype Rejection = UnsupportedFileType(status: int)

  /** Analyzes a text with the analyzer its extension selects, or rejects the extension. */
  function AnalyzeFile(extension: string, code: string, js: JsMatches, py: PyMatches): (r: Result<Analysis, Rejection>)
    ensures r.Err? <==> extension !in SupportedExtensions
    ensures r.Err? ==> r.error.status == 400
    ensures r.Ok? ==> 0 <= r.value.overallScore <= 100 && 3 <= |r.value.recommendations| <= 5
    ensures extension == ".js" || extension == ".jsx" ==> r == Ok(AnalyzeJavaScript(code, js))
    ensures extension == ".py" ==> r == Ok(AnalyzePython(code, py))
  {
    match LanguageOf(extension)
    case Some(JavaScript) => Ok(AnalyzeJavaScript(code, js))
    case Some(Python) => Ok(AnalyzePython(code, py))
    case None => Err(UnsupportedFileType(400))
  }
}
