/**
 * What the analyzers learn through regular expressions is taken as given: a count of
 * `re.findall` hits, the truth of an `re.search`, or the hits of an `re.finditer`.
 * The flags that are plain substring tests are computed from the text itself.
 */
module Signals {
  import opened Wrappers
  import opened Text

  /** Hit counts of the four JavaScript naming patterns. */
  datatype JsNamingMatches = JsNamingMatches(
    nonCamelVars: nat,      // a `let`/`const`/`var` binding that is capital-led or lower_snake
    lowerComponents: nat,   // a `function name(props` / `function name({` with a lower-case name
    nonCapsConstants: nat,  // a lower-case `const` bound to a string, digit or array literal
    mixedStyles: nat)       // a `let`/`const`/`var` name mixing camel segments with `_` or `-`

  /** Hit counts (and the `__main__` guard) of the Python naming patterns. */
  datatype PyNamingMatches = PyNamingMatches(
    nonSnakeVars: nat,      // a camelCase assignment target
    lowerConstants: nat,    // a lower-case target bound to a literal, `True`, `False` or `None`
    mainGuard: bool,        // `if __name__ == "__main__"` is present
    lowerClasses: nat,      // a `class` whose name starts lower-case
    mixedStyles: nat)       // a camelCase name that also contains `_`

  /** One hit of the JavaScript function-header pattern: the offset where it ends, and the
      name the `function NAME` / `const NAME =` pattern finds inside the hit, if any. */
  datatype FunctionHeader = FunctionHeader(end: nat, name: Option<string>)

  /** One hit of the Python `def NAME(` pattern: the offset where it starts and the captured name. */
  datatype DefHeader = DefHeader(start: nat, name: string)

  /** Hit counts of the documentation patterns read by the comment analyzer. */
  datatype DocMatches = DocMatches(
    jsdocBlocks: nat,       // `/** ... */` spans
    jsFunctionDecls: nat,   // `function ` or `const f = function` / `const f = (...) =>`
    defKeywords: nat,       // `def` followed by whitespace
    classKeywords: nat)     // `class` followed by whitespace

  /** For one operator: hits with no space on either side, and hits with space on one side only.
      The analyzers read one entry per operator pattern they check, nine in all (`=`, `+`, `-`,
      `*`, `/`, `==`, `!=`, `>=`, `<=`, in that order); only the cap of 5 on the inconsistent
      operators depends on how many there are. */
  datatype OperatorSpacing = OperatorSpacing(tight: nat, oneSided: nat)

  /** Presence of the JavaScript best-practice patterns that are not plain substrings. */
  datatype JsPracticeMatches = JsPracticeMatches(
    effectWithoutDeps: bool,   // `useEffect(` followed by a single argument and `)`
    tryBlock: bool)            // `try`, optional whitespace, `{`

  /** Presence of the Python best-practice patterns that are not plain substrings. */
  datatype PyPracticeMatches = PyPracticeMatches(
    paramHints: bool,          // a `def` with an annotated parameter
    returnHints: bool,         // a `def` with a `->` return annotation
    tryBlock: bool,            // `try`, optional whitespace, `:`
    withOpen: bool)            // `with`, whitespace, `open(`

  /** Everything the JavaScript analysis reads through regular expressions. */
  datatype JsMatches = JsMatches(
    naming: JsNamingMatches,
    functions: seq<FunctionHeader>,
    docs: DocMatches,
    spacing: seq<OperatorSpacing>,
    utilityDecls: nat,         // `function`/`const` names starting with a hook or utility verb
    hardcodedValues: nat,      // numbers of 3+ digits and quoted strings of 10+ characters
    practices: JsPracticeMatches)

  /** Everything the Python analysis reads through regular expressions. */
  datatype PyMatches = PyMatches(
    naming: PyNamingMatches,
    defs: seq<DefHeader>,
    docs: DocMatches,
    spacing: seq<OperatorSpacing>,
    utilityDefs: nat,          // `def` names starting with a utility verb
    hardcodedValues: nat,
    practices: PyPracticeMatches)

  /** The component-framework flag: `".jsx" in code or "React" in code`. */
  predicate UsesReact(code: string) {
    Contains(code, ".jsx") || Contains(code, "React")
  }

  /** The web-framework flag: `"fastapi" in code`. */
  predicate UsesFastApi(code: string) {
    Contains(code, "fastapi")
  }

  /** The doc-comment style switch of the comment analyzer: `'.py' in code`. */
  predicate MentionsPy(code: string) {
    Contains(code, ".py")
  }

  /** A triple-quote docstring marker occurs somewhere. */
  predicate HasDocstringMarker(code: string) {
    Contains(code, "\"\"\"")
  }

  /** Some pattern of `patterns` occurs in `code`: a search for a plain alternation of literals. */
  predicate ContainsAny(code: string, patterns: seq<string>) {
    exists k :: 0 <= k < |patterns| && Contains(code, patterns[k])
  }

  // The literal alternations searched by the best-practice checks, written out.
  const ModernSyntax: seq<string> := ["const", "let", "=>", "async", "await", ".map(", ".filter(", ".reduce("]
  const AsyncCalls: seq<string> := ["fetch", "axios", ".then("]
  const InteractiveElements: seq<string> := ["<img", "<input", "<button"]
  const A11yAttributes: seq<string> := ["alt", "aria-", "role"]
  const UnsafeHtml: seq<string> := ["innerHTML", "dangerouslySetInnerHTML", "eval("]
  const ResponseModels: seq<string> := ["response_model", "BaseModel"]
  const HttpErrors: seq<string> := ["HTTPException", "status."]
  const IoCalls: seq<string> := ["requests.", "open(", "json."]
  const UnsafeCalls: seq<string> := ["eval(", "exec(", "subprocess."]
  const ListenerAdded: string := "addEventListener("
  const ListenerRemoved: string := "removeEventListener("
  const OpenCall: string := "open("
}
