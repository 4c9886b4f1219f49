/**
 * Language detection by marker substrings, as done by `router_node` (the
 * review graph's first node) and by `detect_language_node` (the minimal
 * orchestrator's only node).
 */
module Router {
  import opened Wrappers
  import opened State
  import Text

  /** Some React or ES-module marker is present. */
  predicate LooksJavaScript(code: string) {
    Text.Contains(code, "import React")
    || (Text.Contains(code, "function(") && Text.Contains(code, "export default"))
  }

  predicate LooksJava(code: string) {
    Text.Contains(code, "class ") && Text.Contains(code, "public static void main")
  }

  /** The language both nodes detect: python by default, javascript on its markers, java last and overriding. */
  function DetectLanguage(code: string): (lang: string)
    ensures lang == "java" <==> LooksJava(code)
    ensures lang == "javascript" <==> LooksJavaScript(code) && !LooksJava(code)
    ensures lang == "python" <==> !LooksJavaScript(code) && !LooksJava(code)
  {
    var lang := if LooksJavaScript(code) then "javascript" else "python";
    if LooksJava(code) then "java" else lang
  }

  /** Code with none of the markers, the empty code among them, is python. */
  lemma EmptyCodeIsPython()
    ensures DetectLanguage("") == "python"
  {
    assert !Text.OccursAt("", "class ", 0);
    assert !Text.OccursAt("", "import React", 0);
    assert !Text.OccursAt("", "function(", 0);
  }

  function RouterLog(lang: string): LogEntry {
    LogEntry("router", "router", "Router: detected language = " + lang, "completed")
  }

  /** `router_node`: set the language, append one log naming it, add 5 to the progress (capped at 100). */
  method RouterNode(s: ReviewState) returns (r: ReviewState)
    ensures r.language == Some(DetectLanguage(s.code))
    ensures |r.toolLogs| == |s.toolLogs| + 1 && r.toolLogs[..|s.toolLogs|] == s.toolLogs
    ensures r.toolLogs[|s.toolLogs|] == RouterLog(DetectLanguage(s.code))
    ensures r.progress <= 100.0 && r.progress == Bump(s.progress, 5.0)
    ensures r == s.(language := r.language, toolLogs := r.toolLogs, progress := r.progress)
  {
    var code := s.code;
    var lang := "python";
    if Text.Contains(code, "import React") || (Text.Contains(code, "function(") && Text.Contains(code, "export default")) {
      lang := "javascript";
    }
    if Text.Contains(code, "class ") && Text.Contains(code, "public static void main") {
      lang := "java";
    }
    r := s.(language := Some(lang));
    r := r.(toolLogs := AppendLog(r.toolLogs, RouterLog(lang)));
    r := r.(progress := Bump(r.progress, 5.0));
  }

  function DetectLog(lang: string): LogEntry {
    LogEntry("lang", "router", "Router: detected language = " + lang, "completed")
  }

  /** `detect_language_node`: the same detection; one log appended; progress and every other key untouched. */
  method DetectLanguageNode(s: ReviewState) returns (r: ReviewState)
    ensures r == s.(language := Some(DetectLanguage(s.code)),
                    toolLogs := s.toolLogs + [DetectLog(DetectLanguage(s.code))])
    ensures r.progress == s.progress
  {
    var code := s.code;
    var lang := "python";
    if Text.Contains(code, "import React") || (Text.Contains(code, "function(") && Text.Contains(code, "export default")) {
      lang := "javascript";
    }
    if Text.Contains(code, "class ") && Text.Contains(code, "public static void main") {
      lang := "java";
    }
    r := s.(language := Some(lang), toolLogs := s.toolLogs + [DetectLog(lang)]);
  }
}
