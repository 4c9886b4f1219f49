/**
 * `context_node`: normalises the two input modalities into one list of
 * files (pasted code becomes the single virtual file "<pasted>", uploaded
 * files are kept only when their extension is scannable), summarises them,
 * and fills `code` from the first ten files when it was empty.
 */
module Context {
  import opened Wrappers
  import opened State
  import Text
  import Sorting

  /** `_SCANNABLE_EXTS`; a Python set, but no two of them can match the same path (see `ExtensionsExclusive`). */
  const ScannableExts: seq<string> := [".py", ".js", ".ts", ".tsx", ".jsx", ".java"]

  function ExtLanguage(ext: string): string {
    if ext == ".py" then "python"
    else if ext == ".js" || ext == ".jsx" then "javascript"
    else if ext == ".ts" || ext == ".tsx" then "typescript"
    else "java"
  }

  /** The first extension of `exts` that `p` ends with. */
  function FirstSuffix(p: string, exts: seq<string>): (r: Option<string>)
    ensures r.Some? ==> r.value in exts && Text.EndsWith(p, r.value)
    ensures r.None? <==> forall e :: e in exts ==> !Text.EndsWith(p, e)
  {
    if exts == [] then None
    else if Text.EndsWith(p, exts[0]) then Some(exts[0])
    else FirstSuffix(p, exts[1..])
  }

  /** `_language_from_path(path)` */
  function LanguageFromPath(path: string): (r: Option<string>)
    ensures r.None? <==> forall e :: e in ScannableExts ==> !Text.EndsWith(Text.Lower(path), e)
    ensures r.Some? ==> exists e :: e in ScannableExts && Text.EndsWith(Text.Lower(path), e)
                                    && r.value == ExtLanguage(e)
  {
    match FirstSuffix(Text.Lower(path), ScannableExts)
    case None => None
    case Some(e) => Some(ExtLanguage(e))
  }

  lemma SuffixOfSuffix(p: string, a: string, b: string)
    requires Text.EndsWith(p, a) && Text.EndsWith(p, b) && |a| <= |b|
    ensures Text.EndsWith(b, a)
  {
    assert b[|b| - |a|..] == p[|p| - |a|..];
  }

  /**
   * No path ends with two different scannable extensions, so whichever
   * order the set is walked in, the same extension decides the language.
   */
  lemma ExtensionsExclusive(p: string, a: string, b: string)
    requires a in ScannableExts && b in ScannableExts
    requires Text.EndsWith(p, a) && Text.EndsWith(p, b)
    ensures a == b
  {
    if |a| <= |b| {
      SuffixOfSuffix(p, a, b);
    } else {
      SuffixOfSuffix(p, b, a);
    }
  }

  /** One entry of `_filter_files`: nothing when the stripped path is empty or not scannable. */
  function FilterOne(f: SourceFile): (r: Option<SourceFile>)
    ensures r.Some? <==> Text.Strip(f.path) != [] && LanguageFromPath(Text.Strip(f.path)).Some?
    ensures r.Some? ==> r.value == SourceFile(Text.Strip(f.path), LanguageFromPath(Text.Strip(f.path)),
                                              |f.content|, f.content)
  {
    var path := Text.Strip(f.path);
    var lang := LanguageFromPath(path);
    if path == [] || lang.None? then None
    else Some(SourceFile(path, lang, |f.content|, f.content))
  }

  /** The images under `f` of the files `f` keeps, in input order. */
  function FilteredBy(files: seq<SourceFile>, f: SourceFile -> Option<SourceFile>): seq<SourceFile> {
    if files == [] then []
    else
      var init := FilteredBy(files[..|files| - 1], f);
      match f(files[|files| - 1])
      case None => init
      case Some(g) => init + [g]
  }

  /** `_filter_files(files)`: the scannable files, normalised, in input order. */
  function Filtered(files: seq<SourceFile>): seq<SourceFile> {
    FilteredBy(files, FilterOne)
  }

  /** A file as `_filter_files` keeps it: stripped non-empty path, its language, its size. */
  predicate Normalised(g: SourceFile) {
    g.path != [] && Text.Strip(g.path) == g.path
    && g.language.Some? && g.language == LanguageFromPath(g.path) && g.size == |g.content|
  }

  lemma FilterOneSound(f: SourceFile)
    requires FilterOne(f).Some?
    ensures Normalised(FilterOne(f).value)
  {
    Text.StripIdempotent(f.path);
  }

  /** One more file adds its image, if any, at the end. */
  lemma FilteredStep(files: seq<SourceFile>, i: nat, f: SourceFile -> Option<SourceFile>)
    requires i < |files|
    ensures f(files[i]).None? ==> FilteredBy(files[..i + 1], f) == FilteredBy(files[..i], f)
    ensures f(files[i]).Some? ==> FilteredBy(files[..i + 1], f) == FilteredBy(files[..i], f) + [f(files[i]).value]
  {
    assert files[..i + 1][..i] == files[..i];
  }

  /** Everything kept is the image of some file. */
  lemma {:induction false} FilteredFrom(files: seq<SourceFile>, f: SourceFile -> Option<SourceFile>)
    ensures forall g :: g in FilteredBy(files, f) ==> exists i :: 0 <= i < |files| && f(files[i]) == Some(g)
  {
    if files != [] {
      var n := |files| - 1;
      var init := files[..n];
      FilteredFrom(init, f);
      forall g | g in FilteredBy(files, f) ensures exists i :: 0 <= i < |files| && f(files[i]) == Some(g) {
        if g in FilteredBy(init, f) {
          var i :| 0 <= i < |init| && f(init[i]) == Some(g);
          assert init[i] == files[i];
        } else {
          assert f(files[n]) == Some(g);
        }
      }
    }
  }

  /** Nothing `f` keeps is dropped, and there are no more results than files. */
  lemma {:induction false} FilteredAll(files: seq<SourceFile>, f: SourceFile -> Option<SourceFile>)
    ensures forall i :: 0 <= i < |files| && f(files[i]).Some? ==> f(files[i]).value in FilteredBy(files, f)
    ensures |FilteredBy(files, f)| <= |files|
  {
    if files != [] {
      var n := |files| - 1;
      var init := files[..n];
      FilteredAll(init, f);
      forall i | 0 <= i < |files| && f(files[i]).Some? ensures f(files[i]).value in FilteredBy(files, f) {
        if i < n {
          assert files[i] == init[i];
        }
      }
    }
  }

  /** Every kept file has a stripped, non-empty, scannable path, its language, and its size. */
  lemma FilteredSound(files: seq<SourceFile>)
    ensures forall g :: g in Filtered(files) ==> Normalised(g)
  {
    FilteredFrom(files, FilterOne);
    forall g | g in Filtered(files) ensures Normalised(g) {
      var i :| 0 <= i < |files| && FilterOne(files[i]) == Some(g);
      FilterOneSound(files[i]);
    }
  }

  /** Nothing scannable is dropped: each file that passes the filter is in the result. */
  lemma FilteredComplete(files: seq<SourceFile>)
    ensures forall i :: 0 <= i < |files| && FilterOne(files[i]).Some? ==>
              FilterOne(files[i]).value in Filtered(files)
    ensures |Filtered(files)| <= |files|
  {
    FilteredAll(files, FilterOne);
  }

  /** `_filter_files`: the loop over the uploaded files. */
  method FilterFiles(files: seq<SourceFile>) returns (out: seq<SourceFile>)
    ensures out == Filtered(files)
  {
    out := [];
    var i := 0;
    while i < |files|
      invariant 0 <= i <= |files|
      invariant out == Filtered(files[..i])
    {
      var f := files[i];
      FilteredStep(files, i, FilterOne);
      var path := Text.Strip(f.path);
      var lang := LanguageFromPath(path);
      if path != [] && lang.Some? {
        out := out + [SourceFile(path, lang, |f.content|, f.content)];
      }
      i := i + 1;
    }
    assert files[..i] == files;
  }

  /** The input mode: `source` lower-cased, or "files"/"pasted" by whether files were sent. */
  function SourceMode(source: Option<string>, files: Option<seq<SourceFile>>): (m: string)
    ensures m != []
    ensures source.Some? && source.value != [] ==> m == Text.Lower(source.value)
    ensures (source.None? || source.value == []) ==>
              m == if files.Some? && files.value != [] then "files" else "pasted"
  {
    var lowered := Text.Lower(source.GetOr([]));
    if lowered != [] then lowered
    else if files.Some? && files.value != [] then "files" else "pasted"
  }

  /** The pasted code as the single virtual file; the language defaults to python. */
  function PastedFile(s: ReviewState): SourceFile {
    var lang := if s.language.Some? && s.language.value != [] then s.language.value else "python";
    SourceFile("<pasted>", Some(lang), |s.code|, s.code)
  }

  /** The files the node collects. */
  function Collected(s: ReviewState): (r: seq<SourceFile>)
    ensures SourceMode(s.source, s.files) == "pasted" ==> r == [PastedFile(s)]
    ensures SourceMode(s.source, s.files) != "pasted" ==> r == Filtered(s.files.GetOr([]))
  {
    if SourceMode(s.source, s.files) == "pasted" then [PastedFile(s)] else Filtered(s.files.GetOr([]))
  }

  /** `str(f.get("language") or "")` */
  function LangKey(f: SourceFile): string {
    if f.language.Some? then f.language.value else ""
  }

  function LangKeys(files: seq<SourceFile>): (r: seq<string>)
    ensures |r| == |files| && forall i :: 0 <= i < |files| ==> r[i] == LangKey(files[i])
  {
    if files == [] then [] else LangKeys(files[..|files| - 1]) + [LangKey(files[|files| - 1])]
  }

  /** The line count of a file: its newlines plus one. */
  function TotalLines(files: seq<SourceFile>): int {
    if files == [] then 0
    else TotalLines(files[..|files| - 1]) + Text.CountChar(files[|files| - 1].content, '\n') + 1
  }

  /** `context`: the file count, the line count and the distinct languages, sorted. */
  function Summary(files: seq<SourceFile>): ContextSummary {
    ContextSummary(|files|, TotalLines(files), Sorting.SortedUnique(LangKeys(files)))
  }

  /** The characters of all files. */
  function TotalSize(files: seq<SourceFile>): nat {
    if files == [] then 0 else TotalSize(files[..|files| - 1]) + |files[|files| - 1].content|
  }

  /** Every file counts for at least one line and at most one more than its length. */
  lemma {:induction false} TotalLinesBounds(files: seq<SourceFile>)
    ensures |files| <= TotalLines(files) <= |files| + TotalSize(files)
  {
    if files != [] {
      TotalLinesBounds(files[..|files| - 1]);
    }
  }

  /** The summary counts every file, and lists each language exactly once, in increasing order. */
  lemma SummaryFacts(files: seq<SourceFile>)
    ensures Summary(files).totalFiles == |files| && Summary(files).totalLines >= |files|
    ensures Sorting.StrictlySorted(Summary(files).languages)
    ensures forall l :: l in Summary(files).languages <==> exists i :: 0 <= i < |files| && LangKey(files[i]) == l
  {
    TotalLinesBounds(files);
    var keys := LangKeys(files);
    forall l ensures l in keys <==> exists i :: 0 <= i < |files| && LangKey(files[i]) == l {
      if l in keys {
        var i :| 0 <= i < |keys| && keys[i] == l;
        assert LangKey(files[i]) == l;
      }
    }
  }

  /** One separated block of the aggregated code sample. */
  function FileBlock(f: SourceFile): string {
    "\n# File: " + f.path + "\n" + f.content
  }

  function Blocks(files: seq<SourceFile>): (r: seq<string>)
    ensures |r| == |files| && forall i :: 0 <= i < |files| ==> r[i] == FileBlock(files[i])
  {
    if files == [] then [] else Blocks(files[..|files| - 1]) + [FileBlock(files[|files| - 1])]
  }

  /** The aggregated sample: the blocks of the first ten files, joined by newlines. */
  function CodeSample(files: seq<SourceFile>): string {
    Text.Join(Blocks(Text.Take(files, 10)), "\n")
  }

  /** Each of the first ten files appears in the sample under its own header. */
  lemma CodeSampleHasFiles(files: seq<SourceFile>)
    ensures forall i :: 0 <= i < |files| && i < 10 ==> Text.Contains(CodeSample(files), FileBlock(files[i]))
  {
    var top := Text.Take(files, 10);
    Text.JoinContainsParts(Blocks(top), "\n");
    forall i | 0 <= i < |files| && i < 10 ensures Text.Contains(CodeSample(files), FileBlock(files[i])) {
      assert top[i] == files[i];
      assert Blocks(top)[i] == FileBlock(files[i]);
    }
  }

  /** The summary loop of `context_node`. */
  method Summarize(collected: seq<SourceFile>) returns (summary: ContextSummary)
    ensures summary == Summary(collected)
  {
    var totalLines := 0;
    var languages: seq<string> := [];
    var i := 0;
    while i < |collected|
      invariant 0 <= i <= |collected|
      invariant totalLines == TotalLines(collected[..i])
      invariant languages == LangKeys(collected[..i])
    {
      assert collected[..i + 1][..i] == collected[..i];
      languages := languages + [LangKey(collected[i])];
      totalLines := totalLines + Text.CountChar(collected[i].content, '\n') + 1;
      i := i + 1;
    }
    assert collected[..i] == collected;
    summary := ContextSummary(|collected|, totalLines, Sorting.SortedUnique(languages));
  }

  /** The loop that builds the aggregated code sample. */
  method BuildCodeSample(collected: seq<SourceFile>) returns (code: string)
    ensures code == CodeSample(collected)
  {
    var top := Text.Take(collected, 10);
    var parts: seq<string> := [];
    var j := 0;
    while j < |top|
      invariant 0 <= j <= |top|
      invariant parts == Blocks(top[..j])
    {
      assert top[..j + 1][..j] == top[..j];
      parts := parts + ["\n# File: " + top[j].path + "\n" + top[j].content];
      j := j + 1;
    }
    assert top[..j] == top;
    code := Text.Join(parts, "\n");
  }

  const ContextLog := LogEntry("context", "orchestrator", "Context retrieved.", "completed")

  /**
   * `context_node`: records the mode, replaces `files` by the collected
   * files, writes the summary, fills an empty `code` from the files, raises
   * the progress to at least 20 and appends its log.
   */
  method ContextNode(s: ReviewState) returns (r: ReviewState)
    ensures r.source == Some(SourceMode(s.source, s.files))
    ensures r.files == Some(Collected(s))
    ensures r.context == Some(Summary(Collected(s)))
    ensures r.code == if Collected(s) != [] && s.code == [] then CodeSample(Collected(s)) else s.code
    ensures r.progress == Floor(s.progress, 20.0)
    ensures r.toolLogs == s.toolLogs + [ContextLog]
    ensures r == s.(source := r.source, files := r.files, context := r.context, code := r.code,
                    progress := r.progress, toolLogs := r.toolLogs)
  {
    var mode := SourceMode(s.source, s.files);
    var collected: seq<SourceFile>;
    if mode == "pasted" {
      var lang := if s.language.Some? && s.language.value != [] then s.language.value else "python";
      collected := [SourceFile("<pasted>", Some(lang), |s.code|, s.code)];
    } else {
      collected := FilterFiles(s.files.GetOr([]));
    }
    var summary := Summarize(collected);
    var code := s.code;
    if collected != [] && s.code == [] {
      code := BuildCodeSample(collected);
    }
    r := s.(source := Some(mode), files := Some(collected), context := Some(summary), code := code,
            progress := Floor(s.progress, 20.0), toolLogs := s.toolLogs + [ContextLog]);
  }
}
