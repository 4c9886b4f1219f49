/**
 * The complexity summary shared by `static_analysis_node` and
 * `quality_node`, and the issues both derive from it. radon's `cc_visit`
 * is abstracted as its outcome: not installed, a parse error, or the list
 * of blocks. `static_analysis_node` reads both failures as an empty list;
 * `quality_node` does so only for a missing radon, and a parse error
 * escapes from it.
 */
module Complexity {
  import opened Wrappers
  import opened State
  import Text
  import Scanners

  /** A function or method block with its cyclomatic complexity. */
  datatype Block = Block(name: string, lineno: Option<int>, complexity: real)

  /** What calling `cc_visit(code or "")` comes to. */
  datatype CcVisit = NotInstalled | ParseError | Blocks(blocks: seq<Block>)

  /** `static_analysis.py`: a missing radon and a parse error both give no blocks. */
  function StaticBlocks(cc: CcVisit): (b: seq<Block>)
    ensures cc.Blocks? ==> b == cc.blocks
    ensures !cc.Blocks? ==> b == []
  {
    if cc.Blocks? then cc.blocks else []
  }

  const OffenderThreshold := 10.0
  const FileLengthLimit := 2000
  const SplitSuggestion := "Split long function into smaller units and reduce branching."
  const LargeFileSuggestion := "Large file detected; consider extracting modules for cohesion."

  function SumScores(blocks: seq<Block>): real {
    if blocks == [] then 0.0 else SumScores(blocks[..|blocks| - 1]) + blocks[|blocks| - 1].complexity
  }

  /** `max(scores)`, or 0.0 for no blocks. */
  function Worst(blocks: seq<Block>): real {
    if blocks == [] then 0.0
    else if |blocks| == 1 then blocks[0].complexity
    else
      var w := Worst(blocks[..|blocks| - 1]);
      var c := blocks[|blocks| - 1].complexity;
      if c > w then c else w
  }

  /** The worst score bounds every block and belongs to one of them. */
  lemma {:induction false} WorstIsMax(blocks: seq<Block>)
    ensures forall i :: 0 <= i < |blocks| ==> blocks[i].complexity <= Worst(blocks)
    ensures blocks != [] ==> exists i :: 0 <= i < |blocks| && blocks[i].complexity == Worst(blocks)
  {
    if |blocks| == 1 {
      assert blocks[0].complexity == Worst(blocks);
    } else if |blocks| > 1 {
      var init := blocks[..|blocks| - 1];
      WorstIsMax(init);
      var i :| 0 <= i < |init| && init[i].complexity == Worst(init);
      assert blocks[i] == init[i];
      forall j | 0 <= j < |init| ensures blocks[j].complexity <= Worst(blocks) {
        assert blocks[j] == init[j];
      }
      if blocks[|blocks| - 1].complexity > Worst(init) {
        assert blocks[|blocks| - 1].complexity == Worst(blocks);
      } else {
        assert blocks[i].complexity == Worst(blocks);
      }
    }
  }

  function ToOffender(b: Block): Offender {
    Offender(b.name, b.lineno, b.complexity)
  }

  /** The blocks of complexity at least 10, in block order. */
  function Offenders(blocks: seq<Block>): seq<Offender> {
    if blocks == [] then []
    else
      var init := Offenders(blocks[..|blocks| - 1]);
      var b := blocks[|blocks| - 1];
      if b.complexity >= OffenderThreshold then init + [ToOffender(b)] else init
  }

  /** Offenders are exactly the heavy blocks. */
  lemma {:induction false} OffendersExact(blocks: seq<Block>)
    ensures forall o :: o in Offenders(blocks) ==> o.complexity >= OffenderThreshold
    ensures forall i :: 0 <= i < |blocks| && blocks[i].complexity >= OffenderThreshold ==>
              ToOffender(blocks[i]) in Offenders(blocks)
    ensures |Offenders(blocks)| <= |blocks|
  {
    if blocks != [] {
      var init := blocks[..|blocks| - 1];
      OffendersExact(init);
      forall i | 0 <= i < |blocks| && blocks[i].complexity >= OffenderThreshold
        ensures ToOffender(blocks[i]) in Offenders(blocks)
      {
        if i < |blocks| - 1 {
          assert blocks[i] == init[i];
        }
      }
    }
  }

  /** There is an offender exactly when the worst score reaches 10, so the `worst >= 10` guard only skips an empty loop. */
  lemma OffendersIffWorst(blocks: seq<Block>)
    ensures Offenders(blocks) != [] <==> Worst(blocks) >= OffenderThreshold
  {
    WorstIsMax(blocks);
    OffendersExact(blocks);
    if Worst(blocks) >= OffenderThreshold && blocks != [] {
      var i :| 0 <= i < |blocks| && blocks[i].complexity == Worst(blocks);
      assert ToOffender(blocks[i]) in Offenders(blocks);
    }
    if Offenders(blocks) != [] {
      assert Offenders(blocks)[0] in Offenders(blocks);
      OffenderFromBlock(blocks, Offenders(blocks)[0]);
    }
  }

  lemma {:induction false} OffenderFromBlock(blocks: seq<Block>, o: Offender)
    requires o in Offenders(blocks)
    ensures exists i :: 0 <= i < |blocks| && ToOffender(blocks[i]) == o
  {
    var init := blocks[..|blocks| - 1];
    if o in Offenders(init) {
      OffenderFromBlock(init, o);
      var i :| 0 <= i < |init| && ToOffender(init[i]) == o;
      assert blocks[i] == init[i];
    } else {
      assert ToOffender(blocks[|blocks| - 1]) == o;
    }
  }

  /** `_complexity_summary(code)` over the blocks radon found. */
  function Summary(blocks: seq<Block>): (m: Metrics)
    ensures m.count == Some(|blocks|) && m.worst == Some(Worst(blocks))
    ensures m.offenders == Some(Offenders(blocks))
    ensures blocks == [] ==> m == Metrics(Some(0.0), Some(0.0), Some(0), Some([]))
    ensures blocks != [] ==> m.avg == Some(SumScores(blocks) / (|blocks| as real))
  {
    var avg := if blocks == [] then 0.0 else SumScores(blocks) / (|blocks| as real);
    Metrics(Some(avg), Some(Worst(blocks)), Some(|blocks|), Some(Offenders(blocks)))
  }

  function ComplexityIssue(o: Offender): Issue {
    Issue(o.lineno, "cyclomatic_complexity", o.complexity, SplitSuggestion)
  }

  function FileLengthIssue(code: string): Issue {
    Issue(None, "file_length", |code| as real, LargeFileSuggestion)
  }

  /** The issues both nodes derive: one per offender when the worst score reaches 10, then one for a long file. */
  function Issues(code: string, blocks: seq<Block>): seq<Issue> {
    var offenders := Offenders(blocks);
    var cc := if Worst(blocks) >= OffenderThreshold
              then seq(|offenders|, i requires 0 <= i < |offenders| => ComplexityIssue(offenders[i]))
              else [];
    cc + (if |code| > FileLengthLimit then [FileLengthIssue(code)] else [])
  }

  /**
   * The issue list: one cyclomatic issue per heavy block, in block order,
   * and a final `file_length` issue exactly when the code exceeds 2000
   * characters; with no blocks there is no complexity issue at all.
   */
  lemma IssuesFacts(code: string, blocks: seq<Block>)
    ensures var r := Issues(code, blocks);
            |r| == |Offenders(blocks)| + (if |code| > FileLengthLimit then 1 else 0)
            && (forall i :: 0 <= i < |Offenders(blocks)| ==> r[i] == ComplexityIssue(Offenders(blocks)[i]))
            && (|code| > FileLengthLimit <==> r != [] && r[|r| - 1] == FileLengthIssue(code))
            && (blocks == [] ==> r == if |code| > FileLengthLimit then [FileLengthIssue(code)] else [])
  {
    OffendersIffWorst(blocks);
    var r := Issues(code, blocks);
    if |code| <= FileLengthLimit && r != [] {
      assert r[|r| - 1].metric == "cyclomatic_complexity";
    }
  }

  /** The loop that turns offenders into issues, guarded by the worst score, followed by the file-length check. */
  method BuildIssues(code: string, blocks: seq<Block>) returns (issues: seq<Issue>)
    ensures issues == Issues(code, blocks)
  {
    var offenders := Offenders(blocks);
    issues := [];
    if Worst(blocks) >= OffenderThreshold {
      var i := 0;
      while i < |offenders|
        invariant 0 <= i <= |offenders|
        invariant issues == seq(i, k requires 0 <= k < i => ComplexityIssue(offenders[k]))
      {
        issues := issues + [Issue(offenders[i].lineno, "cyclomatic_complexity", offenders[i].complexity, SplitSuggestion)];
        i := i + 1;
      }
    }
    if |code| > FileLengthLimit {
      issues := issues + [Issue(None, "file_length", |code| as real, LargeFileSuggestion)];
    }
  }

  const StaticLog := LogEntry("static", "quality+bug", "Static analysis: quality metrics and bug heuristics complete.",
                              "completed")
  const QualityLog := LogEntry("quality", "quality", "Quality Expert: metrics analyzed.", "completed")

  /**
   * `static_analysis_node`: replaces the quality report and the bug report,
   * appends one log and adds 35 to the progress.
   */
  method StaticAnalysisNode(s: ReviewState, cc: CcVisit, hit: (string, string) -> bool)
    returns (r: ReviewState)
    ensures r.qualityReport == Some(QualityReport(Some(Summary(StaticBlocks(cc))), Some(Issues(s.code, StaticBlocks(cc)))))
    ensures r.bugReport == Present(BugReport(Scanners.BugSuspects(s.code, hit)))
    ensures r.toolLogs == s.toolLogs + [StaticLog]
    ensures r.progress == Bump(s.progress, 35.0)
    ensures r == s.(qualityReport := r.qualityReport, bugReport := r.bugReport, toolLogs := r.toolLogs,
                    progress := r.progress)
  {
    var blocks := StaticBlocks(cc);
    var metrics := Summary(blocks);
    var issues := BuildIssues(s.code, blocks);
    r := s.(qualityReport := Some(QualityReport(Some(metrics), Some(issues))));
    var ms := Scanners.ScanLines(Text.SplitLines(s.code), Scanners.BugKinds, hit);
    var suspects := seq(|ms|, i requires 0 <= i < |ms| => Scanners.ToBug(ms[i]));
    r := r.(bugReport := Present(BugReport(suspects)));
    r := r.(toolLogs := AppendLog(r.toolLogs, StaticLog));
    r := r.(progress := Bump(r.progress, 35.0));
  }

  /**
   * `quality_node`: replaces the quality report, appends one log and adds 20
   * to the progress. A missing radon counts as no blocks (the fallback
   * `cc_visit`); a parse error is not caught, so the node raises (`None`).
   */
  method QualityNode(s: ReviewState, cc: CcVisit) returns (r: Option<ReviewState>)
    ensures cc.ParseError? <==> r.None?
    ensures r.Some? ==>
              var blocks := if cc.Blocks? then cc.blocks else [];
              r.value.qualityReport == Some(QualityReport(Some(Summary(blocks)), Some(Issues(s.code, blocks))))
              && r.value.toolLogs == s.toolLogs + [QualityLog]
              && r.value.progress == Bump(s.progress, 20.0)
              && r.value == s.(qualityReport := r.value.qualityReport, toolLogs := r.value.toolLogs,
                               progress := r.value.progress)
  {
    if cc.ParseError? {
      return None;
    }
    var blocks := if cc.Blocks? then cc.blocks else [];
    var metrics := Summary(blocks);
    var issues := BuildIssues(s.code, blocks);
    var t := s.(qualityReport := Some(QualityReport(Some(metrics), Some(issues))));
    t := t.(toolLogs := AppendLog(t.toolLogs, QualityLog));
    t := t.(progress := Bump(t.progress, 20.0));
    r := Some(t);
  }
}
