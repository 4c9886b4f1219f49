/**
 * The topology of the review graph (`build_graph`) and of the minimal
 * orchestrator (`build_app`): fixed edges plus one conditional edge out of
 * `experts_model`, whose routing key comes from `_route_experts`. Running the
 * graph itself is the framework's job; here a run is the path of nodes it
 * visits, and the proofs show that the experts loop ends.
 */
module Graph {
  import opened Wrappers
  import opened State
  import Text
  import Experts

  datatype Node = Start | Router | StaticAnalysis | SecurityAnalysis
                | ExpertsModel | ExpertsTools | ExpertsFinalize | Synthesis | Persist | End

  /** `_route_experts(state)`: "tools" only for `experts_next == "tools"`; anything else, missing or empty included, is "finalize". */
  function RouteExperts(expertsNext: Option<string>): (route: string)
    ensures route == "tools" <==> expertsNext == Some("tools")
    ensures route == "tools" || route == "finalize"
  {
    var nxt := if expertsNext.None? || expertsNext.value == [] then "finalize" else expertsNext.value;
    if nxt == "tools" then "tools" else "finalize"
  }

  /** The mapping of the conditional edge: label → node. */
  function ExpertsTarget(route: string): Node {
    if route == "tools" then ExpertsTools else ExpertsFinalize
  }

  /** The edge table: where the graph goes after `n`, given `experts_next` for the conditional edge. */
  function Next(n: Node, expertsNext: Option<string>): Option<Node> {
    match n
    case Start => Some(Router)
    case Router => Some(StaticAnalysis)
    case StaticAnalysis => Some(SecurityAnalysis)
    case SecurityAnalysis => Some(ExpertsModel)
    case ExpertsModel => Some(ExpertsTarget(RouteExperts(expertsNext)))
    case ExpertsTools => Some(ExpertsModel)
    case ExpertsFinalize => Some(Synthesis)
    case Synthesis => Some(Persist)
    case Persist => Some(End)
    case End => None
  }

  /** The nodes an edge may lead to from `n`. */
  function Successors(n: Node): set<Node> {
    if n == ExpertsModel then {ExpertsTools, ExpertsFinalize}
    else if n == End then {}
    else {Next(n, None).value}
  }

  /** `experts_model` has exactly the two successors of its conditional edge; every other node but END has one. */
  lemma NextIsSuccessor(n: Node, expertsNext: Option<string>)
    ensures n == End <==> Next(n, expertsNext).None?
    ensures Next(n, expertsNext).Some? ==> Next(n, expertsNext).value in Successors(n)
    ensures n == ExpertsModel ==>
              (Next(n, expertsNext) == Some(ExpertsTools) <==> expertsNext == Some("tools"))
    ensures n != ExpertsModel && n != End ==> |Successors(n)| == 1
  {
  }

  /** `_persist_node`: the identity. */
  function PersistNode(s: ReviewState): (r: ReviewState)
    ensures r == s
  {
    s
  }

  // ---- runs ----

  /**
   * The visits of the experts loop when `experts_iterations` is
   * `iterations` on entry and `asksForTools(k)` says whether the model's
   * k-th reply has tool calls (false on a cache hit or without a model).
   * It terminates because each round to the tools raises the count, and
   * the model only sends the loop to the tools below two rounds.
   */
  function ExpertsLoop(iterations: int, k: nat, asksForTools: nat -> bool): (path: seq<Node>)
    decreases if iterations < Experts.MaxToolRounds then Experts.MaxToolRounds - iterations else 0
    ensures |path| >= 2 && path[0] == ExpertsModel && path[|path| - 1] == ExpertsFinalize
    ensures forall i :: 0 <= i < |path| ==> path[i] in {ExpertsModel, ExpertsTools, ExpertsFinalize}
  {
    var next := Experts.NextAfterModel(iterations, asksForTools(k));
    if RouteExperts(Some(next)) == "tools" then
      [ExpertsModel, ExpertsTools] + ExpertsLoop(iterations + 1, k + 1, asksForTools)
    else [ExpertsModel, ExpertsFinalize]
  }

  /** How often `n` is visited along `path`. */
  function Count(n: Node, path: seq<Node>): nat {
    if path == [] then 0 else (if path[0] == n then 1 else 0) + Count(n, path[1..])
  }

  lemma {:induction false} CountAppend(n: Node, a: seq<Node>, b: seq<Node>)
    ensures Count(n, a + b) == Count(n, a) + Count(n, b)
  {
    if a == [] {
      assert a + b == b;
    } else {
      assert (a + b)[1..] == a[1..] + b;
      CountAppend(n, a[1..], b);
    }
  }

  lemma CountTwo(n: Node, x: Node, y: Node)
    ensures Count(n, [x, y]) == (if x == n then 1 else 0) + (if y == n then 1 else 0)
  {
    assert [x, y][1..] == [y];
    assert [y][1..] == [];
    assert Count(n, [y]) == (if y == n then 1 else 0) + Count(n, []);
  }

  lemma {:induction false} CountAbsent(n: Node, p: seq<Node>)
    requires forall i :: 0 <= i < |p| ==> p[i] != n
    ensures Count(n, p) == 0
  {
    if p != [] {
      CountAbsent(n, p[1..]);
    }
  }

  /** Consecutive nodes of `p` are joined by edges. */
  predicate Walk(p: seq<Node>) {
    forall i :: 0 <= i < |p| - 1 ==> p[i + 1] in Successors(p[i])
  }

  /** Two walks joined by an edge make one walk. */
  lemma WalkConcat(a: seq<Node>, b: seq<Node>)
    requires Walk(a) && Walk(b) && a != [] && b != [] && b[0] in Successors(a[|a| - 1])
    ensures Walk(a + b)
  {
    var p := a + b;
    forall i | 0 <= i < |p| - 1 ensures p[i + 1] in Successors(p[i]) {
      if i >= |a| {
        var j := i - |a|;
        assert p[i] == b[j] && p[i + 1] == b[j + 1];
      } else if i < |a| - 1 {
        assert p[i] == a[i] && p[i + 1] == a[i + 1];
      }
    }
  }

  /** The tools run at most `2 - iterations` times, whatever the model replies. */
  lemma {:induction false} ToolRoundsBounded(iterations: int, k: nat, asksForTools: nat -> bool)
    decreases if iterations < Experts.MaxToolRounds then Experts.MaxToolRounds - iterations else 0
    ensures Count(ExpertsTools, ExpertsLoop(iterations, k, asksForTools))
            <= if iterations < Experts.MaxToolRounds then Experts.MaxToolRounds - iterations else 0
  {
    var next := Experts.NextAfterModel(iterations, asksForTools(k));
    if RouteExperts(Some(next)) == "tools" {
      var rest := ExpertsLoop(iterations + 1, k + 1, asksForTools);
      ToolRoundsBounded(iterations + 1, k + 1, asksForTools);
      CountAppend(ExpertsTools, [ExpertsModel, ExpertsTools], rest);
      CountTwo(ExpertsTools, ExpertsModel, ExpertsTools);
    } else {
      CountTwo(ExpertsTools, ExpertsModel, ExpertsFinalize);
    }
  }

  /** Consecutive nodes of the experts loop are joined by edges, with the conditional edge taken as routed. */
  lemma {:induction false} ExpertsLoopFollowsEdges(iterations: int, k: nat, asksForTools: nat -> bool)
    decreases if iterations < Experts.MaxToolRounds then Experts.MaxToolRounds - iterations else 0
    ensures Walk(ExpertsLoop(iterations, k, asksForTools))
  {
    var next := Experts.NextAfterModel(iterations, asksForTools(k));
    if RouteExperts(Some(next)) == "tools" {
      var rest := ExpertsLoop(iterations + 1, k + 1, asksForTools);
      ExpertsLoopFollowsEdges(iterations + 1, k + 1, asksForTools);
      assert Walk([ExpertsModel, ExpertsTools]);
      WalkConcat([ExpertsModel, ExpertsTools], rest);
    } else {
      assert Walk([ExpertsModel, ExpertsFinalize]);
    }
  }

  /** A whole run of the review graph. */
  function Run(iterations: int, asksForTools: nat -> bool): seq<Node> {
    [Start, Router, StaticAnalysis, SecurityAnalysis] + ExpertsLoop(iterations, 0, asksForTools)
    + [Synthesis, Persist, End]
  }

  /** Every run starts at START, follows the edges, and reaches END. */
  lemma RunReachesEnd(asksForTools: nat -> bool, iterations: int)
    ensures var p := Run(iterations, asksForTools);
            p[0] == Start && p[|p| - 1] == End && Walk(p)
  {
    var loop := ExpertsLoop(iterations, 0, asksForTools);
    var head := [Start, Router, StaticAnalysis, SecurityAnalysis];
    var tail := [Synthesis, Persist, End];
    HeadTailWalks();
    ExpertsLoopFollowsEdges(iterations, 0, asksForTools);
    WalkConcat(head, loop);
    WalkConcat(head + loop, tail);
  }

  lemma HeadTailWalks()
    ensures Walk([Start, Router, StaticAnalysis, SecurityAnalysis])
    ensures Walk([Synthesis, Persist, End])
  {
  }

  /** A run that starts without `experts_iterations` goes through the tools at most twice. */
  lemma RunToolRounds(asksForTools: nat -> bool)
    ensures Count(ExpertsTools, Run(0, asksForTools)) <= 2
  {
    var loop := ExpertsLoop(0, 0, asksForTools);
    var head := [Start, Router, StaticAnalysis, SecurityAnalysis];
    var tail := [Synthesis, Persist, End];
    ToolRoundsBounded(0, 0, asksForTools);
    CountAppend(ExpertsTools, head, loop);
    CountAppend(ExpertsTools, head + loop, tail);
    HeadTailNoTools();
  }

  lemma HeadTailNoTools()
    ensures Count(ExpertsTools, [Start, Router, StaticAnalysis, SecurityAnalysis]) == 0
    ensures Count(ExpertsTools, [Synthesis, Persist, End]) == 0
  {
    CountAbsent(ExpertsTools, [Start, Router, StaticAnalysis, SecurityAnalysis]);
    CountAbsent(ExpertsTools, [Synthesis, Persist, End]);
  }

  /** `LANGGRAPH_CHECKPOINTER`, lower-cased, is "1", "true" or "yes"; unset reads as "0". */
  function UseCheckpointer(env: Option<string>): (on: bool)
    ensures env.None? ==> !on
    ensures on <==> Text.Lower(env.GetOr("0")) in {"1", "true", "yes"}
  {
    var v := Text.Lower(env.GetOr("0"));
    v == "1" || v == "true" || v == "yes"
  }

  // ---- the minimal orchestrator ----

  datatype AppNode = AppStart | DetectLanguage | AppPersist | AppEnd

  /** `build_app`: START → detect_language → persist → END. */
  function AppNext(n: AppNode): (r: Option<AppNode>)
    ensures r.None? <==> n == AppEnd
  {
    match n
    case AppStart => Some(DetectLanguage)
    case DetectLanguage => Some(AppPersist)
    case AppPersist => Some(AppEnd)
    case AppEnd => None
  }

  /** The orchestrator's only run visits each of its nodes once, in order. */
  function AppRun(n: AppNode): (path: seq<AppNode>)
    decreases if n == AppStart then 3 else if n == DetectLanguage then 2 else if n == AppPersist then 1 else 0
    ensures path != [] && path[0] == n && path[|path| - 1] == AppEnd
    ensures forall i :: 0 <= i < |path| - 1 ==> AppNext(path[i]) == Some(path[i + 1])
  {
    match AppNext(n)
    case None => [n]
    case Some(m) =>
      var rest := AppRun(m);
      [n] + rest
  }
}
