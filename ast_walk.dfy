/**
 * `ast_tree_sitter_node` and its two tree walkers. The parser itself is a
 * parameter: it yields a syntax tree for a file's content under a grammar,
 * or nothing when that grammar is unavailable or the parser cannot be
 * configured (the walkers then return no findings). Each walker catches its
 * own exceptions and returns the findings collected so far; the point where
 * an exception strikes is a parameter too (`fault`: after how many findings,
 * if at all).
 */
module AstWalk {
  import opened Wrappers
  import opened State
  import Text

  /**
   * A syntax tree node: its type, its source text, its start row, and its
   * children; `fields[i]` is the field name of `children[i]` (a shorter
   * `fields` leaves the remaining children unnamed).
   */
  datatype Tree = Tree(kind: string, text: string, row: int, fields: seq<string>, children: seq<Tree>)

  datatype Grammar = Python | JavaScript

  const PythonDangerous: seq<string> := ["eval", "exec", "compile", "__import__"]
  const JsDangerous: seq<string> := ["eval", "Function"]
  const XssProps: seq<string> := ["innerHTML", "outerHTML"]

  function Dangerous(g: Grammar): seq<string> {
    match g
    case Python => PythonDangerous
    case JavaScript => JsDangerous
  }

  /** The node type of a call in each grammar. */
  function CallKind(g: Grammar): string {
    match g
    case Python => "call"
    case JavaScript => "call_expression"
  }

  function DangerMessage(name: string): string {
    "Dangerous function '" + name + "' detected"
  }

  function XssMessage(prop: string): string {
    "Direct " + prop + " assignment may lead to XSS"
  }

  /** The first child at index `i` or later whose field name is `name`. */
  function FieldFrom(t: Tree, name: string, i: nat): Option<Tree>
    decreases |t.children| - i
  {
    if i >= |t.children| then None
    else if i < |t.fields| && t.fields[i] == name then Some(t.children[i])
    else FieldFrom(t, name, i + 1)
  }

  /** The child found is the first one at or after `i` carrying the name, and there is one exactly when some child does. */
  lemma {:induction false} FieldFromFirst(t: Tree, name: string, i: nat)
    ensures FieldFrom(t, name, i).Some? <==>
              exists j :: i <= j < |t.children| && j < |t.fields| && t.fields[j] == name
    ensures FieldFrom(t, name, i).Some? ==>
              exists j :: i <= j < |t.children| && j < |t.fields| && t.fields[j] == name
                          && FieldFrom(t, name, i).value == t.children[j]
                          && forall k :: i <= k < j && k < |t.fields| ==> t.fields[k] != name
    decreases |t.children| - i
  {
    if i < |t.children| {
      if i < |t.fields| && t.fields[i] == name {
        assert FieldFrom(t, name, i).value == t.children[i];
      } else {
        FieldFromFirst(t, name, i + 1);
        assert FieldFrom(t, name, i) == FieldFrom(t, name, i + 1);
        if FieldFrom(t, name, i).Some? {
          var j :| i + 1 <= j < |t.children| && j < |t.fields| && t.fields[j] == name
                   && FieldFrom(t, name, i + 1).value == t.children[j]
                   && forall k :: i + 1 <= k < j && k < |t.fields| ==> t.fields[k] != name;
          assert forall k :: i <= k < j && k < |t.fields| ==> t.fields[k] != name;
        }
      }
    }
  }

  /** `node.child_by_field_name(name)`: the first child carrying that field name. */
  function ChildByField(t: Tree, name: string): Option<Tree> {
    FieldFrom(t, name, 0)
  }

  /** A call whose callee is an identifier in the grammar's dangerous list. */
  function CallFinding(g: Grammar, t: Tree, path: string): (r: seq<AstFinding>)
    ensures |r| <= 1
  {
    if t.kind != CallKind(g) then []
    else
      match ChildByField(t, "function")
      case None => []
      case Some(f) =>
        if f.kind == "identifier" && f.text in Dangerous(g)
        then [AstFinding("dangerous_function", f.text, t.row + 1, "high", DangerMessage(f.text), path)]
        else []
  }

  /** An assignment whose left side is a member expression naming `innerHTML` or `outerHTML`. */
  function XssFinding(t: Tree, path: string): (r: seq<AstFinding>)
    ensures |r| <= 1
  {
    if t.kind != "assignment_expression" then []
    else
      match ChildByField(t, "left")
      case None => []
      case Some(left) =>
        if left.kind != "member_expression" then []
        else
          match ChildByField(left, "property")
          case None => []
          case Some(p) =>
            if p.text in XssProps
            then [AstFinding("xss_risk", p.text, t.row + 1, "medium", XssMessage(p.text), path)]
            else []
  }

  /** The findings a single node contributes before its children are visited. */
  function Here(g: Grammar, t: Tree, path: string): seq<AstFinding> {
    match g
    case Python => CallFinding(Python, t, path)
    case JavaScript => CallFinding(JavaScript, t, path) + XssFinding(t, path)
  }

  /** What a single finding may be: its kind, severity, subject and message agree, and it names the file. */
  predicate Sound(g: Grammar, f: AstFinding, path: string) {
    f.path == path
    && ((f.kind == "dangerous_function" && f.severity == "high" && f.subject in Dangerous(g)
         && f.message == DangerMessage(f.subject))
        || (g == JavaScript && f.kind == "xss_risk" && f.severity == "medium" && f.subject in XssProps
            && f.message == XssMessage(f.subject)))
  }

  /** Every finding of a node is sound and carries the node's row plus one. */
  lemma HereSound(g: Grammar, t: Tree, path: string)
    ensures forall f :: f in Here(g, t, path) ==> Sound(g, f, path) && f.line == t.row + 1
  {
  }

  /** The recursive walk: the node's own findings, then each child's, in pre-order. */
  function Walk(g: Grammar, t: Tree, path: string): seq<AstFinding>
    decreases t
  {
    Here(g, t, path) + WalkAll(g, t.children, path)
  }

  function WalkAll(g: Grammar, ts: seq<Tree>, path: string): seq<AstFinding>
    decreases ts
  {
    if ts == [] then [] else Walk(g, ts[0], path) + WalkAll(g, ts[1..], path)
  }

  /** The nodes of a tree in pre-order: a reference for the walk. */
  function Subtrees(t: Tree): (r: seq<Tree>)
    ensures r != [] && r[0] == t
    decreases t
  {
    [t] + SubtreesAll(t.children)
  }

  function SubtreesAll(ts: seq<Tree>): seq<Tree>
    decreases ts
  {
    if ts == [] then [] else Subtrees(ts[0]) + SubtreesAll(ts[1..])
  }

  /** `xs` mapped through `f` and flattened, in order. */
  function FlatMap<A, B>(f: A -> seq<B>, xs: seq<A>): seq<B> {
    if xs == [] then [] else f(xs[0]) + FlatMap(f, xs[1..])
  }

  lemma {:induction false} FlatMapAppend<A, B>(f: A -> seq<B>, a: seq<A>, b: seq<A>)
    ensures FlatMap(f, a + b) == FlatMap(f, a) + FlatMap(f, b)
  {
    if a == [] {
      assert a + b == b;
    } else {
      assert (a + b)[0] == a[0] && (a + b)[1..] == a[1..] + b;
      FlatMapAppend(f, a[1..], b);
    }
  }

  /** An element of the flattened list comes from the image of some element of `xs`, and every such element is there. */
  lemma {:induction false} FlatMapMember<A, B>(f: A -> seq<B>, xs: seq<A>, y: B)
    ensures y in FlatMap(f, xs) <==> exists x :: x in xs && y in f(x)
  {
    if xs != [] {
      FlatMapMember(f, xs[1..], y);
      assert FlatMap(f, xs) == f(xs[0]) + FlatMap(f, xs[1..]);
      if y in FlatMap(f, xs) && y !in f(xs[0]) {
        var x :| x in xs[1..] && y in f(x);
        assert x in xs;
      }
      if exists x :: x in xs && y in f(x) {
        var x :| x in xs && y in f(x);
        if x != xs[0] {
          assert x in xs[1..];
        }
      }
    }
  }

  function HereOf(g: Grammar, path: string): Tree -> seq<AstFinding> {
    n => Here(g, n, path)
  }

  /** The findings of a list of nodes, each node's in turn. */
  function HereAll(g: Grammar, ns: seq<Tree>, path: string): seq<AstFinding> {
    FlatMap(HereOf(g, path), ns)
  }

  /** The walk reports exactly each node's findings, node by node in pre-order. */
  lemma {:induction false} WalkIsPreorder(g: Grammar, t: Tree, path: string)
    ensures Walk(g, t, path) == HereAll(g, Subtrees(t), path)
    decreases t
  {
    WalkAllIsPreorder(g, t.children, path);
    FlatMapAppend(HereOf(g, path), [t], SubtreesAll(t.children));
    assert HereAll(g, [t], path) == Here(g, t, path);
  }

  lemma {:induction false} WalkAllIsPreorder(g: Grammar, ts: seq<Tree>, path: string)
    ensures WalkAll(g, ts, path) == HereAll(g, SubtreesAll(ts), path)
    decreases ts
  {
    if ts != [] {
      WalkIsPreorder(g, ts[0], path);
      WalkAllIsPreorder(g, ts[1..], path);
      FlatMapAppend(HereOf(g, path), Subtrees(ts[0]), SubtreesAll(ts[1..]));
    }
  }

  /**
   * A finding is in the walk exactly when some node of the tree contributes
   * it; every such finding is sound and lies on that node's row plus one.
   */
  lemma WalkExact(g: Grammar, t: Tree, path: string)
    ensures forall f :: f in Walk(g, t, path) <==> exists n :: n in Subtrees(t) && f in Here(g, n, path)
    ensures forall f :: f in Walk(g, t, path) ==>
              Sound(g, f, path) && exists n :: n in Subtrees(t) && f.line == n.row + 1
  {
    WalkIsPreorder(g, t, path);
    forall f ensures f in Walk(g, t, path) <==> exists n :: n in Subtrees(t) && f in Here(g, n, path) {
      FlatMapMember(HereOf(g, path), Subtrees(t), f);
    }
    forall f | f in Walk(g, t, path)
      ensures Sound(g, f, path) && exists n :: n in Subtrees(t) && f.line == n.row + 1
    {
      var n :| n in Subtrees(t) && f in Here(g, n, path);
      HereSound(g, n, path);
    }
  }

  /** Python trees only ever yield calls of eval, exec, compile or `__import__`. */
  lemma PythonOnlyCalls(t: Tree, path: string)
    ensures forall f :: f in Walk(Python, t, path) ==>
              f.kind == "dangerous_function" && f.severity == "high" && f.subject in PythonDangerous
  {
    WalkExact(Python, t, path);
  }

  /** `eval(x)` in Python yields one high-severity finding on the call's line. */
  lemma PythonEvalFlagged(path: string)
    ensures var callee := Tree("identifier", "eval", 3, [], []);
            var args := Tree("argument_list", "(x)", 3, [], []);
            var call := Tree("call", "eval(x)", 3, ["function", "arguments"], [callee, args]);
            Walk(Python, call, path)
              == [AstFinding("dangerous_function", "eval", 4, "high", "Dangerous function 'eval' detected", path)]
  {
    var callee := Tree("identifier", "eval", 3, [], []);
    var args := Tree("argument_list", "(x)", 3, [], []);
    var call := Tree("call", "eval(x)", 3, ["function", "arguments"], [callee, args]);
    assert ChildByField(call, "function") == Some(callee);
    assert "eval" in Dangerous(Python);
    assert DangerMessage("eval") == "Dangerous function 'eval' detected";
    assert Here(Python, call, path)
      == [AstFinding("dangerous_function", "eval", 4, "high", "Dangerous function 'eval' detected", path)];
    assert Walk(Python, args, path) == [];
    assert Walk(Python, callee, path) == [];
    assert WalkAll(Python, [args], path) == [] by {
      assert [args][1..] == [];
    }
    assert WalkAll(Python, [callee, args], path) == [] by {
      assert [callee, args][1..] == [args];
    }
  }

  /** `el.innerHTML = s` in JavaScript yields one medium-severity `xss_risk` finding. */
  lemma JsInnerHtmlFlagged(path: string)
    ensures var obj := Tree("identifier", "el", 0, [], []);
            var prop := Tree("property_identifier", "innerHTML", 0, [], []);
            var member := Tree("member_expression", "el.innerHTML", 0, ["object", "property"], [obj, prop]);
            var rhs := Tree("identifier", "s", 0, [], []);
            var assign := Tree("assignment_expression", "el.innerHTML = s", 0, ["left", "right"], [member, rhs]);
            var w := Walk(JavaScript, assign, path);
            |w| >= 1
            && w[0] == AstFinding("xss_risk", "innerHTML", 1, "medium", "Direct innerHTML assignment may lead to XSS", path)
  {
    var obj := Tree("identifier", "el", 0, [], []);
    var prop := Tree("property_identifier", "innerHTML", 0, [], []);
    var member := Tree("member_expression", "el.innerHTML", 0, ["object", "property"], [obj, prop]);
    var rhs := Tree("identifier", "s", 0, [], []);
    var assign := Tree("assignment_expression", "el.innerHTML = s", 0, ["left", "right"], [member, rhs]);
    var f := AstFinding("xss_risk", "innerHTML", 1, "medium", XssMessage("innerHTML"), path);
    InnerHtmlMessage();
    assert ChildByField(assign, "left") == Some(member);
    assert FieldFrom(member, "property", 1) == Some(prop);
    assert ChildByField(member, "property") == Some(prop);
    assert "innerHTML" in XssProps;
    assert XssFinding(assign, path) == [f];
    assert CallFinding(JavaScript, assign, path) == [];
    assert Here(JavaScript, assign, path) == [f];
    assert Walk(JavaScript, assign, path) == [f] + WalkAll(JavaScript, assign.children, path);
  }

  lemma InnerHtmlMessage()
    ensures XssMessage("innerHTML") == "Direct innerHTML assignment may lead to XSS"
  {
  }

  const MaxFiles := 25
  const MaxContent := 100000
  const JsExtensions: seq<string> := [".js", ".ts", ".tsx", ".jsx"]

  /** The walker a file is dispatched to, by its language or else its extension. */
  function Dispatch(f: SourceFile): (g: Option<Grammar>)
    ensures g == Some(Python) <==> f.language == Some("python") || Text.EndsWith(f.path, ".py")
    ensures g == Some(JavaScript) <==>
              !(f.language == Some("python") || Text.EndsWith(f.path, ".py"))
              && (f.language == Some("javascript") || f.language == Some("typescript")
                  || exists e :: e in JsExtensions && Text.EndsWith(f.path, e))
  {
    if f.language == Some("python") || Text.EndsWith(f.path, ".py") then Some(Python)
    else if f.language == Some("javascript") || f.language == Some("typescript")
            || Text.EndsWith(f.path, ".js") || Text.EndsWith(f.path, ".ts")
            || Text.EndsWith(f.path, ".tsx") || Text.EndsWith(f.path, ".jsx")
    then Some(JavaScript)
    else None
  }

  /** What the walker returns: all of the walk, or the findings before the exception that stopped it. */
  function Walked(g: Grammar, t: Tree, path: string, stop: Option<nat>): (r: seq<AstFinding>)
    ensures |r| <= |Walk(g, t, path)| && r == Walk(g, t, path)[..|r|]
    ensures stop.None? ==> r == Walk(g, t, path)
  {
    match stop
    case None => Walk(g, t, path)
    case Some(k) => Text.Take(Walk(g, t, path), k)
  }

  /** Every finding a walker returns, even one cut short, is sound for its file. */
  lemma WalkedSound(g: Grammar, t: Tree, path: string, stop: Option<nat>)
    ensures forall x :: x in Walked(g, t, path, stop) ==> Sound(g, x, path)
  {
    var w := Walked(g, t, path, stop);
    WalkExact(g, t, path);
    forall x | x in w ensures Sound(g, x, path) {
      var p :| 0 <= p < |w| && w[p] == x;
      assert x in Walk(g, t, path);
    }
  }

  /**
   * One file's findings: none for large or unrecognised files or when the
   * parser yields no tree, and a prefix of the walk when it raised.
   */
  function FileFindings(f: SourceFile, parse: (string, Grammar) -> Option<Tree>,
                        fault: (string, Grammar) -> Option<nat>): seq<AstFinding> {
    if |f.content| > MaxContent then []
    else
      match Dispatch(f)
      case None => []
      case Some(g) =>
        match parse(f.content, g)
        case None => []
        case Some(t) => Walked(g, t, f.path, fault(f.content, g))
  }

  /** The findings of a list of files, file by file. */
  function Collected(files: seq<SourceFile>, parse: (string, Grammar) -> Option<Tree>,
                     fault: (string, Grammar) -> Option<nat>): seq<AstFinding> {
    if files == [] then []
    else Collected(files[..|files| - 1], parse, fault) + FileFindings(files[|files| - 1], parse, fault)
  }

  lemma CollectedStep(files: seq<SourceFile>, i: nat, parse: (string, Grammar) -> Option<Tree>,
                      fault: (string, Grammar) -> Option<nat>)
    requires i < |files|
    ensures Collected(files[..i + 1], parse, fault) == Collected(files[..i], parse, fault) + FileFindings(files[i], parse, fault)
  {
    assert files[..i + 1][..i] == files[..i];
  }

  /** Only files that are small enough and dispatched to a walker contribute, each under its own path. */
  predicate FromEligible(files: seq<SourceFile>, x: AstFinding) {
    exists i :: 0 <= i < |files| && |files[i].content| <= MaxContent && Dispatch(files[i]).Some?
                && x.path == files[i].path && Sound(Dispatch(files[i]).value, x, files[i].path)
  }

  lemma {:induction false} CollectedEligible(files: seq<SourceFile>, parse: (string, Grammar) -> Option<Tree>,
                                              fault: (string, Grammar) -> Option<nat>)
    ensures forall x :: x in Collected(files, parse, fault) ==> FromEligible(files, x)
  {
    if files != [] {
      var init := files[..|files| - 1];
      var last := files[|files| - 1];
      CollectedEligible(init, parse, fault);
      forall x | x in Collected(files, parse, fault) ensures FromEligible(files, x) {
        if x in Collected(init, parse, fault) {
          var i :| 0 <= i < |init| && |init[i].content| <= MaxContent && Dispatch(init[i]).Some?
                   && x.path == init[i].path && Sound(Dispatch(init[i]).value, x, init[i].path);
          assert files[i] == init[i];
        } else {
          var g := Dispatch(last).value;
          var t := parse(last.content, g).value;
          WalkedSound(g, t, last.path, fault(last.content, g));
          assert files[|files| - 1] == last;
        }
      }
    }
  }

  /**
   * The merge into `ast_report`: a dict keeps its other keys and gets the new
   * `tree_sitter_findings`; a missing or non-dict report becomes a dict
   * holding only them.
   */
  function Merge(existing: Option<AstValue>, found: seq<AstFinding>): (r: AstValue)
    ensures r.AstDict? && r.report.treeSitterFindings == Some(found)
    ensures existing.Some? && existing.value.AstDict? ==> r.report.other == existing.value.report.other
    ensures !(existing.Some? && existing.value.AstDict?) ==> r.report.other == map[]
  {
    match existing
    case Some(AstDict(rep)) => AstDict(rep.(treeSitterFindings := Some(found)))
    case _ => AstDict(AstReport(map[], Some(found)))
  }

  /** The body of the node's loop for one file: the size check, the dispatch and the walk. */
  method AnalyzeFile(f: SourceFile, parse: (string, Grammar) -> Option<Tree>, fault: (string, Grammar) -> Option<nat>)
    returns (found: seq<AstFinding>)
    ensures found == FileFindings(f, parse, fault)
  {
    found := [];
    if |f.content| <= MaxContent {
      var g := Dispatch(f);
      if g.Some? {
        var t := parse(f.content, g.value);
        if t.Some? {
          found := Walked(g.value, t.value, f.path, fault(f.content, g.value));
        }
      }
    }
  }

  /**
   * `ast_tree_sitter_node`: with tree-sitter unavailable nothing changes;
   * otherwise the first 25 files are analysed and only `ast_report` changes.
   */
  method AstTreeSitterNode(s: ReviewState, available: bool, parse: (string, Grammar) -> Option<Tree>,
                           fault: (string, Grammar) -> Option<nat>)
    returns (r: ReviewState)
    ensures !available ==> r == s
    ensures available ==>
              r == s.(astReport := Some(Merge(s.astReport, Collected(Text.Take(s.files.GetOr([]), MaxFiles), parse, fault))))
  {
    if !available {
      return s;
    }
    var top := Text.Take(s.files.GetOr([]), MaxFiles);
    var all: seq<AstFinding> := [];
    var i := 0;
    while i < |top|
      invariant 0 <= i <= |top|
      invariant all == Collected(top[..i], parse, fault)
    {
      var found := AnalyzeFile(top[i], parse, fault);
      CollectedStep(top, i, parse, fault);
      all := all + found;
      i := i + 1;
    }
    assert top[..i] == top;
    r := s.(astReport := Some(Merge(s.astReport, all)));
  }
}
