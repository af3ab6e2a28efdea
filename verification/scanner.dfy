/** The attribute-source scanner: find the one constructor of a named class in
    a parsed module, take its top-level `self.<name> = <expression>`
    statements and map each attribute name to a placeholder whose text is the
    (normalised) source of the expression. */
module Scanner {
  import opened Outcomes
  import opened ParseTree
  import opened Whitespace

  /** The placeholder shown in documentation: its textual form is exactly the
      text it was built from. */
  datatype ParameterProxy = ParameterProxy(text: string) {
    function Repr(): string {
      text
    }
  }

  lemma ProxyReprIsItsText(s: string)
    ensures ParameterProxy(s).Repr() == s
  {
  }

  /** `find_class`, applied to a node whose children are `children`. */
  function FindClass(children: seq<Tree>, className: string): (classes: seq<Tree>)
    ensures forall c :: c in classes ==> c.Class? && c.name == className
    ensures classes == Select(Visible(children), ClassNamed(className))
  {
    ScanSelectsVisible(children, ClassNamed(className));
    Scan(children, ClassNamed(className))
  }

  /** `find_init_func`, applied to a node whose children are `children`:
      every visible function named `__init__`, in document order, unless a
      lambda is visible, whose missing name raises `AttributeError`. */
  function FindInitFunc(children: seq<Tree>): (r: Result<seq<Tree>>)
    ensures r.Err? <==> !LambdaFree(children)
    ensures r.Err? ==> r.error == AttributeError
    ensures r.Ok? ==> forall f :: f in r.value ==> f.Function? && f.name == "__init__"
    ensures r.Ok? ==> r.value == Select(Visible(children), InitFunction)
  {
    ScanSelectsVisible(children, InitFunction);
    ScanInit(children)
  }

  /** `parse_init_function_from_str`, with the parsing done by the caller: the
      constructor is found only when exactly one visible class has the name
      and exactly one visible `__init__` sits in that class. Searching a
      class in which a lambda is visible raises `AttributeError`. */
  function ParseInitFunction(m: Module, className: string): (r: Result<Option<Tree>>)
    ensures r.Err? ==> r.error == AttributeError
    ensures r.Err? <==>
      && |Select(Visible(m.body), ClassNamed(className))| == 1
      && !LambdaFree(Select(Visible(m.body), ClassNamed(className))[0].children)
    ensures r.Ok? && r.value.Some? ==> r.value.value.Function? && r.value.value.name == "__init__"
    ensures r.Ok? && r.value.Some? <==>
      && |Select(Visible(m.body), ClassNamed(className))| == 1
      && LambdaFree(Select(Visible(m.body), ClassNamed(className))[0].children)
      && |Select(Visible(Select(Visible(m.body), ClassNamed(className))[0].children), InitFunction)| == 1
    ensures r.Ok? && r.value.Some? ==>
      r.value.value in Visible(Select(Visible(m.body), ClassNamed(className))[0].children)
  {
    var classes := FindClass(m.body, className);
    if |classes| > 1 then Ok(None)
    else if |classes| == 0 then Ok(None)
    else
      var inits :- FindInitFunc(classes[0].children);
      if |inits| > 1 then Ok(None)
      else if |inits| == 0 then Ok(None)
      else Ok(Some(inits[0]))
  }

  predicate IsSuite(t: Tree) {
    t.Node? && t.kind == "suite"
  }

  /** The direct children that are `suite` nodes, in order. */
  function Suites(children: seq<Tree>): (suites: seq<Tree>)
    ensures forall t :: t in suites ==> t in children && IsSuite(t)
    ensures forall i :: 0 <= i < |suites| ==> IsSuite(suites[i])
    ensures forall i :: 0 <= i < |children| && IsSuite(children[i]) ==> children[i] in suites
  {
    if children == [] then []
    else (if IsSuite(children[0]) then [children[0]] else []) + Suites(children[1..])
  }

  /** A suite line that contributes a statement: a generic node (a
      `simple_stmt`) whose first child is an assignment. Compound statements
      are not generic nodes and never contribute. */
  predicate StartsWithAssignment(line: Tree) {
    line.Node? && line.children != [] && line.children[0].ExprStmt?
  }

  /** Reference definition: the positions, from `from` on, of the lines
      that contribute a statement. */
  function AssignmentLinesFrom(lines: seq<Tree>, from: nat): seq<nat>
    requires from <= |lines|
    decreases |lines| - from
  {
    if from == |lines| then []
    else (if StartsWithAssignment(lines[from]) then [from] else []) + AssignmentLinesFrom(lines, from + 1)
  }

  /** The positions are those of contributing lines, in increasing order,
      and none is missing. */
  lemma {:induction false} AssignmentLinesFromSpec(lines: seq<Tree>, from: nat)
    requires from <= |lines|
    ensures forall a :: 0 <= a < |AssignmentLinesFrom(lines, from)| ==>
      from <= AssignmentLinesFrom(lines, from)[a] < |lines| && StartsWithAssignment(lines[AssignmentLinesFrom(lines, from)[a]])
    ensures forall a, b :: 0 <= a < b < |AssignmentLinesFrom(lines, from)| ==>
      AssignmentLinesFrom(lines, from)[a] < AssignmentLinesFrom(lines, from)[b]
    ensures forall i :: from <= i < |lines| && StartsWithAssignment(lines[i]) ==> i in AssignmentLinesFrom(lines, from)
    decreases |lines| - from
  {
    if from < |lines| {
      AssignmentLinesFromSpec(lines, from + 1);
      var ps := AssignmentLinesFrom(lines, from);
      var tail := AssignmentLinesFrom(lines, from + 1);
      var head: seq<nat> := if StartsWithAssignment(lines[from]) then [from] else [];
      assert ps == head + tail;
      forall a | |head| <= a < |ps| ensures ps[a] == tail[a - |head|] {
      }
    }
  }

  function AssignmentLines(lines: seq<Tree>): (ps: seq<nat>)
    ensures forall a :: 0 <= a < |ps| ==> ps[a] < |lines| && StartsWithAssignment(lines[ps[a]])
    ensures forall a, b :: 0 <= a < b < |ps| ==> ps[a] < ps[b]
    ensures forall i :: 0 <= i < |lines| ==> (StartsWithAssignment(lines[i]) <==> i in ps)
  {
    AssignmentLinesFromSpec(lines, 0);
    AssignmentLinesFrom(lines, 0)
  }

  /** The statements the lines from `from` on contribute, in document order.
      Reading the first child of a childless generic node raises. */
  function StatementLinesFrom(lines: seq<Tree>, from: nat): (r: Result<seq<Tree>>)
    requires from <= |lines|
    ensures r.Ok? <==> forall i :: from <= i < |lines| && lines[i].Node? ==> lines[i].children != []
    ensures r.Err? ==> r.error == IndexError
    ensures r.Ok? ==>
      var ps := AssignmentLinesFrom(lines, from);
      && |r.value| == |ps|
      && forall a :: 0 <= a < |ps| ==>
           ps[a] < |lines| && StartsWithAssignment(lines[ps[a]]) && r.value[a] == lines[ps[a]].children[0]
    decreases |lines| - from
  {
    if from == |lines| then Ok([])
    else
      var line := lines[from];
      if line.Node? && line.children == [] then Err(IndexError)
      else
        var rest :- StatementLinesFrom(lines, from + 1);
        PrependLine(lines, from, rest);
        Ok((if StartsWithAssignment(line) then [line.children[0]] else []) + rest)
  }

  /** One more line in front keeps the statements matched to the positions. */
  lemma PrependLine(lines: seq<Tree>, from: nat, rest: seq<Tree>)
    requires from < |lines|
    requires
      var tail := AssignmentLinesFrom(lines, from + 1);
      && |rest| == |tail|
      && forall a :: 0 <= a < |tail| ==>
           tail[a] < |lines| && StartsWithAssignment(lines[tail[a]]) && rest[a] == lines[tail[a]].children[0]
    ensures
      var ps := AssignmentLinesFrom(lines, from);
      var r := (if StartsWithAssignment(lines[from]) then [lines[from].children[0]] else []) + rest;
      && |r| == |ps|
      && forall a :: 0 <= a < |ps| ==>
           ps[a] < |lines| && StartsWithAssignment(lines[ps[a]]) && r[a] == lines[ps[a]].children[0]
  {
    var line := lines[from];
    var ps := AssignmentLinesFrom(lines, from);
    var tail := AssignmentLinesFrom(lines, from + 1);
    if StartsWithAssignment(line) {
      assert ps == [from] + tail;
      var r := [line.children[0]] + rest;
      forall a | 1 <= a < |ps|
        ensures ps[a] < |lines| && StartsWithAssignment(lines[ps[a]]) && r[a] == lines[ps[a]].children[0]
      {
        assert ps[a] == tail[a - 1] && r[a] == rest[a - 1];
      }
    } else {
      assert ps == [] + tail == tail;
      assert [] + rest == rest;
    }
  }

  /** The lines of a suite give the first child of every line that starts
      with an assignment, in document order, and nothing else; a childless
      line node raises `IndexError`. */
  function StatementLines(lines: seq<Tree>): (r: Result<seq<Tree>>)
    ensures r.Ok? <==> forall i :: 0 <= i < |lines| && lines[i].Node? ==> lines[i].children != []
    ensures r.Err? ==> r.error == IndexError
    ensures r.Ok? ==>
      var ps := AssignmentLines(lines);
      && |r.value| == |ps|
      && forall a :: 0 <= a < |ps| ==> r.value[a] == lines[ps[a]].children[0]
  {
    StatementLinesFrom(lines, 0)
  }

  /** `extract_statements_from_func_node`: the function must have exactly one
      suite (a one-line body has none, and then the source's assertion
      fails); the result is the first statement of each top-level line of
      that suite that starts with an assignment, in document order. Nothing
      from a nested block is returned. */
  function ExtractStatements(f: Tree): (r: Result<seq<Tree>>)
    requires f.Function?
    ensures |Suites(f.children)| != 1 ==> r == Err(AssertionError)
    ensures |Suites(f.children)| == 1 ==>
      && (r.Ok? <==> forall i :: 0 <= i < |Suites(f.children)[0].children| && Suites(f.children)[0].children[i].Node? ==>
                       Suites(f.children)[0].children[i].children != [])
      && (r.Err? ==> r.error == IndexError)
    ensures r.Ok? ==> forall i :: 0 <= i < |r.value| ==> r.value[i].ExprStmt?
    ensures r.Ok? ==>
      var lines := Suites(f.children)[0].children;
      var ps := AssignmentLines(lines);
      && |r.value| == |ps|
      && forall a :: 0 <= a < |ps| ==> r.value[a] == lines[ps[a]].children[0]
  {
    var suites := Suites(f.children);
    if |suites| != 1 then Err(AssertionError)
    else
      var lines := suites[0].children;
      assert Suites(f.children)[0].children == lines;
      StatementLines(lines)
  }

  /** The trees the source treats as nodes with children (parso's BaseNode).
      An assignment never occurs as an assignment target, so `ExprStmt` is
      left out here. */
  predicate HasChildren(t: Tree) {
    t.Node? || t.Class? || t.Function? || t.Compound? || t.Lambda?
  }

  /** `extract_code_as_repr`: an assignment whose target is `self` followed by
      one node gives the second child of that node (the attribute name after
      the `.`) and the normalised right-hand side; any other shape gives
      nothing, and a node with fewer than two children raises. */
  function ExtractCodeAsRepr(stm: Tree): (r: Result<Option<(string, ParameterProxy)>>)
    requires stm.ExprStmt?
    ensures r.Err? <==>
      && HasChildren(stm.lhs) && |stm.lhs.children| == 2
      && stm.lhs.children[0] == Leaf("self")
      && HasChildren(stm.lhs.children[1]) && |stm.lhs.children[1].children| < 2
    ensures r.Err? ==> r.error == IndexError
    ensures r.Ok? && r.value.Some? <==>
      && HasChildren(stm.lhs) && |stm.lhs.children| == 2
      && stm.lhs.children[0] == Leaf("self")
      && HasChildren(stm.lhs.children[1]) && |stm.lhs.children[1].children| >= 2
      && stm.lhs.children[1].children[1].Leaf?
    ensures r.Ok? && r.value.Some? ==>
      && r.value.value.0 == stm.lhs.children[1].children[1].value
      && Tidy(r.value.value.1.Repr())
      && Words(r.value.value.1.Repr()) == Words(stm.rhs)
  {
    var lhs := stm.lhs;
    if HasChildren(lhs) && |lhs.children| == 2 then
      var obj1, obj2 := lhs.children[0], lhs.children[1];
      if obj1.Leaf? && obj1.value == "self" && HasChildren(obj2) then
        if |obj2.children| < 2 then Err(IndexError)
        else if obj2.children[1].Leaf? then
          Ok(Some((obj2.children[1].value, ParameterProxy(Normalize(stm.rhs)))))
        else Ok(None)
      else Ok(None)
    else Ok(None)
  }

  /** `self.<name> = <rhs>` as the parser shapes it. */
  function SelfAttributeAssignment(name: string, rhs: string): Tree {
    ExprStmt(Node("atom_expr", [Leaf("self"), Node("trailer", [Leaf("."), Leaf(name)])]), rhs)
  }

  lemma SelfAttributeIsExtracted(name: string, rhs: string)
    ensures ExtractCodeAsRepr(SelfAttributeAssignment(name, rhs))
      == Ok(Some((name, ParameterProxy(Normalize(rhs)))))
  {
  }

  /** The trailer after `self` is not checked to be an attribute access:
      `self[k] = e` is taken as an assignment to an attribute named `k`. */
  lemma SubscriptIsTakenAsAttribute(key: string, rhs: string)
    ensures ExtractCodeAsRepr(ExprStmt(Node("atom_expr", [Leaf("self"), Node("trailer", [Leaf("["), Leaf(key), Leaf("]")])]), rhs))
      == Ok(Some((key, ParameterProxy(Normalize(rhs)))))
  {
  }

  /** A plain name target and a two-step attribute chain are both skipped. */
  lemma OtherTargetsAreSkipped(a: string, b: string, rhs: string)
    ensures ExtractCodeAsRepr(ExprStmt(Leaf(a), rhs)) == Ok(None)
    ensures ExtractCodeAsRepr(ExprStmt(Node("atom_expr",
      [Leaf("self"), Node("trailer", [Leaf("."), Leaf(a)]), Node("trailer", [Leaf("."), Leaf(b)])]), rhs)) == Ok(None)
  {
  }

  /** What one statement contributes to the attribute map: statements whose
      extraction raises or gives nothing contribute nothing. */
  function Assignment(stm: Tree): Option<(string, ParameterProxy)>
    requires stm.ExprStmt?
  {
    match ExtractCodeAsRepr(stm)
    case Ok(Some(entry)) => Some(entry)
    case _ => None
  }

  predicate AllStatements(stms: seq<Tree>) {
    forall i :: 0 <= i < |stms| ==> stms[i].ExprStmt?
  }

  predicate AssignsAt(stms: seq<Tree>, i: int, name: string)
    requires AllStatements(stms)
  {
    0 <= i < |stms| && Assignment(stms[i]).Some? && Assignment(stms[i]).value.0 == name
  }

  /** Statement `i` is the last one assigning `name`. */
  predicate LastAssignsAt(stms: seq<Tree>, i: int, name: string)
    requires AllStatements(stms)
  {
    AssignsAt(stms, i, name) && forall j :: i < j < |stms| ==> !AssignsAt(stms, j, name)
  }

  /** The loop of `eval_params_from_code`: statements are applied in order on
      top of `acc`, each assignment overwriting the entry for its name. */
  function Collect(acc: map<string, ParameterProxy>, stms: seq<Tree>): (d: map<string, ParameterProxy>)
    requires AllStatements(stms)
    ensures forall k :: k in d <==> k in acc || exists i :: AssignsAt(stms, i, k)
    ensures (forall k :: k in acc ==> Tidy(acc[k].Repr())) ==> forall k :: k in d ==> Tidy(d[k].Repr())
    decreases |stms|
  {
    if stms == [] then acc
    else
      var entry := Assignment(stms[0]);
      var acc' := if entry.Some? then acc[entry.value.0 := entry.value.1] else acc;
      assert forall k :: k in acc' <==> k in acc || AssignsAt(stms, 0, k);
      var d := Collect(acc', stms[1..]);
      forall k ensures (exists i :: AssignsAt(stms, i, k)) <==> AssignsAt(stms, 0, k) || exists i :: AssignsAt(stms[1..], i, k) {
        AssignsInTail(stms, k);
      }
      d
  }

  lemma AssignsInTail(stms: seq<Tree>, k: string)
    requires AllStatements(stms) && stms != []
    ensures (exists i :: AssignsAt(stms, i, k)) <==> AssignsAt(stms, 0, k) || exists i :: AssignsAt(stms[1..], i, k)
  {
    if exists i :: AssignsAt(stms, i, k) {
      var i :| AssignsAt(stms, i, k);
      if i > 0 {
        assert AssignsAt(stms[1..], i - 1, k);
      }
    }
    if exists i :: AssignsAt(stms[1..], i, k) {
      var i :| AssignsAt(stms[1..], i, k);
      assert AssignsAt(stms, i + 1, k);
    }
  }

  /** Later assignments win: the entry for a name comes from the last
      statement assigning it. */
  lemma {:induction false} LastAssignmentWins(acc: map<string, ParameterProxy>, stms: seq<Tree>, i: nat, name: string)
    requires AllStatements(stms)
    requires LastAssignsAt(stms, i, name)
    ensures name in Collect(acc, stms)
    ensures Collect(acc, stms)[name] == Assignment(stms[i]).value.1
    decreases |stms|
  {
    var entry := Assignment(stms[0]);
    var acc' := if entry.Some? then acc[entry.value.0 := entry.value.1] else acc;
    assert Collect(acc, stms) == Collect(acc', stms[1..]);
    if i == 0 {
      forall j | 0 <= j < |stms[1..]| ensures !AssignsAt(stms[1..], j, name) {
        assert !AssignsAt(stms, j + 1, name);
      }
      UnassignedIsKept(acc', stms[1..], name);
    } else {
      forall j | i - 1 < j < |stms[1..]| ensures !AssignsAt(stms[1..], j, name) {
        assert !AssignsAt(stms, j + 1, name);
      }
      LastAssignmentWins(acc', stms[1..], i - 1, name);
    }
  }

  /** A name no statement assigns keeps the entry it had. */
  lemma {:induction false} UnassignedIsKept(acc: map<string, ParameterProxy>, stms: seq<Tree>, name: string)
    requires AllStatements(stms)
    requires name in acc
    requires forall j :: 0 <= j < |stms| ==> !AssignsAt(stms, j, name)
    ensures name in Collect(acc, stms) && Collect(acc, stms)[name] == acc[name]
    decreases |stms|
  {
    if stms != [] {
      var entry := Assignment(stms[0]);
      var acc' := if entry.Some? then acc[entry.value.0 := entry.value.1] else acc;
      assert !AssignsAt(stms, 0, name);
      forall j | 0 <= j < |stms[1..]| ensures !AssignsAt(stms[1..], j, name) {
        assert !AssignsAt(stms, j + 1, name);
      }
      UnassignedIsKept(acc', stms[1..], name);
    }
  }

  /** The map built from one constructor: it fails exactly when statement
      extraction fails, and otherwise holds exactly the names some top-level
      statement assigns, each with the placeholder of the last statement
      assigning it. */
  function CollectFrom(init: Tree): (r: Result<map<string, ParameterProxy>>)
    requires init.Function?
    ensures r.Err? ==> r.error == AssertionError || r.error == IndexError
    ensures r.Ok? ==> forall k :: k in r.value ==> Tidy(r.value[k].Repr())
    ensures var statements := ExtractStatements(init);
      && (r.Ok? <==> statements.Ok?)
      && (statements.Ok? ==> forall k :: k in r.value <==> exists i :: AssignsAt(statements.value, i, k))
      && (statements.Ok? ==> forall k, i :: LastAssignsAt(statements.value, i, k) ==>
            k in r.value && r.value[k] == Assignment(statements.value[i]).value.1)
  {
    var stms :- ExtractStatements(init);
    var d := Collect(map[], stms);
    assert forall k, i :: LastAssignsAt(stms, i, k) ==> k in d && d[k] == Assignment(stms[i]).value.1 by {
      forall k, i | LastAssignsAt(stms, i, k) ensures k in d && d[k] == Assignment(stms[i]).value.1 {
        LastAssignmentWins(map[], stms, i, k);
      }
    }
    Ok(d)
  }

  /** `eval_params_from_code`, with the parsing done by the caller. Without a
      unique constructor the map is empty; a lambda met while searching for
      the constructor, and a constructor without exactly one body suite,
      raise (those failures are not caught here). */
  function EvalParams(m: Module, className: string): (r: Result<map<string, ParameterProxy>>)
    ensures ParseInitFunction(m, className) == Ok(None) ==> r == Ok(map[])
    ensures ParseInitFunction(m, className).Err? ==> r == Err(AttributeError)
    ensures r.Err? ==> r.error == AttributeError || r.error == AssertionError || r.error == IndexError
    ensures r.Ok? ==> forall k :: k in r.value ==> Tidy(r.value[k].Repr())
    ensures ParseInitFunction(m, className).Ok? && ParseInitFunction(m, className).value.Some? ==>
      var statements := ExtractStatements(ParseInitFunction(m, className).value.value);
      && (r.Ok? <==> statements.Ok?)
      && (statements.Ok? ==> forall k :: k in r.value <==> exists i :: AssignsAt(statements.value, i, k))
      && (statements.Ok? ==> forall k, i :: LastAssignsAt(statements.value, i, k) ==>
            k in r.value && r.value[k] == Assignment(statements.value[i]).value.1)
  {
    var found :- ParseInitFunction(m, className);
    match found
    case None => Ok(map[])
    case Some(init) => CollectFrom(init)
  }

  /** The source text of a class with a single-line constructor body
      `self.<name> = <rhs>`, as the parser shapes it. */
  function OneAssignmentClass(className: string, name: string, rhs: string): Module {
    Module([Class(className, [Leaf("class"), Leaf(className), Leaf(":"), Node("suite", [
      Leaf("\n"),
      Function("__init__", [Leaf("def"), Leaf("__init__"), Node("parameters", [Leaf("("), Leaf("self"), Leaf(")")]), Leaf(":"),
        Node("suite", [Leaf("\n"), Node("simple_stmt", [SelfAttributeAssignment(name, rhs), Leaf("\n")])])])])])])
  }

  /** The constructor of a one-assignment class. */
  function OneAssignmentInit(className: string, name: string, rhs: string): Tree {
    OneAssignmentClass(className, name, rhs).body[0].children[3].children[1]
  }

  lemma OneAssignmentInitIsFound(className: string, name: string, rhs: string)
    ensures ParseInitFunction(OneAssignmentClass(className, name, rhs), className)
      == Ok(Some(OneAssignmentInit(className, name, rhs)))
  {
    var m := OneAssignmentClass(className, name, rhs);
    var c := m.body[0];
    assert Scan(m.body[1..], ClassNamed(className)) == [];
    assert Scan(m.body, ClassNamed(className)) == [c];
    var suite := c.children[3];
    var f := suite.children[1];
    assert ScanInit(suite.children[2..]) == Ok([]);
    assert suite.children[1..][1..] == suite.children[2..];
    assert Matches(InitFunction, f) && [f] + [] == [f];
    assert ScanInit(suite.children[1..]) == Ok([f]);
    assert [] + [f] == [f];
    assert ScanInit(suite.children) == Ok([f]);
    assert ScanInit(c.children[4..]) == Ok([]);
    assert ScanInit(c.children[3..]) == Ok([f]);
    assert ScanInit(c.children[2..]) == Ok([f]);
    assert ScanInit(c.children[1..]) == Ok([f]);
    assert ScanInit(c.children) == Ok([f]);
  }

  lemma OneAssignmentSuite(className: string, name: string, rhs: string)
    ensures Suites(OneAssignmentInit(className, name, rhs).children)
      == [OneAssignmentInit(className, name, rhs).children[4]]
  {
    var f := OneAssignmentInit(className, name, rhs);
    var suite := f.children[4];
    assert Suites(f.children[5..]) == [];
    assert Suites(f.children[4..]) == [suite];
    assert Suites(f.children[3..]) == [suite];
    assert Suites(f.children[2..]) == [suite];
    assert Suites(f.children[1..]) == [suite];
  }

  /** A suite holding one line `<stm>` followed by the end of the line. */
  lemma OneLineSuite(stm: Tree)
    requires stm.ExprStmt?
    ensures StatementLines([Leaf("\n"), Node("simple_stmt", [stm, Leaf("\n")])]) == Ok([stm])
  {
    var lines := [Leaf("\n"), Node("simple_stmt", [stm, Leaf("\n")])];
    assert StatementLinesFrom(lines, 2) == Ok([]);
    assert StartsWithAssignment(lines[1]);
    assert StatementLinesFrom(lines, 1) == Ok([stm] + []);
    assert !StartsWithAssignment(lines[0]) && !lines[0].Node?;
    assert StatementLinesFrom(lines, 0) == Ok([] + StatementLinesFrom(lines, 1).value);
    assert [stm] + [] == [stm] && [] + [stm] == [stm];
    assert StatementLinesFrom(lines, 0) == Ok([stm]);
    assert StatementLines(lines) == StatementLinesFrom(lines, 0);
  }

  lemma OneAssignmentStatements(className: string, name: string, rhs: string)
    ensures ExtractStatements(OneAssignmentInit(className, name, rhs)) == Ok([SelfAttributeAssignment(name, rhs)])
  {
    OneAssignmentSuite(className, name, rhs);
    OneLineSuite(SelfAttributeAssignment(name, rhs));
  }

  /** A constructor with exactly one `self.x = <expr>` statement documents
      `x` with the normalised text of `<expr>`. */
  lemma OneAssignmentIsRecovered(className: string, name: string, rhs: string)
    ensures EvalParams(OneAssignmentClass(className, name, rhs), className)
      == Ok(map[name := ParameterProxy(Normalize(rhs))])
  {
    OneAssignmentInitIsFound(className, name, rhs);
    OneAssignmentStatements(className, name, rhs);
    var stm := SelfAttributeAssignment(name, rhs);
    SelfAttributeIsExtracted(name, rhs);
    assert Collect(map[], [stm]) == Collect(map[name := ParameterProxy(Normalize(rhs))], []);
  }

  /** A lambda in a class body, as in `register(lambda: 0)`, makes the
      constructor search raise `AttributeError`, and the scan of that class
      fails with it. */
  lemma LambdaInClassBodyRaises(className: string, lambdaBody: seq<Tree>)
    ensures EvalParams(Module([Class(className, [Node("suite", [Node("simple_stmt", [Lambda(lambdaBody)])])])]), className)
      == Err(AttributeError)
  {
    var m := Module([Class(className, [Node("suite", [Node("simple_stmt", [Lambda(lambdaBody)])])])]);
    assert Scan(m.body, ClassNamed(className)) == [m.body[0]];
    var stmt := m.body[0].children[0].children[0];
    assert ScanInit(stmt.children) == Err(AttributeError);
    assert ScanInit(m.body[0].children[0].children) == Err(AttributeError);
    assert ScanInit(m.body[0].children) == Err(AttributeError);
  }

  /** A class defined twice in the same text documents nothing. */
  lemma DuplicateClassGivesNothing(className: string, body1: seq<Tree>, body2: seq<Tree>)
    ensures EvalParams(Module([Class(className, body1), Class(className, body2)]), className) == Ok(map[])
  {
    var m := Module([Class(className, body1), Class(className, body2)]);
    assert Scan(m.body[1..], ClassNamed(className)) == [m.body[1]];
    assert |FindClass(m.body, className)| == 2;
  }
}
