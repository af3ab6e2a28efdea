/** The part of a parsed Python module that the attribute scanner looks at.

    The parser itself is not modelled: a `Module` is whatever the parser would
    have produced. `Node` stands for every generic inner node (`suite`,
    `simple_stmt`, `decorated`, `atom_expr`, `trailer`, ...). The parser
    gives some grammar rules a dedicated node class instead, and those are
    *not* generic nodes: `Class`, `Function` and `ExprStmt` are the three the
    scanner looks at, and `Compound` stands for every other one, notably the
    compound statements (`if_stmt`, `for_stmt`, `while_stmt`, `try_stmt`,
    `with_stmt`), imports, `return` and decorators. A `Lambda` is an
    anonymous function: the parser's lambda class is a kind of function
    definition, but asking it for its name raises `AttributeError`. An
    `ExprStmt` keeps its target subtree and the source text of its
    right-hand side. */
module ParseTree {
  import opened Outcomes

  datatype Tree =
    | Leaf(value: string)
    | Node(kind: string, children: seq<Tree>)
    | Class(name: string, children: seq<Tree>)
    | Function(name: string, children: seq<Tree>)
    | ExprStmt(lhs: Tree, rhs: string)
    | Compound(kind: string, children: seq<Tree>)
    | Lambda(children: seq<Tree>)

  /** The root the parser returns for a whole source text. */
  datatype Module = Module(body: seq<Tree>)

  /** What a structural search looks for. */
  datatype Target = ClassNamed(className: string) | InitFunction

  predicate Matches(target: Target, t: Tree) {
    match target
    case ClassNamed(n) => t.Class? && t.name == n
    case InitFunction => t.Function? && t.name == "__init__"
  }

  /** The search shared by the class finder and the constructor finder: every
      child that matches is taken, and only generic `Node` children are
      searched further, so nothing inside a class or a function body (nor
      inside a matched node) is ever reached. */
  function Scan(ts: seq<Tree>, target: Target): (found: seq<Tree>)
    ensures forall t :: t in found ==> Matches(target, t)
    ensures forall i :: 0 <= i < |ts| && Matches(target, ts[i]) ==> ts[i] in found
    ensures |found| <= |Visible(ts)|
    decreases ts
  {
    if ts == [] then []
    else
      var here :=
        if Matches(target, ts[0]) then [ts[0]]
        else if ts[0].Node? then Scan(ts[0].children, target)
        else [];
      here + Scan(ts[1..], target)
  }

  /** Reference definition: every tree a search over `ts` can see, in
      document (pre-)order. A tree is seen when it is an element of `ts` or a
      descendant reached through generic nodes only. */
  function Visible(ts: seq<Tree>): seq<Tree>
    decreases ts
  {
    if ts == [] then []
    else
      [ts[0]]
      + (if ts[0].Node? then Visible(ts[0].children) else [])
      + Visible(ts[1..])
  }

  /** The trees of `ts` that match `target`, in order. */
  function Select(ts: seq<Tree>, target: Target): (r: seq<Tree>)
    ensures |r| <= |ts|
    ensures forall t :: t in r ==> t in ts && Matches(target, t)
    ensures forall i :: 0 <= i < |r| ==> Matches(target, r[i])
  {
    if ts == [] then []
    else (if Matches(target, ts[0]) then [ts[0]] else []) + Select(ts[1..], target)
  }

  /** No lambda is visible: the constructor search can read the name of
      every function definition it meets. */
  predicate LambdaFree(ts: seq<Tree>) {
    forall t :: t in Visible(ts) ==> !t.Lambda?
  }

  /** The constructor search as it runs: like `Scan` for `InitFunction`, but
      meeting a lambda raises `AttributeError`, because the search reads the
      name of every function definition and a lambda has none. */
  function ScanInit(ts: seq<Tree>): (r: Result<seq<Tree>>)
    ensures r.Err? <==> !LambdaFree(ts)
    ensures r.Err? ==> r.error == AttributeError
    ensures r.Ok? ==> r.value == Scan(ts, InitFunction)
    decreases ts
  {
    if ts == [] then Ok([])
    else
      var here :-
        if ts[0].Lambda? then Err(AttributeError)
        else if Matches(InitFunction, ts[0]) then Ok([ts[0]])
        else if ts[0].Node? then ScanInit(ts[0].children)
        else Ok([]);
      var rest :- ScanInit(ts[1..]);
      Ok(here + rest)
  }

  lemma {:induction false} SelectAppend(a: seq<Tree>, b: seq<Tree>, target: Target)
    ensures Select(a + b, target) == Select(a, target) + Select(b, target)
  {
    if a == [] {
      assert a + b == b;
    } else {
      assert (a + b)[1..] == a[1..] + b;
      SelectAppend(a[1..], b, target);
    }
  }

  /** The search returns exactly the visible matches, in document order. */
  lemma {:induction false} ScanSelectsVisible(ts: seq<Tree>, target: Target)
    ensures Scan(ts, target) == Select(Visible(ts), target)
    decreases ts
  {
    if ts != [] {
      var t := ts[0];
      var inner := if t.Node? then Visible(t.children) else [];
      ScanSelectsVisible(ts[1..], target);
      if t.Node? {
        ScanSelectsVisible(t.children, target);
      }
      SelectAppend([t] + inner, Visible(ts[1..]), target);
      SelectAppend([t], inner, target);
      assert Select([t], target) == if Matches(target, t) then [t] else [] by {
        assert [t][1..] == [];
      }
    }
  }

  /** Nothing inside a compound statement is searched: a class defined in
      an `if` block is not found. */
  lemma CompoundIsClosed(kind: string, name: string, body: seq<Tree>)
    ensures Scan([Compound(kind, [Class(name, body)])], ClassNamed(name)) == []
    ensures Visible([Compound(kind, [Class(name, body)])]) == [Compound(kind, [Class(name, body)])]
  {
    assert [Compound(kind, [Class(name, body)])][1..] == [];
  }

  /** Nothing below a class or function definition is visible. */
  lemma DefinitionsAreClosed(name: string, body: seq<Tree>)
    ensures Visible([Class(name, body)]) == [Class(name, body)]
    ensures Visible([Function(name, body)]) == [Function(name, body)]
  {
    assert [Class(name, body)][1..] == [];
    assert [Function(name, body)][1..] == [];
  }
}
