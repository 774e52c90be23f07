/** The `after` graph over gates: search, shape and cycle checks, and what edits keep it acyclic
    (gate_reaches?, ordering_errors and unresolved_dependencies of scripts/completion-guard.rb). */
module GateOrdering {
  import opened Text
  import opened CompletionGuard
  import opened LedgerIndex

  function GateAfter(g: Gate): seq<string> {
    if g.Gate? && g.after.Val? then g.after.value else []
  }

  /** The gates a name waits on; a name that is no gate waits on nothing. */
  function After(gates: Gates, n: string): seq<string> {
    if n in gates then GateAfter(gates[n]) else []
  }

  // ---- paths ----

  predicate IsPath(gates: Gates, p: seq<string>) {
    && |p| > 0
    && forall i :: 0 <= i < |p| - 1 ==> p[i + 1] in After(gates, p[i])
  }

  ghost predicate PathBetween(gates: Gates, p: seq<string>, a: string, b: string) {
    IsPath(gates, p) && p[0] == a && p[|p| - 1] == b
  }

  /** A walk of zero or more `after` edges leads from `a` to `b`. */
  ghost predicate Reaches(gates: Gates, a: string, b: string) {
    exists p :: PathBetween(gates, p, a, b)
  }

  lemma ReachesSelf(gates: Gates, a: string)
    ensures Reaches(gates, a, a)
  {
    assert PathBetween(gates, [a], a, a);
  }

  lemma ReachesStep(gates: Gates, a: string, b: string, c: string)
    requires Reaches(gates, a, b) && c in After(gates, b)
    ensures Reaches(gates, a, c)
  {
    var p :| PathBetween(gates, p, a, b);
    assert PathBetween(gates, p + [c], a, c);
  }

  lemma ReachesTrans(gates: Gates, a: string, b: string, c: string)
    requires Reaches(gates, a, b) && Reaches(gates, b, c)
    ensures Reaches(gates, a, c)
  {
    var p :| PathBetween(gates, p, a, b);
    var q :| PathBetween(gates, q, b, c);
    var r := p + q[1..];
    forall i | 0 <= i < |r| - 1 ensures r[i + 1] in After(gates, r[i]) {
      if i >= |p| - 1 {
        assert r[i] == q[i - (|p| - 1)] && r[i + 1] == q[i - (|p| - 1) + 1];
      }
    }
    assert PathBetween(gates, r, a, c);
  }

  /** A set closed under `after` edges holds everything its members reach. */
  lemma {:induction false} ClosedSet(gates: Gates, s: set<string>, p: seq<string>)
    requires IsPath(gates, p) && p[0] in s
    requires forall x, d :: x in s && d in After(gates, x) ==> d in s
    ensures p[|p| - 1] in s
  {
    if |p| > 1 {
      assert p[1] in After(gates, p[0]);
      ClosedSet(gates, s, p[1..]);
    }
  }

  ghost function Names(gates: Gates, start: string): set<string> {
    {start} + gates.Keys + set n, d | n in gates && d in After(gates, n) :: d
  }

  lemma NamesClosed(gates: Gates, start: string, n: string)
    ensures start in Names(gates, start)
    ensures forall d :: d in After(gates, n) ==> d in Names(gates, start)
  {
  }

  /** The search's state: everything on the stack is reachable from the start, and every edge out
      of a seen name leads to a seen name or to the stack. */
  ghost predicate Searching(gates: Gates, start: string, target: string, seen: set<string>, stack: seq<string>) {
    && (forall x :: x in stack ==> x in Names(gates, start) && Reaches(gates, start, x))
    && seen <= Names(gates, start) && target !in seen
    && (start in seen || start in stack)
    && (forall x, d :: x in seen && d in After(gates, x) ==> d in seen || d in stack)
  }

  /** The worklist search stops on every graph, cyclic and dangling ones included, and answers
      exactly whether a path exists. */
  method GateReaches(gates: Gates, start: string, target: string) returns (found: bool)
    ensures found <==> Reaches(gates, start, target)
  {
    hide Names, Reaches, Searching, After;
    var seen: set<string> := {};
    var stack := [start];
    SearchStarts(gates, start, target);
    while stack != []
      invariant Searching(gates, start, target, seen, stack)
      decreases |Names(gates, start) - seen|, |stack|
    {
      var current := stack[|stack| - 1];
      assert stack == stack[..|stack| - 1] + [current];
      stack := stack[..|stack| - 1];
      if current == target {
        TopIsReached(gates, start, target, seen, stack + [current]);
        return true;
      }
      SearchSteps(gates, start, target, seen, stack, current);
      if current in seen {
        continue;
      }
      seen := seen + {current};
      stack := stack + After(gates, current);
    }
    assert stack == [];
    NothingMissed(gates, seen, start, target);
    return false;
  }

  lemma SearchStarts(gates: Gates, start: string, target: string)
    ensures Searching(gates, start, target, {}, [start])
  {
    hide Reaches;
    ReachesSelf(gates, start);
  }

  lemma TopIsReached(gates: Gates, start: string, target: string, seen: set<string>, stack: seq<string>)
    requires stack != [] && Searching(gates, start, target, seen, stack)
    ensures Reaches(gates, start, stack[|stack| - 1])
  {
    hide Reaches, Names;
    assert stack[|stack| - 1] in stack;
  }

  lemma SearchSteps(gates: Gates, start: string, target: string, seen: set<string>, rest: seq<string>, current: string)
    requires Searching(gates, start, target, seen, rest + [current]) && current != target
    ensures current in seen ==> Searching(gates, start, target, seen, rest)
    ensures current !in seen ==>
              && Searching(gates, start, target, seen + {current}, rest + After(gates, current))
              && |Names(gates, start) - (seen + {current})| < |Names(gates, start) - seen|
  {
    hide Reaches, Names;
    assert forall x :: x in rest + [current] <==> x in rest || x == current;
    NamesClosed(gates, start, current);
    forall d | d in After(gates, current) ensures Reaches(gates, start, d) {
      ReachesStep(gates, start, current, d);
    }
    if current !in seen {
      SmallerRest(Names(gates, start), seen, current);
    }
  }

  lemma NothingMissed(gates: Gates, seen: set<string>, start: string, target: string)
    requires Searching(gates, start, target, seen, [])
    ensures !Reaches(gates, start, target)
  {
    hide Names;
    forall p | IsPath(gates, p) && p[0] == start ensures p[|p| - 1] in seen {
      ClosedSet(gates, seen, p);
    }
  }

  // ---- well-formed orderings ----

  predicate OrderingShapeOk(gates: Gates, n: string)
    requires n in gates
  {
    var g := gates[n];
    g.Gate? && !g.after.Absent? ==>
      && g.after.Val? && g.after.value != []
      && (forall d :: d in g.after.value ==> IsName(d))
      && Distinct(g.after.value)
      && n !in g.after.value
      && (forall d :: d in g.after.value ==> d in gates && gates[d].Gate?)
  }

  /** No gate can be reached from a gate it waits on. */
  ghost predicate Acyclic(gates: Gates) {
    forall n, d :: n in gates && d in After(gates, n) ==> !Reaches(gates, d, n)
  }

  ghost predicate OrderingOk(gates: Gates) {
    (forall n :: n in gates ==> OrderingShapeOk(gates, n)) && Acyclic(gates)
  }

  /** Acyclic in the usual words: no closed walk of one or more edges. */
  lemma AcyclicMeansNoClosedWalk(gates: Gates)
    ensures Acyclic(gates) <==> !exists p :: IsPath(gates, p) && |p| > 1 && p[0] == p[|p| - 1]
  {
    if Acyclic(gates) {
      forall p | IsPath(gates, p) && |p| > 1 && p[0] == p[|p| - 1] ensures false {
        assert p[1] in After(gates, p[0]);
        assert PathBetween(gates, p[1..], p[1], p[0]);
        assert Reaches(gates, p[1], p[0]);
      }
    } else {
      var n, d :| n in gates && d in After(gates, n) && Reaches(gates, d, n);
      var p :| PathBetween(gates, p, d, n);
      var q := [n] + p;
      assert IsPath(gates, q) && |q| > 1 && q[0] == q[|q| - 1];
    }
  }

  datatype OrderingFault =
    | NotAList(name: string) | ListedTwice(name: string) | WaitsOnItself(name: string)
    | UnknownGate(name: string) | MalformedGate(name: string) | Cycle(name: string, through: string)

  function ShapeFaults(gates: Gates, n: string): (r: seq<OrderingFault>)
    requires n in gates
    ensures r == [] <==> OrderingShapeOk(gates, n)
  {
    var g := gates[n];
    if g.NotAMap? || g.after.Absent? then []
    else if !(g.after.Val? && g.after.value != [] && forall d :: d in g.after.value ==> IsName(d)) then [NotAList(n)]
    else
      var after := g.after.value;
      (if Distinct(after) then [] else [ListedTwice(n)]) +
      (if n in after then [WaitsOnItself(n)] else []) +
      (if exists d :: d in after && d != n && d !in gates then [UnknownGate(n)] else []) +
      (if exists d :: d in after && d != n && d in gates && gates[d].NotAMap? then [MalformedGate(n)] else [])
  }

  /** Reports a problem exactly when the stored orderings are malformed or cyclic. */
  method OrderingErrors(gates: Gates) returns (errors: seq<OrderingFault>)
    ensures errors == [] <==> OrderingOk(gates)
  {
    errors := [];
    var todo := gates.Keys;
    while todo != {}
      invariant todo <= gates.Keys
      invariant errors == [] <==> forall n :: n in gates && n !in todo ==> OrderingShapeOk(gates, n)
    {
      var n :| n in todo;
      todo := todo - {n};
      errors := errors + ShapeFaults(gates, n);
    }
    if errors != [] {
      return;
    }
    todo := gates.Keys;
    while todo != {}
      invariant todo <= gates.Keys && errors == []
      invariant forall n, d :: n in gates && n !in todo && d in After(gates, n) ==> !Reaches(gates, d, n)
    {
      var n :| n in todo;
      todo := todo - {n};
      var after := GateAfter(gates[n]);
      for i := 0 to |after|
        invariant forall k :: 0 <= k < i ==> !Reaches(gates, after[k], n)
      {
        var looped := GateReaches(gates, after[i], n);
        if looped {
          assert after[i] in After(gates, n);
          return [Cycle(n, after[i])];
        }
      }
    }
  }

  // ---- edits that keep the graph acyclic ----

  lemma SameGraphSamePaths(g1: Gates, g2: Gates, a: string, b: string)
    requires forall n :: After(g1, n) == After(g2, n)
    ensures Reaches(g1, a, b) <==> Reaches(g2, a, b)
  {
    if p :| PathBetween(g1, p, a, b) {
      assert PathBetween(g2, p, a, b);
    }
    if p :| PathBetween(g2, p, a, b) {
      assert PathBetween(g1, p, a, b);
    }
  }

  /** Rewriting a gate without touching its `after` changes nothing about the ordering. */
  lemma RewriteKeepsOrdering(gates: Gates, n: string, g: Gate)
    requires OrderingOk(gates) && n in gates && gates[n].Gate? && g.Gate? && g.after == gates[n].after
    ensures OrderingOk(gates[n := g])
  {
    var gates' := gates[n := g];
    forall m ensures After(gates', m) == After(gates, m) {}
    forall m | m in gates' ensures OrderingShapeOk(gates', m) {
      assert OrderingShapeOk(gates, m);
    }
    forall m, d | m in gates' && d in After(gates', m) ensures !Reaches(gates', d, m) {
      SameGraphSamePaths(gates, gates', d, m);
    }
  }

  /** `more` has the edges of `gates` and, out of `n` only, edges to `added`. */
  ghost predicate EdgesAdded(gates: Gates, more: Gates, n: string, added: seq<string>) {
    && (forall m :: m != n ==> After(more, m) == After(gates, m))
    && (forall d :: d in After(more, n) <==> d in After(gates, n) || d in added)
  }

  /** Cutting a walk at its first visit of `n`: up to there it uses old edges only. */
  lemma {:induction false} CutAtFirstVisit(gates: Gates, more: Gates, n: string, added: seq<string>, p: seq<string>)
    requires EdgesAdded(gates, more, n, added) && IsPath(more, p)
    ensures Reaches(gates, p[0], n) || Reaches(gates, p[0], p[|p| - 1])
    ensures p[|p| - 1] == n ==> Reaches(gates, p[0], n)
  {
    ReachesSelf(gates, p[0]);
    if p[0] != n && |p| > 1 {
      var rest := p[1..];
      CutAtFirstVisit(gates, more, n, added, rest);
      assert p[1] in After(gates, p[0]);
      ReachesStep(gates, p[0], p[0], p[1]);
      if Reaches(gates, p[1], n) {
        ReachesTrans(gates, p[0], p[1], n);
      } else {
        ReachesTrans(gates, p[0], p[1], p[|p| - 1]);
      }
    }
  }

  /** A walk in the bigger graph is an old walk, or leaves `n` by a last new edge. */
  lemma {:induction false} SplitAtLastNewEdge(gates: Gates, more: Gates, n: string, added: seq<string>, p: seq<string>)
    requires EdgesAdded(gates, more, n, added) && IsPath(more, p)
    ensures Reaches(gates, p[0], p[|p| - 1]) || exists d :: d in added && Reaches(gates, d, p[|p| - 1])
  {
    ReachesSelf(gates, p[0]);
    if |p| > 1 {
      SplitAtLastNewEdge(gates, more, n, added, p[1..]);
      if Reaches(gates, p[1], p[|p| - 1]) && p[1] in After(gates, p[0]) {
        ReachesStep(gates, p[0], p[0], p[1]);
        ReachesTrans(gates, p[0], p[1], p[|p| - 1]);
      }
    }
  }

  /** Adding edges out of `n` to gates that do not lead back to `n` keeps the graph acyclic. */
  lemma AddedEdgesKeepAcyclic(gates: Gates, more: Gates, n: string, added: seq<string>)
    requires Acyclic(gates) && EdgesAdded(gates, more, n, added)
    requires forall d :: d in added ==> !Reaches(gates, d, n)
    ensures Acyclic(more)
  {
    forall m, d | m in more && d in After(more, m) ensures !Reaches(more, d, m) {
      if Reaches(more, d, m) {
        var p :| PathBetween(more, p, d, m);
        CutAtFirstVisit(gates, more, n, added, p);
        SplitAtLastNewEdge(gates, more, n, added, p);
        if m != n && Reaches(gates, d, n) {
          var x :| x in added && Reaches(gates, x, m);
          ReachesStep(gates, x, m, d);
          ReachesTrans(gates, x, d, n);
        }
      }
    }
  }

  lemma WalksEndAtGates(gates: Gates, p: seq<string>)
    requires forall m :: m in gates ==> OrderingShapeOk(gates, m)
    requires IsPath(gates, p) && |p| > 1
    ensures p[|p| - 1] in gates
  {
    assert p[|p| - 1] in After(gates, p[|p| - 2]);
    assert OrderingShapeOk(gates, p[|p| - 2]);
  }

  /** Nothing leads to a name that is no gate yet. */
  lemma NothingReachesNewName(gates: Gates, n: string, a: string)
    requires n !in gates && a != n
    requires forall m :: m in gates ==> OrderingShapeOk(gates, m)
    ensures !Reaches(gates, a, n)
  {
    forall p | IsPath(gates, p) && |p| > 1 ensures p[|p| - 1] in gates {
      WalksEndAtGates(gates, p);
    }
  }

  /** Declaring a gate that waits on declared gates keeps the ordering well formed. */
  lemma DeclareKeepsOrdering(gates: Gates, n: string, g: Gate)
    requires OrderingOk(gates) && n !in gates && g.Gate?
    requires OrderingShapeOk(gates[n := g], n)
    ensures OrderingOk(gates[n := g])
  {
    var more := gates[n := g];
    forall m | m in more ensures OrderingShapeOk(more, m) {
      assert m != n ==> OrderingShapeOk(gates, m);
    }
    forall d | d in GateAfter(g) ensures !Reaches(gates, d, n) {
      NothingReachesNewName(gates, n, d);
    }
    AddedEdgesKeepAcyclic(gates, more, n, GateAfter(g));
  }

  lemma DistinctConcat<T>(a: seq<T>, b: seq<T>)
    requires Distinct(a) && Distinct(b) && forall x :: x in b ==> x !in a
    ensures Distinct(a + b)
  {
    var c := a + b;
    forall i, j | 0 <= i < j < |c| ensures c[i] != c[j] {
      if j >= |a| {
        assert c[j] == b[j - |a|] && c[j] in b;
        assert i >= |a| ==> c[i] == b[i - |a|];
        assert i < |a| ==> c[i] == a[i] && c[i] in a;
      }
    }
  }

  /** Adding waits that do not lead back keeps the ordering well formed. */
  lemma DependKeepsOrdering(gates: Gates, n: string, g: Gate, added: seq<string>)
    requires OrderingOk(gates) && n in gates && gates[n].Gate? && g.Gate?
    requires added != [] && g.after == Val(GateAfter(gates[n]) + added)
    requires Distinct(added) && n !in added
    requires forall d :: d in added ==>
               IsName(d) && d in gates && gates[d].Gate? && d !in GateAfter(gates[n]) && !Reaches(gates, d, n)
    ensures OrderingOk(gates[n := g])
  {
    var more := gates[n := g];
    var had := GateAfter(gates[n]);
    assert OrderingShapeOk(gates, n);
    assert forall d :: d in g.after.value <==> d in had || d in added;
    DistinctConcat(had, added);
    forall m | m in more ensures OrderingShapeOk(more, m) {
      assert m != n ==> OrderingShapeOk(gates, m);
    }
    AddedEdgesKeepAcyclic(gates, more, n, added);
  }

  // ---- dependencies ----

  function UnresolvedDependencies(gates: Gates, g: Gate, index: Option<Index>): set<string> {
    set d | d in GateAfter(g) &&
            !(d in gates && if index.Some? then GateResolved(gates[d], index) else Resolved(gates[d]))
  }

  /** In every well-formed gate map, any non-empty set of gates has one that waits on none of them. */
  lemma {:induction false} SomeGateIsFirst(gates: Gates, open: set<string>) returns (n: string)
    requires OrderingOk(gates) && open != {} && open <= gates.Keys
    ensures n in open && forall d :: d in After(gates, n) ==> d !in open
    decreases |open|
  {
    n :| n in open;
    ghost var below := set x | x in open && x != n && Reaches(gates, n, x);
    if below == {} {
      forall d | d in After(gates, n) ensures d !in open {
        ReachesSelf(gates, n);
        ReachesStep(gates, n, n, d);
        assert OrderingShapeOk(gates, n);
        assert d !in below;
      }
    } else {
      assert below <= open - {n};
      assert |below| <= |open - {n}| by { SubsetSize(below, open - {n}); }
      var m := SomeGateIsFirst(gates, below);
      forall d | d in After(gates, m) ensures d !in open {
        ReachesStep(gates, n, m, d);
        assert d !in below;
        assert m in gates;
        assert !Reaches(gates, d, m);
      }
      n := m;
    }
  }

  lemma {:induction false} SubsetSize<T>(a: set<T>, b: set<T>)
    requires a <= b
    ensures |a| <= |b|
  {
    if a != {} {
      var x := AnElement(a);
      SubsetSize(a - {x}, b - {x});
    }
  }
}
