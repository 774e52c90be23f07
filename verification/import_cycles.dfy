/** The three-colour search for import cycles (circularCommand of scripts/socraticode-graph-helper.js). */
module ImportCycles {
  import opened CycleSignature
  import opened Text

  /** Each package that imports something, with the packages it imports. */
  type Graph = map<string, seq<string>>

  function Imports(g: Graph, n: string): seq<string> {
    if n in g then g[n] else []
  }

  predicate IsWalk(g: Graph, p: seq<string>) {
    forall i :: 0 <= i < |p| - 1 ==> p[i + 1] in Imports(g, p[i])
  }

  /** A real cycle: back to its first package along imports only. */
  predicate ClosedWalk(g: Graph, c: seq<string>) {
    |c| > 1 && c[0] == c[|c| - 1] && IsWalk(g, c)
  }

  datatype Color = White | Gray | Black

  function ColorOf(color: map<string, Color>, n: string): Color {
    if n in color then color[n] else White
  }

  function Core(c: seq<string>): seq<string> {
    if c == [] then [] else c[..|c| - 1]
  }

  /** The place of the first `x`, the length when there is none. */
  function FirstIndex(s: seq<string>, x: string): (i: nat)
    ensures i <= |s| && (i < |s| ==> s[i] == x) && (forall k :: 0 <= k < i ==> s[k] != x)
  {
    if s == [] || s[0] == x then 0 else 1 + FirstIndex(s[1..], x)
  }

  // ---- what the search maintains ----

  /** Gray is the current path of imports; black is finished, listed in `done` in finishing order. */
  ghost predicate Coloured(g: Graph, color: map<string, Color>, stack: seq<string>, done: seq<string>) {
    && (forall n :: n in color ==> !color[n].White?)
    && (forall n :: ColorOf(color, n).Gray? <==> n in stack)
    && (forall n :: ColorOf(color, n).Black? <==> n in done)
    && Distinct(stack) && IsWalk(g, stack)
  }

  /** The import of `d` by `n` is part of a reported chain. */
  ghost predicate OnChain(cycles: seq<seq<string>>, n: string, d: string) {
    exists c, k :: c in cycles && 0 <= k < |c| - 1 && c[k] == n && c[k + 1] == d
  }

  /** The import is accounted for by a report. Where names may be confused once joined, a report is
      all that is known. */
  ghost predicate Marked(cycles: seq<seq<string>>, plain: bool, n: string, d: string) {
    if plain then OnChain(cycles, n, d) else cycles != []
  }

  ghost predicate Settled(cycles: seq<seq<string>>, plain: bool, done: seq<string>, n: string, d: string) {
    d in done || Marked(cycles, plain, n, d)
  }

  /** Every import of a finished package was finished before it, or is on a report. */
  ghost predicate InFinishingOrder(g: Graph, done: seq<string>, cycles: seq<seq<string>>, plain: bool) {
    forall i, d :: 0 <= i < |done| && d in Imports(g, done[i]) ==> Settled(cycles, plain, done[..i], done[i], d)
  }

  /** The chains reported are real, no two are one cycle entered at two places, and `seen` holds
      exactly their signatures. */
  ghost predicate Reported(g: Graph, cycles: seq<seq<string>>, seen: set<string>) {
    && (forall c :: c in cycles ==> ClosedWalk(g, c))
    && (forall c :: c in cycles ==> Signature(Core(c)) in seen)
    && (seen != {} ==> cycles != [])
    && (forall i, j :: 0 <= i < j < |cycles| ==> Signature(Core(cycles[i])) != Signature(Core(cycles[j])))
    && (forall s :: s in seen ==> exists c :: c in cycles && Signature(Core(c)) == s)
  }

  ghost predicate Consistent(g: Graph, color: map<string, Color>, stack: seq<string>, cycles: seq<seq<string>>,
                             seen: set<string>, done: seq<string>, plain: bool) {
    && Coloured(g, color, stack, done)
    && Reported(g, cycles, seen)
    && InFinishingOrder(g, done, cycles, plain)
  }

  predicate ClosedNames(g: Graph, names: set<string>) {
    && (forall n :: n in g ==> n in names)
    && (forall n, d :: n in names && d in Imports(g, n) ==> d in names)
  }

  predicate PlainNames(names: set<string>) {
    forall n :: n in names ==> Plain(n)
  }

  predicate OnTop(stack: seq<string>, node: string) { stack != [] && stack[|stack| - 1] == node }

  class Search {
    const graph: Graph
    const names: set<string>
    var color: map<string, Color>
    var stack: seq<string>
    var cycles: seq<seq<string>>
    var seen: set<string>
    ghost var done: seq<string>

    constructor (graph: Graph, names: set<string>)
      ensures this.graph == graph && this.names == names
      ensures color == map[] && stack == [] && cycles == [] && seen == {} && done == []
    {
      this.graph, this.names := graph, names;
      color, stack, cycles, seen, done := map[], [], [], {}, [];
    }

    ghost predicate Valid()
      reads this
    {
      && Consistent(graph, color, stack, cycles, seen, done, PlainNames(names))
      && color.Keys <= names
      && ClosedNames(graph, names)
    }

    method Dfs(node: string)
      requires Valid() && node in names && node !in color
      requires stack != [] ==> node in Imports(graph, stack[|stack| - 1])
      modifies this
      ensures Valid() && stack == old(stack) && node in done
              && Grown(old(color).Keys, old(done), old(cycles), color.Keys, done, cycles)
      decreases |names - color.Keys|, 0
    {
      hide Valid, Imports, AllIn, Kept, AllSettled;
      ghost var rest := stack;
      Push(node);
      ghost var pushed := color.Keys;
      assert OnTop(stack, node);
      VisitAll(node);
      ghost var before, visited := done, color.Keys;
      Finish(node, rest);
      AllInTrans(old(done), before, done);
      KeysGrow(old(color).Keys, pushed, visited, node);
    }

    method Push(node: string)
      requires Valid() && node in names && node !in color
      requires stack != [] ==> node in Imports(graph, stack[|stack| - 1])
      modifies this`color, this`stack
      ensures Valid() && stack == old(stack) + [node] && color.Keys == old(color).Keys + {node}
      ensures |names - color.Keys| < |names - old(color).Keys|
    {
      hide Consistent, Imports, ClosedNames, PlainNames;
      PushKeeps(graph, color, stack, cycles, seen, done, PlainNames(names), node);
      SmallerRest(names, color.Keys, node);
      color := color[node := Gray];
      stack := stack + [node];
    }

    method Finish(node: string, ghost rest: seq<string>)
      requires Valid() && stack == rest + [node] && node in names
      requires AllSettled(cycles, PlainNames(names), done, node, Imports(graph, node))
      modifies this`color, this`stack, this`done
      ensures Valid() && stack == rest
      ensures color.Keys == old(color).Keys + {node} && AllIn(old(done), done) && node in done
    {
      hide Consistent, Imports, ClosedNames, AllIn, AllSettled, PlainNames;
      assert stack[..|stack| - 1] == rest && stack[|stack| - 1] == node;
      PopKeeps(graph, color, stack, cycles, seen, done, PlainNames(names));
      AllInMore(done, node);
      stack := stack[..|stack| - 1];
      color := color[node := Black];
      done := done + [node];
    }

    lemma NamesAreClosed()
      requires Valid()
      ensures ClosedNames(graph, names)
    {
    }

    method VisitAll(node: string)
      requires Valid() && OnTop(stack, node) && node in names
      modifies this
      ensures Valid() && stack == old(stack) && Grown(old(color).Keys, old(done), old(cycles), color.Keys, done, cycles)
      ensures AllSettled(cycles, PlainNames(names), done, node, Imports(graph, node))
      decreases |names - color.Keys|, 2
    {
      hide Valid, OnTop, Imports, AllIn, Kept, Settled, FirstSettled, AllSettled, ClosedNames, PlainNames, Grown;
      var neighbors := Imports(graph, node);
      ghost var k0, d0, c0, path := color.Keys, done, cycles, stack;
      NamesAreClosed();
      NoneYet(cycles, PlainNames(names), done, node, neighbors);
      GrownSelf(k0, d0, c0);
      for i := 0 to |neighbors|
        invariant Valid() && stack == path && Grown(k0, d0, c0, color.Keys, done, cycles)
        invariant FirstSettled(cycles, PlainNames(names), done, node, neighbors, i)
      {
        var neighbor := neighbors[i];
        ImportIsNamed(graph, names, node, neighbor);
        GrownLeavesLess(names, k0, d0, c0, color.Keys, done, cycles);
        ghost var known, before, reported := color.Keys, done, cycles;
        Visit(node, neighbor);
        OneMoreSettled(known, reported, color.Keys, cycles, PlainNames(names), before, done, node, neighbors, i);
        GrownTrans(k0, d0, c0, known, before, reported, color.Keys, done, cycles);
      }
      EverySettled(cycles, PlainNames(names), done, node, neighbors);
    }

    /** One import of the package on top of the path. */
    method Visit(node: string, neighbor: string)
      requires Valid() && OnTop(stack, node) && neighbor in Imports(graph, node) && neighbor in names
      modifies this
      ensures Valid() && stack == old(stack) && Grown(old(color).Keys, old(done), old(cycles), color.Keys, done, cycles)
      ensures Settled(cycles, PlainNames(names), done, node, neighbor)
      decreases |names - color.Keys|, 1
    {
      hide Consistent, Imports, ClosedNames, AllIn, Kept, Marked, PlainNames;
      GrownSelf(color.Keys, done, cycles);
      ColourFacts(graph, color, stack, cycles, seen, done, PlainNames(names), neighbor);
      if ColorOf(color, neighbor).White? {
        Dfs(neighbor);
      } else if ColorOf(color, neighbor).Gray? {
        Record(neighbor);
      }
    }

    /** The chain from the neighbour's place on the path back to it is reported, unless a rotation
        of it already is (as far as names can be told apart once joined). */
    method Record(neighbor: string)
      requires Valid() && stack != [] && neighbor in stack && neighbor in Imports(graph, stack[|stack| - 1])
      modifies this`cycles, this`seen
      ensures Valid() && Kept(old(cycles), cycles) && Marked(cycles, PlainNames(names), stack[|stack| - 1], neighbor)
      ensures exists c :: c in cycles && Signature(Core(c)) == Signature(stack[FirstIndex(stack, neighbor)..])
      ensures PlainNames(names) ==> exists c :: c in cycles && IsRotation(Core(c), stack[FirstIndex(stack, neighbor)..])
    {
      hide Imports, Coloured, InFinishingOrder, Reported, ClosedWalk, IsRotation, Core, Marked, Kept, PlainNames,
           Signature;
      var start := IndexOf(stack, neighbor);
      ghost var path := stack[start..];
      var cycle := stack[start..] + [neighbor];
      ChainIsClosed(graph, color, stack, done, start, neighbor);
      CoreOfChain(path, neighbor);
      assert cycle[|cycle| - 2] == stack[|stack| - 1] && cycle[|cycle| - 1] == neighbor;
      Report(cycle);
    }

    method Report(cycle: seq<string>)
      requires Valid() && ClosedWalk(graph, cycle)
      modifies this`cycles, this`seen
      ensures Valid() && Kept(old(cycles), cycles) && |cycle| > 1
      ensures Marked(cycles, PlainNames(names), cycle[|cycle| - 2], cycle[|cycle| - 1])
      ensures exists c :: c in cycles && Signature(Core(c)) == Signature(Core(cycle))
      ensures PlainNames(names) ==> exists c :: c in cycles && IsRotation(Core(c), Core(cycle))
    {
      hide Imports, Coloured, InFinishingOrder, Reported, IsRotation, Core, Marked, Kept, PlainNames, Signature, IsWalk;
      CoreIsFront(cycle);
      var signature := CanonicalCycleSignature(cycle);
      ReportKeeps(graph, cycles, seen, cycle);
      if signature !in seen {
        LaterReport(graph, done, cycles, cycles + [cycle], PlainNames(names));
        NewReport(cycles, cycle, PlainNames(names));
        seen := seen + {signature};
        cycles := cycles + [cycle];
      } else {
        KeptSelf(cycles);
        KnownReport(graph, names, cycles, cycle);
      }
    }
  }

  /** What a step never takes back. */
  ghost predicate Grown(known: set<string>, done: seq<string>, cycles: seq<seq<string>>, known': set<string>,
                        done': seq<string>, cycles': seq<seq<string>>) {
    known <= known' && AllIn(done, done') && Kept(cycles, cycles')
  }

  lemma GrownSelf(known: set<string>, done: seq<string>, cycles: seq<seq<string>>)
    ensures Grown(known, done, cycles, known, done, cycles)
  {
  }

  lemma GrownTrans(k0: set<string>, d0: seq<string>, c0: seq<seq<string>>, k1: set<string>, d1: seq<string>,
                   c1: seq<seq<string>>,
                   k2: set<string>, d2: seq<string>, c2: seq<seq<string>>)
    requires Grown(k0, d0, c0, k1, d1, c1) && Grown(k1, d1, c1, k2, d2, c2)
    ensures Grown(k0, d0, c0, k2, d2, c2)
  {
  }

  lemma GrownLeavesLess(names: set<string>, k0: set<string>, d0: seq<string>, c0: seq<seq<string>>, k1: set<string>,
                        d1: seq<string>, c1: seq<seq<string>>)
    requires Grown(k0, d0, c0, k1, d1, c1)
    ensures |names - k1| <= |names - k0|
  {
    hide AllIn, Kept;
    RestShrinks(names, k0, k1);
  }

  /** Every report of the one list is on the other. */
  predicate Kept(some: seq<seq<string>>, all: seq<seq<string>>) {
    forall c :: c in some ==> c in all
  }

  lemma KeptSelf(some: seq<seq<string>>)
    ensures Kept(some, some)
  {
  }

  lemma MarkStays(cycles: seq<seq<string>>, more: seq<seq<string>>, plain: bool, n: string, d: string)
    requires Kept(cycles, more) && Marked(cycles, plain, n, d)
    ensures Marked(more, plain, n, d)
  {
    if plain {
      var c, k :| c in cycles && 0 <= k < |c| - 1 && c[k] == n && c[k + 1] == d;
      assert c in more;
    } else {
      assert cycles[0] in cycles;
    }
  }

  lemma LaterReport(g: Graph, done: seq<string>, cycles: seq<seq<string>>, more: seq<seq<string>>, plain: bool)
    requires InFinishingOrder(g, done, cycles, plain) && cycles <= more
    ensures Kept(cycles, more) && InFinishingOrder(g, done, more, plain)
  {
    hide Imports, Marked;
    forall i, d | 0 <= i < |done| && d in Imports(g, done[i]) ensures Settled(more, plain, done[..i], done[i], d) {
      assert Settled(cycles, plain, done[..i], done[i], d);
      if d !in done[..i] {
        MarkStays(cycles, more, plain, done[i], d);
      }
    }
  }

  lemma NewReport(cycles: seq<seq<string>>, cycle: seq<string>, plain: bool)
    requires |cycle| > 1
    ensures Marked(cycles + [cycle], plain, cycle[|cycle| - 2], cycle[|cycle| - 1])
    ensures cycle in cycles + [cycle]
    ensures IsRotation(Core(cycle), Core(cycle))
  {
    assert Rotate(Core(cycle), 0) == Core(cycle);
    var k := |cycle| - 2;
    assert cycle in cycles + [cycle] && cycle[k + 1] == cycle[|cycle| - 1];
  }

  /** A chain that is dropped is a rotation of a reported one, so its imports are all reported. */
  lemma KnownReport(g: Graph, names: set<string>, cycles: seq<seq<string>>, cycle: seq<string>)
    requires ClosedNames(g, names) && ClosedWalk(g, cycle) && (forall c :: c in cycles ==> ClosedWalk(g, c))
    requires exists c :: c in cycles && Signature(Core(c)) == Signature(Core(cycle))
    ensures Marked(cycles, PlainNames(names), cycle[|cycle| - 2], cycle[|cycle| - 1])
    ensures PlainNames(names) ==> exists c :: c in cycles && IsRotation(Core(c), Core(cycle))
  {
    hide Signature, Core, IsRotation, ClosedNames, PlainNames, ClosedWalk, Plain;
    var c :| c in cycles && Signature(Core(c)) == Signature(Core(cycle));
    if PlainNames(names) {
      CoresArePlain(g, names, c);
      CoresArePlain(g, names, cycle);
      SameSignatureExactly(Core(c), Core(cycle), Signature(Core(c)), Signature(Core(cycle)));
      RotationHasEdge(g, c, cycle);
    }
  }

  lemma CoresArePlain(g: Graph, names: set<string>, c: seq<string>)
    requires ClosedNames(g, names) && ClosedWalk(g, c)
    ensures Core(c) != [] && |c| > 1
    ensures PlainNames(names) ==> forall x :: x in Core(c) ==> Plain(x)
  {
    hide Plain;
    forall x | x in Core(c) ensures x in names {
      var i :| 0 <= i < |c| - 1 && c[i] == x;
      assert c[i + 1] in Imports(g, c[i]);
    }
  }

  /** A rotation of a cycle goes along the same imports. */
  lemma RotationHasEdge(g: Graph, c: seq<string>, other: seq<string>)
    requires ClosedWalk(g, c) && ClosedWalk(g, other) && IsRotation(Core(c), Core(other))
    ensures exists p :: 0 <= p < |c| - 1 && c[p] == other[|other| - 2] && c[p + 1] == other[|other| - 1]
  {
    hide IsWalk;
    var a, n := Core(c), |c| - 1;
    var k :| 0 <= k <= n && Rotate(a, k) == Core(other);
    assert |other| == |c| && Core(other)[n - 1] == other[n - 1] && Core(other)[0] == other[0];
    var p := if k == 0 then n - 1 else k - 1;
    assert Rotate(a, k)[n - 1] == c[p];
    assert Rotate(a, k)[0] == (if k == n then c[0] else c[k]);
    assert c[p + 1] == other[n];
  }

  method IndexOf(s: seq<string>, x: string) returns (i: nat)
    ensures i == FirstIndex(s, x)
  {
    i := 0;
    while i < |s| && s[i] != x
      invariant i <= |s| && forall k :: 0 <= k < i ==> s[k] != x
    {
      i := i + 1;
    }
    FirstIndexIs(s, x, i);
  }

  lemma FirstIndexIs(s: seq<string>, x: string, i: nat)
    requires i <= |s| && (i < |s| ==> s[i] == x) && forall k :: 0 <= k < i ==> s[k] != x
    ensures FirstIndex(s, x) == i
  {
  }

  lemma ImportIsNamed(g: Graph, names: set<string>, n: string, d: string)
    requires ClosedNames(g, names) && n in names && d in Imports(g, n)
    ensures d in names
  {
  }

  lemma CoreIsFront(c: seq<string>)
    requires |c| > 1
    ensures Core(c) == c[..|c| - 1]
  {
  }

  lemma CoreOfChain(p: seq<string>, last: string)
    ensures Core(p + [last]) == p
  {
  }

  ghost predicate AllSettled(cycles: seq<seq<string>>, plain: bool, done: seq<string>, n: string,
                             imports: seq<string>) {
    forall d :: d in imports ==> Settled(cycles, plain, done, n, d)
  }

  /** The first `i` imports are settled. */
  ghost predicate FirstSettled(cycles: seq<seq<string>>, plain: bool, done: seq<string>, n: string,
                               imports: seq<string>, i: nat)
    requires i <= |imports|
  {
    forall k :: 0 <= k < i ==> Settled(cycles, plain, done, n, imports[k])
  }

  lemma NoneYet(cycles: seq<seq<string>>, plain: bool, done: seq<string>, n: string, imports: seq<string>)
    ensures FirstSettled(cycles, plain, done, n, imports, 0)
  {
  }

  lemma EverySettled(cycles: seq<seq<string>>, plain: bool, done: seq<string>, n: string, imports: seq<string>)
    requires FirstSettled(cycles, plain, done, n, imports, |imports|)
    ensures AllSettled(cycles, plain, done, n, imports)
  {
    hide Settled;
  }

  lemma OneMoreSettled(known: set<string>, cycles: seq<seq<string>>, known': set<string>, more: seq<seq<string>>,
                       plain: bool,
                       before: seq<string>, done: seq<string>, n: string, imports: seq<string>, i: nat)
    requires i < |imports| && Grown(known, before, cycles, known', done, more)
    requires FirstSettled(cycles, plain, before, n, imports, i) && Settled(more, plain, done, n, imports[i])
    ensures FirstSettled(more, plain, done, n, imports, i + 1)
  {
    hide Marked, Kept;
    forall k | 0 <= k < i ensures Settled(more, plain, done, n, imports[k]) {
      if imports[k] !in before {
        MarkStays(cycles, more, plain, n, imports[k]);
      }
    }
  }

  predicate AllIn(some: seq<string>, all: seq<string>) {
    forall x :: x in some ==> x in all
  }

  lemma AllInTrans(a: seq<string>, b: seq<string>, c: seq<string>)
    requires AllIn(a, b) && AllIn(b, c)
    ensures AllIn(a, c)
  {
  }

  lemma KeysGrow(a: set<string>, b: set<string>, c: set<string>, x: string)
    requires b == a + {x} && b <= c
    ensures a <= c + {x}
  {
  }

  lemma AllInMore(b: seq<string>, x: string)
    ensures AllIn(b, b + [x]) && x in b + [x]
  {
  }

  lemma RestShrinks(names: set<string>, known: set<string>, more: set<string>)
    requires known <= more
    ensures |names - more| <= |names - known|
  {
    assert names - more <= names - known;
    assert names - known == (names - more) + ((names - known) - (names - more));
  }

  lemma ColourFacts(g: Graph, color: map<string, Color>, stack: seq<string>, cycles: seq<seq<string>>,
                    seen: set<string>, done: seq<string>, plain: bool, n: string)
    requires Consistent(g, color, stack, cycles, seen, done, plain)
    ensures ColorOf(color, n).White? ==> n !in color
    ensures ColorOf(color, n).Gray? ==> n in stack
    ensures ColorOf(color, n).Black? ==> n in done
  {
  }

  lemma PushKeeps(g: Graph, color: map<string, Color>, stack: seq<string>, cycles: seq<seq<string>>, seen: set<string>,
                  done: seq<string>, plain: bool, node: string)
    requires Consistent(g, color, stack, cycles, seen, done, plain) && node !in color
    requires stack != [] ==> node in Imports(g, stack[|stack| - 1])
    ensures Consistent(g, color[node := Gray], stack + [node], cycles, seen, done, plain)
  {
    hide Reported, InFinishingOrder;
    assert ColorOf(color, node).White?;
    assert node !in stack && node !in done;
  }

  lemma PopKeeps(g: Graph, color: map<string, Color>, stack: seq<string>, cycles: seq<seq<string>>, seen: set<string>,
                 done: seq<string>, plain: bool)
    requires stack != [] && Consistent(g, color, stack, cycles, seen, done, plain)
    requires AllSettled(cycles, plain, done, stack[|stack| - 1], Imports(g, stack[|stack| - 1]))
    ensures Consistent(g, color[stack[|stack| - 1] := Black], stack[..|stack| - 1], cycles, seen,
                       done + [stack[|stack| - 1]], plain)
  {
    hide Reported, Coloured, InFinishingOrder, AllSettled;
    PopColours(g, color, stack, done);
    FinishKeepsOrder(g, done, cycles, plain, stack[|stack| - 1]);
  }

  lemma PopColours(g: Graph, color: map<string, Color>, stack: seq<string>, done: seq<string>)
    requires stack != [] && Coloured(g, color, stack, done)
    ensures Coloured(g, color[stack[|stack| - 1] := Black], stack[..|stack| - 1], done + [stack[|stack| - 1]])
  {
    hide Imports;
    var node, rest := stack[|stack| - 1], stack[..|stack| - 1];
    assert node !in rest;
    assert forall n :: n in stack <==> n in rest || n == node;
  }

  lemma FinishKeepsOrder(g: Graph, done: seq<string>, cycles: seq<seq<string>>, plain: bool, node: string)
    requires InFinishingOrder(g, done, cycles, plain) && AllSettled(cycles, plain, done, node, Imports(g, node))
    ensures InFinishingOrder(g, done + [node], cycles, plain)
  {
    hide Imports, Settled;
    var more := done + [node];
    forall i, d | 0 <= i < |more| && d in Imports(g, more[i]) ensures Settled(cycles, plain, more[..i], more[i], d) {
      assert more[..i] == done[..i];
      assert done[..|done|] == done;
    }
  }

  lemma ChainIsClosed(g: Graph, color: map<string, Color>, stack: seq<string>, done: seq<string>, start: nat,
                      neighbor: string)
    requires Coloured(g, color, stack, done) && start < |stack| && stack[start] == neighbor
    requires neighbor in Imports(g, stack[|stack| - 1])
    ensures ClosedWalk(g, stack[start..] + [neighbor])
  {
    hide Imports;
    var c := stack[start..] + [neighbor];
    forall i | 0 <= i < |c| - 1 ensures c[i + 1] in Imports(g, c[i]) {
      assert c[i] == stack[start + i];
      assert i + 1 < |c| - 1 ==> c[i + 1] == stack[start + i + 1];
    }
  }

  lemma ReportKeeps(g: Graph, cycles: seq<seq<string>>, seen: set<string>, cycle: seq<string>)
    requires Reported(g, cycles, seen) && ClosedWalk(g, cycle)
    ensures Signature(Core(cycle)) !in seen ==> Reported(g, cycles + [cycle], seen + {Signature(Core(cycle))})
    ensures Signature(Core(cycle)) in seen ==> exists c :: c in cycles && Signature(Core(c)) == Signature(Core(cycle))
    ensures forall c :: c in cycles ==> ClosedWalk(g, c)
  {
    hide ClosedWalk, Core;
    var s := Signature(Core(cycle));
    if s !in seen {
      var more := cycles + [cycle];
      assert cycle in more;
      forall t | t in seen + {s} ensures exists c :: c in more && Signature(Core(c)) == t {
        if t != s {
          var c :| c in cycles && Signature(Core(c)) == t;
          assert c in more;
        }
      }
    }
  }

  // ---- the answer ----

  /** Along a walk over finished packages that keeps off the reports the finishing place only goes down. */
  lemma {:induction false} WalksGoDown(g: Graph, done: seq<string>, cycles: seq<seq<string>>, plain: bool,
                                       p: seq<string>)
    requires InFinishingOrder(g, done, cycles, plain) && IsWalk(g, p) && |p| > 1 && p[0] in done
    requires forall k :: 0 <= k < |p| - 1 ==> !Marked(cycles, plain, p[k], p[k + 1])
    ensures p[|p| - 1] in done && FirstIndex(done, p[|p| - 1]) < FirstIndex(done, p[0])
    decreases |p|
  {
    hide Imports, Marked;
    var i := FirstIndex(done, p[0]);
    assert p[1] in Imports(g, done[i]);
    assert Settled(cycles, plain, done[..i], done[i], p[1]);
    var j :| 0 <= j < i && done[..i][j] == p[1];
    assert done[j] == p[1] && FirstIndex(done, p[1]) <= j;
    if |p| > 2 {
      var rest := p[1..];
      forall k | 0 <= k < |rest| - 1 ensures !Marked(cycles, plain, rest[k], rest[k + 1]) {
        assert rest[k] == p[k + 1] && rest[k + 1] == p[k + 1 + 1];
      }
      WalksGoDown(g, done, cycles, plain, rest);
    }
  }

  /** Once every importing package is finished, each closed walk uses an import that is on a report. */
  lemma ClosedWalksAreMarked(g: Graph, done: seq<string>, cycles: seq<seq<string>>, plain: bool, c: seq<string>)
    requires InFinishingOrder(g, done, cycles, plain) && (forall n :: n in g ==> n in done) && ClosedWalk(g, c)
    ensures exists k :: 0 <= k < |c| - 1 && Marked(cycles, plain, c[k], c[k + 1])
  {
    hide InFinishingOrder, Marked;
    if forall k :: 0 <= k < |c| - 1 ==> !Marked(cycles, plain, c[k], c[k + 1]) {
      assert c[1] in Imports(g, c[0]);
      WalksGoDown(g, done, cycles, plain, c);
    }
  }

  /** Every package the graph mentions. */
  function Mentioned(g: Graph, packages: seq<string>): set<string> {
    (set n | n in packages) + set n, d | n in g && d in g[n] :: d
  }

  /** At least one chain is reported exactly when the imports have a cycle; every chain reported is
      one; no cycle is reported twice, however often and wherever the search entered it; and what
      the search drops are rotations only, so every cycle of the imports shares an import with a
      report (names being told apart once joined). The importing packages are among those listed,
      as the graph builder registers them. */
  method Circular(g: Graph, packages: seq<string>) returns (cycles: seq<seq<string>>)
    requires forall n :: n in g ==> n in packages
    ensures cycles != [] <==> exists c :: ClosedWalk(g, c)
    ensures forall c :: c in cycles ==> ClosedWalk(g, c)
    ensures forall i, j :: 0 <= i < j < |cycles| ==> !IsRotation(Core(cycles[i]), Core(cycles[j]))
    ensures PlainNames(Mentioned(g, packages)) ==>
              forall c :: ClosedWalk(g, c) ==> exists k :: 0 <= k < |c| - 1 && OnChain(cycles, c[k], c[k + 1])
  {
    hide Consistent, ClosedWalk, Core, PlainNames, OnChain, IsRotation;
    var s := new Search(g, Mentioned(g, packages));
    ghost var plain := PlainNames(Mentioned(g, packages));
    StartConsistent(g, plain);
    for i := 0 to |packages|
      invariant s.Valid() && s.stack == [] && s.graph == g && fresh(s)
      invariant s.names == Mentioned(g, packages)
      invariant forall k :: 0 <= k < i ==> packages[k] in s.done
    {
      ColourFacts(g, s.color, s.stack, s.cycles, s.seen, s.done, plain, packages[i]);
      if ColorOf(s.color, packages[i]).White? {
        s.Dfs(packages[i]);
      }
    }
    cycles := s.cycles;
    Answer(g, s.color, s.cycles, s.seen, s.done, plain);
  }

  lemma StartConsistent(g: Graph, plain: bool)
    ensures Consistent(g, map[], [], [], {}, [], plain)
  {
  }

  lemma Answer(g: Graph, color: map<string, Color>, cycles: seq<seq<string>>, seen: set<string>, done: seq<string>,
               plain: bool)
    requires Consistent(g, color, [], cycles, seen, done, plain) && forall n :: n in g ==> n in done
    ensures cycles != [] <==> exists c :: ClosedWalk(g, c)
    ensures forall c :: c in cycles ==> ClosedWalk(g, c)
    ensures forall i, j :: 0 <= i < j < |cycles| ==> !IsRotation(Core(cycles[i]), Core(cycles[j]))
    ensures plain ==> forall c :: ClosedWalk(g, c) ==> exists k :: 0 <= k < |c| - 1 && OnChain(cycles, c[k], c[k + 1])
  {
    hide Coloured, InFinishingOrder, ClosedWalk, Core, Signature, IsRotation, OnChain;
    forall c | ClosedWalk(g, c) ensures exists k :: 0 <= k < |c| - 1 && Marked(cycles, plain, c[k], c[k + 1]) {
      ClosedWalksAreMarked(g, done, cycles, plain, c);
    }
    NoReportNoMark(plain);
    if cycles != [] {
      assert cycles[0] in cycles;
    }
    forall i, j | 0 <= i < j < |cycles| ensures !IsRotation(Core(cycles[i]), Core(cycles[j])) {
      if IsRotation(Core(cycles[i]), Core(cycles[j])) {
        RotatedSignature(Core(cycles[i]), Core(cycles[j]), Signature(Core(cycles[i])));
        SignatureUnique(Core(cycles[j]), Signature(Core(cycles[i])), Signature(Core(cycles[j])));
      }
    }
  }

  lemma NoReportNoMark(plain: bool)
    ensures forall n, d :: !Marked([], plain, n, d)
  {
  }
}
