/** Discovery of a window's surfaces: the compositor's object graph, possibly cyclic, is
    walked once into a bounded flat list. */
module SurfaceTree {
  import opened Common
  import opened SurfaceModel
  import R = SurfaceRouting

  datatype Subsurface = Subsurface(zIndex: int, parent: Option<Surface>, surface: Option<Surface>, position: Point)

  datatype SurfaceState = SurfaceState(mapped: bool, good: bool, client: nat, size: Point, subs: seq<Option<Subsurface>>)

  /** The live surface objects; a reference to any other one is dead. */
  type Graph = map<Surface, SurfaceState>

  const MAX_SURFACES := 128
  const MAX_DEPTH := 32

  datatype Outcome<T> = Refused | Found(value: T)

  // ------------------------------------------- the unfolding, without counters

  predicate Shown(g: Graph, s: Option<Surface>) {
    s.Some? && s.value in g && g[s.value].mapped && g[s.value].good
  }

  /** The tree below one reference, read off the graph with no shared bookkeeping. */
  function Unfold(g: Graph, client: nat, child: Option<Surface>, pos: Point, kind: string,
                  parent: Option<Surface>, depth: nat): Outcome<Tree>
    requires depth <= MAX_DEPTH + 1
    decreases MAX_DEPTH + 1 - depth, 1, 0
  {
    if depth > MAX_DEPTH then Refused
    else if !Shown(g, child) then Found(Skipped)
    else
      var s := g[child.value];
      if s.client != client || s.size.x <= 0.0 || s.size.y <= 0.0 || |s.subs| > MAX_SURFACES then Refused
      else
        var below := UnfoldSubs(g, client, child.value, pos, s.subs, false, depth);
        var above := UnfoldSubs(g, client, child.value, pos, s.subs, true, depth);
        if below.Refused? || above.Refused? then Refused
        else Found(Tree(SurfaceNode(child.value, pos, s.size, kind, parent), below.value, above.value))
  }

  /** The trees of the subsurfaces on one side, in list order. */
  function UnfoldSubs(g: Graph, client: nat, owner: Surface, pos: Point, subs: seq<Option<Subsurface>>,
                      above: bool, depth: nat): Outcome<seq<Tree>>
    requires depth <= MAX_DEPTH
    decreases MAX_DEPTH + 1 - depth, 0, |subs|
  {
    if subs == [] then Found([])
    else
      var front := UnfoldSubs(g, client, owner, pos, subs[..|subs| - 1], above, depth);
      var sub := subs[|subs| - 1];
      if front.Refused? || sub == None || (sub.value.zIndex >= 0) != above then front
      else if sub.value.parent != Some(owner) then Refused
      else
        var tree := Unfold(g, client, sub.value.surface, Plus(pos, sub.value.position), "subsurface", Some(owner), depth + 1);
        if tree.Refused? then Refused else Found(front.value + [tree.value])
  }

  /** How many references a walk of the tree visits, dead and unmapped ones included. */
  function Visits(t: Tree): nat
    decreases t, 1
  {
    match t
    case Skipped => 1
    case Tree(_, below, above) => 1 + VisitsAll(below) + VisitsAll(above)
  }

  function VisitsAll(ts: seq<Tree>): nat
    decreases ts, 0
  {
    if ts == [] then 0 else VisitsAll(ts[..|ts| - 1]) + Visits(ts[|ts| - 1])
  }

  /** None of the surfaces was seen before, and none is there twice. */
  predicate New(nodes: seq<SurfaceNode>, seen: set<Surface>) {
    nodes != [] ==>
      var front, s := nodes[..|nodes| - 1], nodes[|nodes| - 1].surface;
      New(front, seen) && s !in seen && s !in Surfaces(front)
  }

  lemma DistinctSnoc(front: seq<SurfaceNode>, last: SurfaceNode)
    ensures Distinct(front + [last]) <==> Distinct(front) && last.surface !in Surfaces(front)
  {
    if Distinct(front + [last]) {
      DistinctParts(front, [last]);
      assert last in [last] && last.surface in Surfaces([last]);
    } else if Distinct(front) {
      var i, j :| 0 <= i < j < |front| + 1 && (front + [last])[i].surface == (front + [last])[j].surface;
      assert front[i].surface in Surfaces(front);
    }
  }

  lemma {:induction false} NewMeans(nodes: seq<SurfaceNode>, seen: set<Surface>)
    ensures New(nodes, seen) <==> Distinct(nodes) && Surfaces(nodes) !! seen
  {
    if nodes != [] {
      var front, last := nodes[..|nodes| - 1], nodes[|nodes| - 1];
      NewMeans(front, seen);
      R.SurfacesSnoc(nodes);
      DistinctSnoc(front, last);
      assert nodes == front + [last];
    }
  }

  lemma {:induction false} NewAppend(a: seq<SurfaceNode>, b: seq<SurfaceNode>, seen: set<Surface>)
    ensures New(a + b, seen) <==> New(a, seen) && New(b, seen + Surfaces(a))
    decreases |b|
  {
    if b == [] {
      assert a + b == a;
    } else {
      var front := b[..|b| - 1];
      assert (a + b)[..|a + b| - 1] == a + front;
      NewAppend(a, front, seen);
      SurfacesAppend(a, front);
    }
  }

  /** The nodes are new and the counter stays within the limit. */
  predicate Fits(nodes: seq<SurfaceNode>, seen: set<Surface>, visited: nat) {
    New(nodes, seen) && visited <= MAX_SURFACES
  }

  lemma FitsAppend(a: seq<SurfaceNode>, b: seq<SurfaceNode>, seen: set<Surface>, visited: nat, more: nat)
    ensures Fits(a + b, seen, visited + more) <==>
      Fits(a, seen, visited) && Fits(b, seen + Surfaces(a), visited + more)
  {
    NewAppend(a, b, seen);
  }

  lemma SurfacesOne(n: SurfaceNode)
    ensures Surfaces([n]) == {n.surface}
  {
    assert n in [n];
  }

  lemma SurfacesNode(below: seq<SurfaceNode>, n: SurfaceNode, above: seq<SurfaceNode>)
    ensures Surfaces(below + [n] + above) == Surfaces(below) + {n.surface} + Surfaces(above)
  {
    SurfacesOne(n);
    SurfacesAppend(below, [n]);
    SurfacesAppend(below + [n], above);
  }

  /** The order of the first two makes no difference. */
  lemma {:induction false} NewAfter(nodes: seq<SurfaceNode>, s: Surface, seen: set<Surface>)
    ensures New(nodes, seen) && s !in seen && s !in Surfaces(nodes) <==> New(nodes, seen + {s}) && s !in seen
  {
    if nodes != [] {
      NewAfter(nodes[..|nodes| - 1], s, seen);
      R.SurfacesSnoc(nodes);
    }
  }

  /** A surface is new with its children exactly when it is new and each side is after it. */
  lemma NewNode(below: seq<SurfaceNode>, n: SurfaceNode, above: seq<SurfaceNode>, seen: set<Surface>)
    ensures New(below + [n] + above, seen) <==>
      n.surface !in seen && New(below, seen + {n.surface}) && New(above, seen + {n.surface} + Surfaces(below))
  {
    SurfacesOne(n);
    SurfacesAppend(below, [n]);
    NewAppend(below + [n], above, seen);
    assert (below + [n])[..|below|] == below;
    NewAfter(below, n.surface, seen);
    assert seen + Surfaces(below + [n]) == seen + {n.surface} + Surfaces(below);
  }

  predicate TreeFits(t: Outcome<Tree>, seen: set<Surface>, visited: nat) {
    t.Found? && Fits(Flatten(t.value), seen, visited + Visits(t.value))
  }

  predicate TreesFit(ts: Outcome<seq<Tree>>, seen: set<Surface>, visited: nat) {
    ts.Found? && Fits(FlattenAll(ts.value), seen, visited + VisitsAll(ts.value))
  }

  /** What a surface demands by itself. */
  predicate Sound(s: SurfaceState, client: nat) {
    s.client == client && s.size.x > 0.0 && s.size.y > 0.0 && |s.subs| <= MAX_SURFACES
  }

  lemma TreeSurfaces(node: SurfaceNode, below: seq<Tree>, above: seq<Tree>)
    ensures Surfaces(Flatten(Tree(node, below, above))) ==
      Surfaces(FlattenAll(below)) + {node.surface} + Surfaces(FlattenAll(above))
  {
    SurfacesNode(FlattenAll(below), node, FlattenAll(above));
  }

  /** A tree fits exactly when its surface is new and each side fits after it. */
  lemma TreeFitsParts(node: SurfaceNode, below: seq<Tree>, above: seq<Tree>, seen: set<Surface>, visited: nat)
    ensures TreeFits(Found(Tree(node, below, above)), seen, visited) <==>
      && node.surface !in seen
      && TreesFit(Found(below), seen + {node.surface}, visited + 1)
      && TreesFit(Found(above), seen + {node.surface} + Surfaces(FlattenAll(below)), visited + 1 + VisitsAll(below))
  {
    NewNode(FlattenAll(below), node, FlattenAll(above), seen);
  }

  /** Whether a surface that shows fits with both its sides. */
  predicate NodeFits(s: SurfaceState, c: Surface, client: nat, below: Outcome<seq<Tree>>, above: Outcome<seq<Tree>>,
                     seen: set<Surface>, visited: nat) {
    && Sound(s, client) && c !in seen
    && TreesFit(below, seen + {c}, visited)
    && TreesFit(above, seen + {c} + Surfaces(FlattenAll(below.value)), visited + VisitsAll(below.value))
  }

  lemma NodeUnfolds(g: Graph, client: nat, c: Surface, pos: Point, kind: string, parent: Option<Surface>, depth: nat,
                    below: Outcome<seq<Tree>>, above: Outcome<seq<Tree>>)
    requires depth <= MAX_DEPTH && Shown(g, Some(c))
    requires below == UnfoldSubs(g, client, c, pos, g[c].subs, false, depth)
    requires above == UnfoldSubs(g, client, c, pos, g[c].subs, true, depth)
    ensures Unfold(g, client, Some(c), pos, kind, parent, depth) ==
      (if below.Found? && above.Found? && Sound(g[c], client)
       then Found(Tree(SurfaceNode(c, pos, g[c].size, kind, parent), below.value, above.value))
       else Refused)
  {
  }

  lemma NodeDecides(g: Graph, client: nat, c: Surface, pos: Point, kind: string, parent: Option<Surface>, depth: nat,
                    below: Outcome<seq<Tree>>, above: Outcome<seq<Tree>>, seen: set<Surface>, visited: nat)
    requires depth <= MAX_DEPTH && Shown(g, Some(c))
    requires below == UnfoldSubs(g, client, c, pos, g[c].subs, false, depth)
    requires above == UnfoldSubs(g, client, c, pos, g[c].subs, true, depth)
    ensures TreeFits(Unfold(g, client, Some(c), pos, kind, parent, depth), seen, visited)
      <==> NodeFits(g[c], c, client, below, above, seen, visited + 1)
    ensures below.Found? && above.Found? && Sound(g[c], client) ==>
      Unfold(g, client, Some(c), pos, kind, parent, depth)
        == Found(Tree(SurfaceNode(c, pos, g[c].size, kind, parent), below.value, above.value))
  {
    NodeUnfolds(g, client, c, pos, kind, parent, depth, below, above);
    if below.Found? && above.Found? {
      TreeFitsParts(SurfaceNode(c, pos, g[c].size, kind, parent), below.value, above.value, seen, visited);
    }
  }

  /** One more tree fits after the others, and what the longer list comes to. */
  lemma TreesMore(front: seq<Tree>, t: Tree, seen: set<Surface>, visited: nat)
    ensures TreesFit(Found(front + [t]), seen, visited) <==>
      TreesFit(Found(front), seen, visited) && TreeFits(Found(t), seen + Surfaces(FlattenAll(front)), visited + VisitsAll(front))
  {
    TreesMoreFlat(front, t);
    FitsAppend(FlattenAll(front), Flatten(t), seen, visited + VisitsAll(front), Visits(t));
  }

  lemma TreesMoreFlat(front: seq<Tree>, t: Tree)
    ensures FlattenAll(front + [t]) == FlattenAll(front) + Flatten(t)
    ensures VisitsAll(front + [t]) == VisitsAll(front) + Visits(t)
    ensures Surfaces(FlattenAll(front + [t])) == Surfaces(FlattenAll(front)) + Surfaces(Flatten(t))
  {
    assert (front + [t])[..|front|] == front;
    SurfacesAppend(FlattenAll(front), Flatten(t));
  }

  /** One more subsurface: skipped, refused, or its tree is added. */
  lemma SubUnfolds(g: Graph, client: nat, owner: Surface, pos: Point, subs: seq<Option<Subsurface>>, above: bool, depth: nat, i: nat)
    requires depth <= MAX_DEPTH && i < |subs| && UnfoldSubs(g, client, owner, pos, subs[..i], above, depth).Found?
    ensures var front := UnfoldSubs(g, client, owner, pos, subs[..i], above, depth).value;
      UnfoldSubs(g, client, owner, pos, subs[..i + 1], above, depth) ==
        if subs[i] == None || (subs[i].value.zIndex >= 0) != above then Found(front)
        else if subs[i].value.parent != Some(owner) then Refused
        else
          var t := Unfold(g, client, subs[i].value.surface, Plus(pos, subs[i].value.position), "subsurface", Some(owner), depth + 1);
          if t.Refused? then Refused else Found(front + [t.value])
  {
    assert subs[..i + 1][..i] == subs[..i];
  }

  /** Refusal or overflow on some of the subsurfaces is refusal or overflow on all of them. */
  lemma {:induction false} PrefixNeeded(g: Graph, client: nat, owner: Surface, pos: Point, subs: seq<Option<Subsurface>>,
                                        above: bool, depth: nat, i: nat, seen: set<Surface>, visited: nat)
    requires depth <= MAX_DEPTH && i <= |subs|
    requires !TreesFit(UnfoldSubs(g, client, owner, pos, subs[..i], above, depth), seen, visited)
    ensures !TreesFit(UnfoldSubs(g, client, owner, pos, subs, above, depth), seen, visited)
    decreases |subs|
  {
    if i == |subs| {
      assert subs[..i] == subs;
    } else {
      var front := subs[..|subs| - 1];
      assert front[..i] == subs[..i];
      PrefixNeeded(g, client, owner, pos, front, above, depth, i, seen, visited);
      var all, some := UnfoldSubs(g, client, owner, pos, subs, above, depth), UnfoldSubs(g, client, owner, pos, front, above, depth);
      if all.Found? && all != some {
        var last := all.value[|all.value| - 1];
        assert all.value == some.value + [last];
        TreesMore(some.value, last, seen, visited);
      }
    }
  }

  lemma Joined(nodes0: seq<SurfaceNode>, seen0: set<Surface>, front: seq<SurfaceNode>, last: seq<SurfaceNode>)
    ensures nodes0 + front + last == nodes0 + (front + last)
    ensures seen0 + Surfaces(front) + Surfaces(last) == seen0 + (Surfaces(front) + Surfaces(last))
  {
  }

  /** What a walk has gathered, and how far its shared counters are. */
  datatype Progress = Progress(nodes: seq<SurfaceNode>, visited: nat, seen: set<Surface>)

  /** The walk went on by exactly these trees, and they fit. */
  predicate Gained(from: Progress, to: Progress, ts: Outcome<seq<Tree>>) {
    && TreesFit(ts, from.seen, from.visited)
    && to == Progress(from.nodes + FlattenAll(ts.value), from.visited + VisitsAll(ts.value), from.seen + Surfaces(FlattenAll(ts.value)))
  }

  predicate GainedTree(from: Progress, to: Progress, t: Outcome<Tree>) {
    && TreeFits(t, from.seen, from.visited)
    && to == Progress(from.nodes + Flatten(t.value), from.visited + Visits(t.value), from.seen + Surfaces(Flatten(t.value)))
  }

  predicate GainedNode(from: Progress, to: Progress, n: SurfaceNode, below: seq<Tree>, above: seq<Tree>) {
    to == Progress(from.nodes + (FlattenAll(below) + [n] + FlattenAll(above)),
                   from.visited + VisitsAll(below) + VisitsAll(above),
                   from.seen + (Surfaces(FlattenAll(below)) + {n.surface} + Surfaces(FlattenAll(above))))
  }

  lemma NodeJoined(from: Progress, mid: Progress, to: Progress, n: SurfaceNode, below: seq<Tree>, above: seq<Tree>)
    requires Gained(from.(seen := from.seen + {n.surface}), mid, Found(below))
    requires Gained(mid.(nodes := mid.nodes + [n]), to, Found(above))
    ensures GainedNode(from, to, n, below, above)
  {
    var b, a := FlattenAll(below), FlattenAll(above);
    assert from.nodes + b + [n] + a == from.nodes + (b + [n] + a);
    assert from.seen + {n.surface} + Surfaces(b) + Surfaces(a) == from.seen + (Surfaces(b) + {n.surface} + Surfaces(a));
  }

  lemma TreeGained(from: Progress, mid: Progress, to: Progress, front: seq<Tree>, t: Tree)
    requires Gained(from, mid, Found(front)) && GainedTree(mid, to, Found(t))
    ensures Gained(from, to, Found(front + [t]))
  {
    TreesMore(front, t, from.seen, from.visited);
    TreesMoreFlat(front, t);
    Joined(from.nodes, from.seen, FlattenAll(front), Flatten(t));
  }

  lemma SubWalked(g: Graph, client: nat, owner: Surface, pos: Point, subs: seq<Option<Subsurface>>, above: bool, depth: nat,
                  i: nat, from: Progress, mid: Progress, to: Progress, ok: bool)
    requires depth <= MAX_DEPTH && i < |subs|
    requires subs[i].Some? && (subs[i].value.zIndex >= 0) == above && subs[i].value.parent == Some(owner)
    requires Gained(from, mid, UnfoldSubs(g, client, owner, pos, subs[..i], above, depth))
    requires var t := Unfold(g, client, subs[i].value.surface, Plus(pos, subs[i].value.position), "subsurface", Some(owner), depth + 1);
      ok == TreeFits(t, mid.seen, mid.visited) && (ok ==> GainedTree(mid, to, t))
    ensures var next := UnfoldSubs(g, client, owner, pos, subs[..i + 1], above, depth);
      ok == TreesFit(next, from.seen, from.visited) && (ok ==> Gained(from, to, next))
  {
    SubUnfolds(g, client, owner, pos, subs, above, depth, i);
    var front := UnfoldSubs(g, client, owner, pos, subs[..i], above, depth).value;
    var t := Unfold(g, client, subs[i].value.surface, Plus(pos, subs[i].value.position), "subsurface", Some(owner), depth + 1);
    if t.Found? {
      TreesMore(front, t.value, from.seen, from.visited);
      if ok { TreeGained(from, mid, to, front, t.value); }
    }
  }

  // ---------------------------------------------------------------- the walk

  class Walker {
    const graph: Graph
    const client: nat
    var nodes: seq<SurfaceNode>
    var visited: nat
    var seen: set<Surface>

    constructor (graph: Graph, client: nat)
      ensures this.graph == graph && this.client == client
      ensures View() == Progress([], 0, {})
    {
      this.graph, this.client := graph, client;
      nodes, visited, seen := [], 0, {};
    }

    function View(): Progress
      reads this
    {
      Progress(nodes, visited, seen)
    }

    /** Recursive walk with shared counters. It succeeds exactly when the unfolding does,
        meets no surface twice and stays within the limit, and then has appended the
        unfolding's flat list. */
    method Walk(child: Option<Surface>, pos: Point, kind: string, parent: Option<Surface>, depth: nat) returns (ok: bool)
      requires depth <= MAX_DEPTH + 1
      modifies this
      ensures ok == TreeFits(Unfold(graph, client, child, pos, kind, parent, depth), old(seen), old(visited))
      ensures ok ==> GainedTree(old(View()), View(), Unfold(graph, client, child, pos, kind, parent, depth))
      decreases MAX_DEPTH + 1 - depth, 2, 0
    {
      visited := visited + 1;
      if visited > MAX_SURFACES || depth > MAX_DEPTH {
        return false;
      }
      if child == None || child.value !in graph || !graph[child.value].mapped || !graph[child.value].good {
        assert Unfold(graph, client, child, pos, kind, parent, depth) == Found(Skipped);
        return true;
      }
      ghost var below := UnfoldSubs(graph, client, child.value, pos, graph[child.value].subs, false, depth);
      ghost var above := UnfoldSubs(graph, client, child.value, pos, graph[child.value].subs, true, depth);
      NodeDecides(graph, client, child.value, pos, kind, parent, depth, below, above, seen, visited - 1);
      if below.Found? && above.Found? {
        TreeSurfaces(SurfaceNode(child.value, pos, graph[child.value].size, kind, parent), below.value, above.value);
      }
      ok := Visit(child.value, pos, kind, parent, depth);
    }

    /** The part of the walk after a reference turned out to be a surface that shows. */
    method Visit(child: Surface, pos: Point, kind: string, parent: Option<Surface>, depth: nat) returns (ok: bool)
      requires depth <= MAX_DEPTH && 1 <= visited <= MAX_SURFACES && Shown(graph, Some(child))
      modifies this
      ensures var below := UnfoldSubs(graph, client, child, pos, graph[child].subs, false, depth);
        var above := UnfoldSubs(graph, client, child, pos, graph[child].subs, true, depth);
        && ok == NodeFits(graph[child], child, client, below, above, old(seen), old(visited))
        && (ok ==> GainedNode(old(View()), View(), SurfaceNode(child, pos, graph[child].size, kind, parent), below.value, above.value))
      decreases MAX_DEPTH + 1 - depth, 1, 1
    {
      var s := graph[child];
      if s.client != client { return false; }
      if child in seen { return false; }
      ghost var from := View();
      seen := seen + {child};
      if s.size.x <= 0.0 || s.size.y <= 0.0 { return false; }
      if |s.subs| > MAX_SURFACES { return false; }
      ok := Children(child, pos, s.subs, false, depth);
      if !ok { return false; }
      ghost var mid := View();
      nodes := nodes + [SurfaceNode(child, pos, s.size, kind, parent)];
      ok := Children(child, pos, s.subs, true, depth);
      if ok {
        NodeJoined(from, mid, View(), SurfaceNode(child, pos, s.size, kind, parent),
                   UnfoldSubs(graph, client, child, pos, s.subs, false, depth).value,
                   UnfoldSubs(graph, client, child, pos, s.subs, true, depth).value);
      }
    }

    method Children(owner: Surface, pos: Point, subs: seq<Option<Subsurface>>, above: bool, depth: nat) returns (ok: bool)
      requires depth <= MAX_DEPTH && visited <= MAX_SURFACES
      modifies this
      ensures ok == TreesFit(UnfoldSubs(graph, client, owner, pos, subs, above, depth), old(seen), old(visited))
      ensures ok ==> Gained(old(View()), View(), UnfoldSubs(graph, client, owner, pos, subs, above, depth))
      decreases MAX_DEPTH + 1 - depth, 1, 0
    {
      ghost var from := View();
      for i := 0 to |subs|
        invariant Gained(from, View(), UnfoldSubs(graph, client, owner, pos, subs[..i], above, depth))
      {
        ok := Child(owner, pos, subs, above, depth, i, from);
        if !ok {
          PrefixNeeded(graph, client, owner, pos, subs, above, depth, i + 1, from.seen, from.visited);
          return false;
        }
      }
      assert subs[..|subs|] == subs;
      return true;
    }

    /** The loop body: one subsurface reference of the list. */
    method Child(owner: Surface, pos: Point, subs: seq<Option<Subsurface>>, above: bool, depth: nat, i: nat, ghost from: Progress)
      returns (ok: bool)
      requires depth <= MAX_DEPTH && i < |subs|
      requires Gained(from, View(), UnfoldSubs(graph, client, owner, pos, subs[..i], above, depth))
      modifies this
      ensures ok == TreesFit(UnfoldSubs(graph, client, owner, pos, subs[..i + 1], above, depth), from.seen, from.visited)
      ensures ok ==> Gained(from, View(), UnfoldSubs(graph, client, owner, pos, subs[..i + 1], above, depth))
      decreases MAX_DEPTH + 1 - depth, 0, 0
    {
      var sub := subs[i];
      if sub == None || (sub.value.zIndex >= 0) != above {
        SubUnfolds(graph, client, owner, pos, subs, above, depth, i);
        return true;
      }
      if sub.value.parent != Some(owner) {
        SubUnfolds(graph, client, owner, pos, subs, above, depth, i);
        return false;
      }
      ghost var mid := View();
      ok := Walk(sub.value.surface, Plus(pos, sub.value.position), "subsurface", Some(owner), depth + 1);
      SubWalked(graph, client, owner, pos, subs, above, depth, i, from, mid, View(), ok);
    }
  }

  // ------------------------------------------------------- the whole window

  /** A popup as the breadth-first search meets it, with its shell surface if it has one. */
  datatype Popup = Popup(shown: bool, shell: Option<nat>, owner: Option<Surface>, surface: Surface, position: Point)

  /** Shell surfaces: whether each is mapped, and the parent of a popup. */
  datatype Shell = Shell(mapped: bool, parent: Option<nat>)

  /** The live shell surfaces, and the window's own; a reference to any other is dead. */
  datatype Shells = Shells(states: map<nat, Shell>, root: Option<nat>)

  const MAX_ANCESTRY := 32

  /** The shell `n` parents up, None once a reference is dead or there is no parent. */
  function Ancestor(shells: Shells, from: Option<nat>, n: nat): Option<nat>
    decreases n
  {
    if from == None || from.value !in shells.states then None
    else if n == 0 then from
    else Ancestor(shells, shells.states[from.value].parent, n - 1)
  }

  lemma {:induction false} AncestorLive(shells: Shells, from: Option<nat>, n: nat)
    ensures Ancestor(shells, from, n).Some? ==> Ancestor(shells, from, n).value in shells.states
    decreases n
  {
    if n > 0 && from.Some? && from.value in shells.states { AncestorLive(shells, shells.states[from.value].parent, n - 1); }
  }

  predicate MappedAt(shells: Shells, from: Option<nat>, n: nat) {
    var s := Ancestor(shells, from, n);
    s.Some? && s.value in shells.states && shells.states[s.value].mapped
  }

  /** The root is reached after `n` parents, at most 32, and everything on the way is mapped. */
  ghost predicate MappedUpTo(shells: Shells, from: Option<nat>, n: nat) {
    n <= MAX_ANCESTRY && Ancestor(shells, from, n) == shells.root && forall k: nat :: k <= n ==> MappedAt(shells, from, k)
  }

  ghost predicate MappedAncestry(shells: Shells, from: Option<nat>) {
    exists n: nat :: MappedUpTo(shells, from, n)
  }

  lemma {:induction false} AncestorStep(shells: Shells, from: Option<nat>, n: nat)
    requires Ancestor(shells, from, n).Some?
    ensures Ancestor(shells, from, n).value in shells.states
    ensures Ancestor(shells, from, n + 1) == Ancestor(shells, shells.states[Ancestor(shells, from, n).value].parent, 0)
    decreases n
  {
    if n > 0 { AncestorStep(shells, shells.states[from.value].parent, n - 1); }
  }

  /** Mapped shells from the popup to the root, at most 33, each the parent of the one before. */
  predicate MappedChain(shells: Shells, from: Option<nat>, chain: seq<nat>) {
    && 1 <= |chain| <= 33 && from == Some(chain[0]) && shells.root == Some(chain[|chain| - 1])
    && (forall i :: 0 <= i < |chain| ==> chain[i] in shells.states && shells.states[chain[i]].mapped)
    && forall i :: 0 < i < |chain| ==> shells.states[chain[i - 1]].parent == Some(chain[i])
  }

  lemma {:induction false} ChainAncestor(shells: Shells, from: Option<nat>, chain: seq<nat>, n: nat)
    requires MappedChain(shells, from, chain) && n < |chain|
    ensures Ancestor(shells, from, n) == Some(chain[n])
  {
    if n > 0 {
      ChainAncestor(shells, from, chain, n - 1);
      AncestorStep(shells, from, n - 1);
    }
  }

  lemma {:induction false} ChainOf(shells: Shells, from: Option<nat>, n: nat) returns (chain: seq<nat>)
    requires forall k: nat :: k <= n ==> MappedAt(shells, from, k)
    ensures |chain| == n + 1 && from == Some(chain[0]) && Ancestor(shells, from, n) == Some(chain[n])
    ensures forall i :: 0 <= i < |chain| ==> chain[i] in shells.states && shells.states[chain[i]].mapped
    ensures forall i :: 0 < i < |chain| ==> shells.states[chain[i - 1]].parent == Some(chain[i])
  {
    assert MappedAt(shells, from, n);
    if n == 0 {
      chain := [from.value];
    } else {
      chain := ChainOf(shells, from, n - 1);
      AncestorStep(shells, from, n - 1);
      chain := chain + [Ancestor(shells, from, n).value];
    }
  }

  lemma AncestryIsChain(shells: Shells, from: Option<nat>)
    ensures MappedAncestry(shells, from) <==> exists chain :: MappedChain(shells, from, chain)
  {
    if MappedAncestry(shells, from) {
      var n: nat :| MappedUpTo(shells, from, n);
      var chain := ChainOf(shells, from, n);
      assert MappedChain(shells, from, chain);
    }
    if chain :| MappedChain(shells, from, chain) {
      var n: nat := |chain| - 1;
      forall k: nat | k <= n ensures MappedAt(shells, from, k) && Ancestor(shells, from, k) == Some(chain[k]) {
        ChainAncestor(shells, from, chain, k);
      }
      assert MappedUpTo(shells, from, n);
    }
  }

  /** Whether a popup takes part: the parent walk is bounded, so cycles do no harm. */
  method MappedPopupAncestry(shells: Shells, from: Option<nat>) returns (yes: bool)
    ensures yes == MappedAncestry(shells, from)
    ensures yes <==> exists chain :: MappedChain(shells, from, chain)
  {
    AncestryIsChain(shells, from);
    var at := if from.Some? && from.value in shells.states then from else None;
    var depth := 0;
    while at.Some? && depth <= MAX_ANCESTRY
      invariant depth <= MAX_ANCESTRY + 1
      invariant at == Ancestor(shells, from, depth)
      invariant forall k: nat :: k < depth ==> MappedAt(shells, from, k) && Ancestor(shells, from, k) != shells.root
    {
      AncestorStep(shells, from, depth);
      if !shells.states[at.value].mapped {
        assert !MappedAt(shells, from, depth);
        return false;
      }
      assert MappedAt(shells, from, depth);
      if at == shells.root {
        assert MappedUpTo(shells, from, depth);
        return true;
      }
      var parent := shells.states[at.value].parent;
      at := if parent.Some? && parent.value in shells.states then parent else None;
      depth := depth + 1;
    }
    if depth <= MAX_ANCESTRY { assert !MappedAt(shells, from, depth); }
    return false;
  }

  const ORIGIN := Point(0.0, 0.0)

  ghost predicate TakesPart(shells: Shells, p: Popup) {
    p.shown && MappedAncestry(shells, p.shell)
  }

  /** The toplevel's tree and the tree of every popup that takes part, in search order. */
  ghost function WindowForest(g: Graph, root: Surface, shells: Shells, popups: seq<Popup>): Outcome<seq<Tree>>
    requires root in g
  {
    if popups == [] then
      var t := Unfold(g, g[root].client, Some(root), ORIGIN, "toplevel", None, 0);
      if t.Refused? || t.value.Skipped? then Refused else Found([t.value])
    else
      var front := WindowForest(g, root, shells, popups[..|popups| - 1]);
      var p := popups[|popups| - 1];
      if front.Refused? || !TakesPart(shells, p) then front
      else if p.owner != Some(root) then Refused
      else
        var t := Unfold(g, g[root].client, Some(p.surface), p.position, "popup", None, 0);
        if t.Refused? then Refused else Found(front.value + [t.value])
  }

  /** One more popup: skipped, refused, or its tree is added. */
  lemma ForestUnfolds(g: Graph, root: Surface, shells: Shells, popups: seq<Popup>, i: nat)
    requires root in g && i < |popups| && WindowForest(g, root, shells, popups[..i]).Found?
    ensures var front := WindowForest(g, root, shells, popups[..i]).value;
      WindowForest(g, root, shells, popups[..i + 1]) ==
        if !TakesPart(shells, popups[i]) then Found(front)
        else if popups[i].owner != Some(root) then Refused
        else
          var t := Unfold(g, g[root].client, Some(popups[i].surface), popups[i].position, "popup", None, 0);
          if t.Refused? then Refused else Found(front + [t.value])
  {
    assert popups[..i + 1][..i] == popups[..i];
  }

  lemma {:induction false} PopupsNeeded(g: Graph, root: Surface, shells: Shells, popups: seq<Popup>, i: nat)
    requires root in g && i <= |popups|
    requires !TreesFit(WindowForest(g, root, shells, popups[..i]), {}, 0)
    ensures !TreesFit(WindowForest(g, root, shells, popups), {}, 0)
    decreases |popups|
  {
    if i == |popups| {
      assert popups[..i] == popups;
    } else {
      var front := popups[..|popups| - 1];
      assert front[..i] == popups[..i];
      PopupsNeeded(g, root, shells, front, i);
      var all, some := WindowForest(g, root, shells, popups), WindowForest(g, root, shells, front);
      if all.Found? && all != some {
        var last := all.value[|all.value| - 1];
        assert all.value == some.value + [last];
        TreesMore(some.value, last, {}, 0);
      }
    }
  }

  const START := Progress([], 0, {})

  lemma OneTree(t: Tree)
    ensures FlattenAll([t]) == Flatten(t) && VisitsAll([t]) == Visits(t)
  {
    assert [t][..0] == [];
  }

  method AddRoot(walker: Walker, root: Surface, ghost shells: Shells) returns (ok: bool)
    requires root in walker.graph && walker.client == walker.graph[root].client && walker.View() == START
    modifies walker
    ensures ok == TreesFit(WindowForest(walker.graph, root, shells, []), {}, 0)
    ensures ok ==> Gained(START, walker.View(), WindowForest(walker.graph, root, shells, []))
  {
    ghost var t := Unfold(walker.graph, walker.client, Some(root), ORIGIN, "toplevel", None, 0);
    if t.Found? {
      OneTree(t.value);
    }
    ok := walker.Walk(Some(root), ORIGIN, "toplevel", None, 0);
    if ok && (!walker.graph[root].mapped || !walker.graph[root].good) {
      ok := false; // the root itself was skipped
    }
  }

  method AddPopup(walker: Walker, root: Surface, shells: Shells, popups: seq<Popup>, i: nat) returns (ok: bool)
    requires root in walker.graph && walker.client == walker.graph[root].client && i < |popups|
    requires Gained(START, walker.View(), WindowForest(walker.graph, root, shells, popups[..i]))
    modifies walker
    ensures ok == TreesFit(WindowForest(walker.graph, root, shells, popups[..i + 1]), {}, 0)
    ensures ok ==> Gained(START, walker.View(), WindowForest(walker.graph, root, shells, popups[..i + 1]))
  {
    ForestUnfolds(walker.graph, root, shells, popups, i);
    var p := popups[i];
    if !p.shown {
      return true;
    }
    var mapped := MappedPopupAncestry(shells, p.shell);
    if !mapped {
      return true;
    }
    if p.owner != Some(root) {
      return false;
    }
    ghost var front := WindowForest(walker.graph, root, shells, popups[..i]).value;
    ghost var t := Unfold(walker.graph, walker.client, Some(p.surface), p.position, "popup", None, 0);
    ghost var mid := walker.View();
    if t.Found? { TreesMore(front, t.value, {}, 0); }
    ok := walker.Walk(Some(p.surface), p.position, "popup", None, 0);
    if ok { TreeGained(START, mid, walker.View(), front, t.value); }
  }

  /** Discovery succeeds exactly when the window's forest unfolds, with every surface once
      and at most 128 references visited; it then returns the forest's flat list. */
  method WindowSurfaceTree(g: Graph, root: Option<Surface>, shells: Shells, popups: seq<Popup>) returns (nodes: Outcome<seq<SurfaceNode>>)
    ensures nodes.Found? <==>
      && root.Some? && root.value in g && |popups| <= MAX_SURFACES
      && TreesFit(WindowForest(g, root.value, shells, popups), {}, 0)
    ensures nodes.Found? ==> nodes.value == FlattenAll(WindowForest(g, root.value, shells, popups).value)
  {
    if root == None || root.value !in g {
      return Refused;
    }
    var walker := new Walker(g, g[root.value].client);
    var ok := AddRoot(walker, root.value, shells);
    assert popups[..0] == [];
    if !ok {
      PopupsNeeded(g, root.value, shells, popups, 0);
      return Refused;
    }
    for i := 0 to |popups|
      invariant i <= MAX_SURFACES
      invariant Gained(START, walker.View(), WindowForest(g, root.value, shells, popups[..i]))
    {
      if i + 1 > MAX_SURFACES {
        return Refused;
      }
      ok := AddPopup(walker, root.value, shells, popups, i);
      if !ok {
        PopupsNeeded(g, root.value, shells, popups, i + 1);
        return Refused;
      }
    }
    assert popups[..|popups|] == popups;
    return Found(walker.nodes);
  }

  /** The node of the selected surface, if its geometry is still as the caller saw it. */
  method SelectWindowSurface(nodes: seq<SurfaceNode>, root: Option<Surface>, named: bool, resolved: Option<Surface>,
                             revision: Option<(Point, Point)>) returns (selected: Outcome<SurfaceNode>)
    requires Distinct(nodes)
    ensures var want := if named then resolved else root;
      selected.Found? <==>
        && (named || revision == None)
        && exists n :: n in nodes && Some(n.surface) == want && (named ==> revision == Some((n.offset, n.size)))
    ensures selected.Found? ==>
      selected.value in nodes && Some(selected.value.surface) == (if named then resolved else root)
  {
    if !named && revision.Some? {
      return Refused;
    }
    var want := if named then resolved else root;
    for i := 0 to |nodes|
      invariant forall j :: 0 <= j < i ==> Some(nodes[j].surface) != want
    {
      if Some(nodes[i].surface) == want {
        if named && revision != Some((nodes[i].offset, nodes[i].size)) {
          return Refused;
        }
        return Found(nodes[i]);
      }
    }
    return Refused;
  }

  // ------------------------------------------------- what the walk can emit

  lemma {:induction false} UnfoldRooted(g: Graph, client: nat, child: Option<Surface>, pos: Point, kind: string,
                                        parent: Option<Surface>, depth: nat)
    requires depth <= MAX_DEPTH + 1 && Unfold(g, client, child, pos, kind, parent, depth).Found?
    ensures Rooted(Unfold(g, client, child, pos, kind, parent, depth).value, parent)
    decreases MAX_DEPTH + 1 - depth, 1, 0
  {
    if Shown(g, child) {
      UnfoldSubsRooted(g, client, child.value, pos, g[child.value].subs, false, depth);
      UnfoldSubsRooted(g, client, child.value, pos, g[child.value].subs, true, depth);
    }
  }

  lemma {:induction false} UnfoldSubsRooted(g: Graph, client: nat, owner: Surface, pos: Point, subs: seq<Option<Subsurface>>,
                                            above: bool, depth: nat)
    requires depth <= MAX_DEPTH && UnfoldSubs(g, client, owner, pos, subs, above, depth).Found?
    ensures RootedAll(UnfoldSubs(g, client, owner, pos, subs, above, depth).value, Some(owner))
    decreases MAX_DEPTH + 1 - depth, 0, |subs|
  {
    if subs != [] {
      var front := UnfoldSubs(g, client, owner, pos, subs[..|subs| - 1], above, depth);
      var sub := subs[|subs| - 1];
      UnfoldSubsRooted(g, client, owner, pos, subs[..|subs| - 1], above, depth);
      if sub.Some? && (sub.value.zIndex >= 0) == above {
        UnfoldRooted(g, client, sub.value.surface, Plus(pos, sub.value.position), "subsurface", Some(owner), depth + 1);
        var ts := UnfoldSubs(g, client, owner, pos, subs, above, depth).value;
        assert ts[..|ts| - 1] == front.value;
      }
    }
  }

  lemma {:induction false} ForestRooted(g: Graph, root: Surface, shells: Shells, popups: seq<Popup>)
    requires root in g && WindowForest(g, root, shells, popups).Found?
    ensures RootedAll(WindowForest(g, root, shells, popups).value, None)
  {
    var ts := WindowForest(g, root, shells, popups).value;
    if popups == [] {
      UnfoldRooted(g, g[root].client, Some(root), ORIGIN, "toplevel", None, 0);
    } else {
      ForestRooted(g, root, shells, popups[..|popups| - 1]);
      var front := WindowForest(g, root, shells, popups[..|popups| - 1]).value;
      var p := popups[|popups| - 1];
      if TakesPart(shells, p) {
        UnfoldRooted(g, g[root].client, Some(p.surface), p.position, "popup", None, 0);
        assert ts[..|ts| - 1] == front;
      }
    }
  }

  lemma {:induction false} NodesWithinVisits(t: Tree)
    ensures |Flatten(t)| <= Visits(t)
    decreases t, 1
  {
    if t.Tree? {
      NodesWithinVisitsAll(t.below);
      NodesWithinVisitsAll(t.above);
    }
  }

  lemma {:induction false} NodesWithinVisitsAll(ts: seq<Tree>)
    ensures |FlattenAll(ts)| <= VisitsAll(ts)
    decreases ts, 0
  {
    if ts != [] {
      NodesWithinVisitsAll(ts[..|ts| - 1]);
      NodesWithinVisits(ts[|ts| - 1]);
    }
  }

  /** Following parents from `from` runs out: the chain is finite, without a cycle. */
  ghost predicate RunsOut(nodes: seq<SurfaceNode>, from: Surface) {
    exists n: nat :: R.Follow(nodes, Some(from), n) == None
  }

  lemma ReachesRunsOut(nodes: seq<SurfaceNode>, from: Surface, last: SurfaceNode)
    requires R.Reaches(nodes, Some(from), last.surface) && Distinct(nodes) && last in nodes && last.parent == None
    ensures RunsOut(nodes, from)
  {
    var n: nat :| R.Follow(nodes, Some(from), n) == Some(last.surface);
    R.UpDistinct(nodes, last);
    R.FollowAdd(nodes, Some(from), n, 1);
    assert R.Follow(nodes, Some(last.surface), 1) == R.Follow(nodes, None, 0);
    assert R.Follow(nodes, Some(from), n + 1) == None;
  }

  lemma {:induction false} ChainEnds(nodes: seq<SurfaceNode>, forest: seq<Tree>, n: SurfaceNode)
    requires RootedAll(forest, None) && Distinct(nodes) && n in FlattenAll(forest)
    requires forall m :: m in FlattenAll(forest) ==> m in nodes
    ensures RunsOut(nodes, n.surface)
    decreases |forest|
  {
    var front, last := forest[..|forest| - 1], forest[|forest| - 1];
    if n in FlattenAll(front) {
      ChainEnds(nodes, front, n);
    } else {
      R.InsideReaches(nodes, last, None, n);
      assert last.node in Flatten(last);
      ReachesRunsOut(nodes, n.surface, last.node);
    }
  }

  /** The compositor says that `n` hangs from `owner` at `pos`, on this side of it. */
  predicate Hung(g: Graph, owner: Surface, pos: Point, n: SurfaceNode, j: nat, above: bool) {
    && owner in g && j < |g[owner].subs| && g[owner].subs[j].Some? && n.parent == Some(owner)
    && var sub := g[owner].subs[j].value;
       && sub.surface == Some(n.surface) && sub.parent == Some(owner)
       && n.offset == Plus(pos, sub.position)
       && (sub.zIndex >= 0) == above
  }

  ghost predicate HungSomewhere(g: Graph, owner: Surface, pos: Point, n: SurfaceNode, above: bool) {
    exists j: nat :: Hung(g, owner, pos, n, j, above)
  }

  /** How node `i` of the flat list hangs from node `k`: the compositor's subsurface gives
      the offset between them, and its stacking sign gives their order. */
  ghost predicate Placed(g: Graph, nodes: seq<SurfaceNode>, i: nat, k: nat) {
    && i < |nodes| && k < |nodes| && i != k
    && HungSomewhere(g, nodes[k].surface, nodes[k].offset, nodes[i], k < i)
  }

  ghost predicate HasPlace(g: Graph, nodes: seq<SurfaceNode>, i: nat) {
    exists k: nat :: Placed(g, nodes, i, k)
  }

  lemma PlacedInside(g: Graph, pre: seq<SurfaceNode>, mid: seq<SurfaceNode>, post: seq<SurfaceNode>, i: nat)
    requires HasPlace(g, mid, i)
    ensures HasPlace(g, pre + mid + post, |pre| + i)
  {
    var k: nat :| Placed(g, mid, i, k);
    var nodes := pre + mid + post;
    assert nodes[|pre| + i] == mid[i] && nodes[|pre| + k] == mid[k];
    assert Placed(g, nodes, |pre| + i, |pre| + k);
  }

  lemma PlacedFirst(g: Graph, a: seq<SurfaceNode>, b: seq<SurfaceNode>, i: nat)
    requires HasPlace(g, a, i)
    ensures HasPlace(g, a + b, i)
  {
    PlacedInside(g, [], a, b, i);
    assert [] + a + b == a + b;
  }

  lemma PlacedSecond(g: Graph, a: seq<SurfaceNode>, b: seq<SurfaceNode>, i: nat)
    requires HasPlace(g, b, i)
    ensures HasPlace(g, a + b, |a| + i)
  {
    PlacedInside(g, a, b, [], i);
    assert a + b + [] == a + b;
  }

  lemma {:induction false} TreePlaced(g: Graph, client: nat, child: Option<Surface>, pos: Point, kind: string,
                                      parent: Option<Surface>, depth: nat, i: nat)
    requires depth <= MAX_DEPTH + 1 && Unfold(g, client, child, pos, kind, parent, depth).Found?
    requires i < |Flatten(Unfold(g, client, child, pos, kind, parent, depth).value)|
    ensures var t := Unfold(g, client, child, pos, kind, parent, depth).value;
      HasPlace(g, Flatten(t), i) || Flatten(t)[i] == t.node
    decreases MAX_DEPTH + 1 - depth, 1, 0
  {
    var t := Unfold(g, client, child, pos, kind, parent, depth).value;
    var owner := child.value;
    var below, above := FlattenAll(t.below), FlattenAll(t.above);
    var nodes := below + [t.node] + above;
    if i < |below| {
      SubsPlaced(g, client, owner, pos, g[owner].subs, false, depth, i);
      if HasPlace(g, below, i) {
        PlacedFirst(g, below, [t.node] + above, i);
        assert below + ([t.node] + above) == nodes;
      } else {
        assert Placed(g, nodes, i, |below|);
      }
    } else if i > |below| {
      var m := i - |below| - 1;
      SubsPlaced(g, client, owner, pos, g[owner].subs, true, depth, m);
      if HasPlace(g, above, m) {
        PlacedSecond(g, below + [t.node], above, m);
      } else {
        assert Placed(g, nodes, i, |below|);
      }
    }
  }

  lemma {:induction false} SubsPlaced(g: Graph, client: nat, owner: Surface, pos: Point, subs: seq<Option<Subsurface>>,
                                      above: bool, depth: nat, i: nat)
    requires depth <= MAX_DEPTH && owner in g && subs <= g[owner].subs
    requires UnfoldSubs(g, client, owner, pos, subs, above, depth).Found?
    requires i < |FlattenAll(UnfoldSubs(g, client, owner, pos, subs, above, depth).value)|
    ensures var nodes := FlattenAll(UnfoldSubs(g, client, owner, pos, subs, above, depth).value);
      HasPlace(g, nodes, i) || HungSomewhere(g, owner, pos, nodes[i], above)
    decreases MAX_DEPTH + 1 - depth, 0, |subs|
  {
    var ts := UnfoldSubs(g, client, owner, pos, subs, above, depth).value;
    var front := UnfoldSubs(g, client, owner, pos, subs[..|subs| - 1], above, depth).value;
    var sub := subs[|subs| - 1];
    if sub == None || (sub.value.zIndex >= 0) != above {
      SubsPlaced(g, client, owner, pos, subs[..|subs| - 1], above, depth, i);
    } else {
      var t := Unfold(g, client, sub.value.surface, Plus(pos, sub.value.position), "subsurface", Some(owner), depth + 1).value;
      assert ts[..|ts| - 1] == front;
      var before, last := FlattenAll(front), Flatten(t);
      if i < |before| {
        SubsPlaced(g, client, owner, pos, subs[..|subs| - 1], above, depth, i);
        if HasPlace(g, before, i) { PlacedFirst(g, before, last, i); }
      } else {
        TreePlaced(g, client, sub.value.surface, Plus(pos, sub.value.position), "subsurface", Some(owner), depth + 1, i - |before|);
        if HasPlace(g, last, i - |before|) {
          PlacedSecond(g, before, last, i - |before|);
        } else {
          assert Hung(g, owner, pos, t.node, |subs| - 1, above);
        }
      }
    }
  }

  /** A base of the window: the toplevel at the origin, or a popup at its own position. */
  predicate IsBase(root: Surface, popups: seq<Popup>, n: SurfaceNode) {
    && n.parent == None
    && ((n.surface == root && n.offset == ORIGIN)
        || (exists p :: p in popups && p.surface == n.surface && p.position == n.offset && p.owner == Some(root)))
  }

  lemma {:induction false} ForestPlaced(g: Graph, root: Surface, shells: Shells, popups: seq<Popup>, i: nat)
    requires root in g && WindowForest(g, root, shells, popups).Found?
    requires i < |FlattenAll(WindowForest(g, root, shells, popups).value)|
    ensures var nodes := FlattenAll(WindowForest(g, root, shells, popups).value);
      HasPlace(g, nodes, i) || IsBase(root, popups, nodes[i])
  {
    var ts := WindowForest(g, root, shells, popups).value;
    if popups == [] {
      assert ts[..0] == [];
      TreePlaced(g, g[root].client, Some(root), ORIGIN, "toplevel", None, 0, i);
      assert FlattenAll(ts) == Flatten(ts[0]);
    } else {
      var rest := popups[..|popups| - 1];
      var front := WindowForest(g, root, shells, rest).value;
      var p := popups[|popups| - 1];
      if !TakesPart(shells, p) {
        ForestPlaced(g, root, shells, rest, i);
      } else {
        var t := Unfold(g, g[root].client, Some(p.surface), p.position, "popup", None, 0).value;
        assert ts[..|ts| - 1] == front;
        var before, last := FlattenAll(front), Flatten(t);
        if i < |before| {
          ForestPlaced(g, root, shells, rest, i);
          if HasPlace(g, before, i) { PlacedFirst(g, before, last, i); }
        } else {
          TreePlaced(g, g[root].client, Some(p.surface), p.position, "popup", None, 0, i - |before|);
          if HasPlace(g, last, i - |before|) { PlacedSecond(g, before, last, i - |before|); }
          assert p in popups;
        }
      }
    }
  }

  /** A list the walk returns has at most 128 surfaces, none twice; every parent is in the
      list, and following parents from anywhere runs out; and every node either is a base
      or hangs, at the compositor's offset and on the compositor's side, from another. */
  lemma EmittedListSound(g: Graph, root: Surface, shells: Shells, popups: seq<Popup>)
    requires root in g && TreesFit(WindowForest(g, root, shells, popups), {}, 0)
    ensures var nodes := FlattenAll(WindowForest(g, root, shells, popups).value);
      && |nodes| <= MAX_SURFACES && Distinct(nodes)
      && (forall n :: n in nodes ==> n.parent == None || n.parent.value in Surfaces(nodes))
      && (forall n :: n in nodes ==> RunsOut(nodes, n.surface))
      && (forall i: nat {:trigger HasPlace(g, nodes, i)} :: i < |nodes| ==> HasPlace(g, nodes, i) || IsBase(root, popups, nodes[i]))
  {
    var forest := WindowForest(g, root, shells, popups).value;
    var nodes := FlattenAll(forest);
    ForestRooted(g, root, shells, popups);
    NodesWithinVisitsAll(forest);
    NewMeans(nodes, {});
    forall n | n in nodes ensures n.parent == None || n.parent.value in Surfaces(nodes) {
      ParentLocalAny(forest, None, n);
    }
    forall n | n in nodes ensures RunsOut(nodes, n.surface) {
      ChainEnds(nodes, forest, n);
    }
    forall i: nat | i < |nodes| ensures HasPlace(g, nodes, i) || IsBase(root, popups, nodes[i]) {
      ForestPlaced(g, root, shells, popups, i);
    }
  }

  lemma {:induction false} NodeTree(t: Tree, n: SurfaceNode) returns (inner: Tree)
    requires n in Flatten(t)
    ensures inner.Tree? && inner.node == n && Within(inner, t)
    decreases t, 1
  {
    if n == t.node {
      inner := t;
    } else if n in FlattenAll(t.below) {
      inner := NodeTreeAny(t.below, n);
    } else {
      inner := NodeTreeAny(t.above, n);
    }
  }

  lemma {:induction false} NodeTreeAny(ts: seq<Tree>, n: SurfaceNode) returns (inner: Tree)
    requires n in FlattenAll(ts)
    ensures inner.Tree? && inner.node == n && WithinAny(inner, ts)
    decreases ts, 0
  {
    if n in FlattenAll(ts[..|ts| - 1]) {
      inner := NodeTreeAny(ts[..|ts| - 1], n);
    } else {
      inner := NodeTree(ts[|ts| - 1], n);
    }
  }

  /** Discovery, selection and hit testing together: whatever node of a discovered window
      is selected, the backward scan of the flat list answers as the traversal of the tree
      that hangs from that node. */
  lemma SelectedHit(g: Graph, root: Surface, shells: Shells, popups: seq<Popup>, n: SurfaceNode, point: Point, accepts: (Surface, Point) -> bool)
    returns (t: Tree)
    requires root in g && TreesFit(WindowForest(g, root, shells, popups), {}, 0)
    requires n in FlattenAll(WindowForest(g, root, shells, popups).value)
    ensures var forest := WindowForest(g, root, shells, popups).value;
      && t.Tree? && t.node == n && WithinAny(t, forest)
      && R.HitFiltered(FlattenAll(forest), FlattenAll(forest), n, point, accepts) == R.HitTree(t, n, point, accepts)
  {
    var forest := WindowForest(g, root, shells, popups).value;
    ForestRooted(g, root, shells, popups);
    NewMeans(FlattenAll(forest), {});
    t := NodeTreeAny(forest, n);
    R.FlatScanRefinesTraversal(forest, t, point, accepts);
  }
}
