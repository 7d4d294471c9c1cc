/** Routing input inside a surface tree: the bounded ancestor walk and hit testing on the
    flat list, proved against parent chains and against the recursive tree traversal. */
module SurfaceRouting {
  import opened Common
  import opened SurfaceModel

  predicate PointInside(p: Point, size: Point) {
    0.0 <= p.x < size.x && 0.0 <= p.y < size.y
  }

  predicate TreeContains(nodes: seq<SurfaceNode>, s: Option<Surface>) {
    s.Some? && s.value in Surfaces(nodes)
  }

  // ---------------------------------------------------------- parent chains

  /** The parent of the first node listed for `s`, if there is one. */
  function Up(nodes: seq<SurfaceNode>, s: Surface): Option<Surface> {
    if nodes == [] then None
    else if nodes[0].surface == s then nodes[0].parent
    else Up(nodes[1..], s)
  }

  function Follow(nodes: seq<SurfaceNode>, from: Option<Surface>, n: nat): Option<Surface>
    decreases n
  {
    if n == 0 || from == None then from else Follow(nodes, Up(nodes, from.value), n - 1)
  }

  /** Following parents from `from` arrives at `to`, in any number of steps. */
  ghost predicate Reaches(nodes: seq<SurfaceNode>, from: Option<Surface>, to: Surface) {
    exists n: nat :: Follow(nodes, from, n) == Some(to)
  }

  lemma {:induction false} FollowAdd(nodes: seq<SurfaceNode>, from: Option<Surface>, a: nat, b: nat)
    ensures Follow(nodes, from, a + b) == Follow(nodes, Follow(nodes, from, a), b)
    decreases a
  {
    if a > 0 && from.Some? { FollowAdd(nodes, Up(nodes, from.value), a - 1, b); }
  }

  lemma {:induction false} UpListed(nodes: seq<SurfaceNode>, s: Surface)
    ensures Up(nodes, s).Some? ==> s in Surfaces(nodes)
  {
    if nodes != [] && nodes[0].surface == s {
      assert nodes[0] in nodes;
    } else if nodes != [] {
      UpListed(nodes[1..], s);
      if Up(nodes, s).Some? {
        var n :| n in nodes[1..] && n.surface == s;
        assert n in nodes;
      }
    }
  }

  /** The surfaces met in the first `n` steps. */
  function Met(nodes: seq<SurfaceNode>, from: Option<Surface>, n: nat): set<Option<Surface>> {
    if n == 0 then {} else Met(nodes, from, n - 1) + {Follow(nodes, from, n - 1)}
  }

  ghost predicate MetWithin(nodes: seq<SurfaceNode>, from: Option<Surface>, n: nat, s: Option<Surface>) {
    exists k: nat :: k < n && Follow(nodes, from, k) == s
  }

  lemma {:induction false} MetMember(nodes: seq<SurfaceNode>, from: Option<Surface>, n: nat, s: Option<Surface>)
    ensures s in Met(nodes, from, n) <==> MetWithin(nodes, from, n, s)
  {
    if n > 0 {
      MetMember(nodes, from, n - 1, s);
      if s in Met(nodes, from, n) && s !in Met(nodes, from, n - 1) {
        assert Follow(nodes, from, n - 1) == s;
      }
    }
  }

  /** Up to the first arrival no surface is met twice. */
  lemma {:induction false} MetDistinct(nodes: seq<SurfaceNode>, from: Option<Surface>, to: Surface, first: nat, n: nat)
    requires n <= first && Follow(nodes, from, first) == Some(to)
    requires forall k: nat :: k < first ==> Follow(nodes, from, k) != Some(to)
    ensures |Met(nodes, from, n)| == n
    decreases n
  {
    if n > 0 {
      MetDistinct(nodes, from, to, first, n - 1);
      MetMember(nodes, from, n - 1, Follow(nodes, from, n - 1));
      if Follow(nodes, from, n - 1) in Met(nodes, from, n - 1) {
        var k: nat :| k < n - 1 && Follow(nodes, from, k) == Follow(nodes, from, n - 1);
        FollowAdd(nodes, from, n - 1, first - (n - 1));
        FollowAdd(nodes, from, k, first - (n - 1));
      }
    }
  }

  lemma OneMore<T>(a: set<T>, x: T)
    ensures |a + {x}| <= |a| + 1
  {
    if x in a { assert a + {x} == a; }
  }

  lemma SurfacesSnoc(nodes: seq<SurfaceNode>)
    requires nodes != []
    ensures Surfaces(nodes) == Surfaces(nodes[..|nodes| - 1]) + {nodes[|nodes| - 1].surface}
  {
    var front, last := nodes[..|nodes| - 1], nodes[|nodes| - 1];
    forall s ensures s in Surfaces(nodes) <==> s in Surfaces(front) || s == last.surface {
      if s in Surfaces(nodes) {
        var n :| n in nodes && n.surface == s;
        assert n in front || n == last;
      }
      if s == last.surface { assert last in nodes; }
    }
  }

  lemma {:induction false} SurfacesBound(nodes: seq<SurfaceNode>)
    ensures |Surfaces(nodes)| <= |nodes|
  {
    if nodes != [] {
      SurfacesSnoc(nodes);
      OneMore(Surfaces(nodes[..|nodes| - 1]), nodes[|nodes| - 1].surface);
      SurfacesBound(nodes[..|nodes| - 1]);
    }
  }

  lemma SubsetBound<T>(a: set<T>, b: set<T>)
    requires a <= b
    ensures |a| <= |b|
  {
    assert b == a + (b - a);
  }

  /** The cut-off loses no real ancestor: a first arrival needs at most one step a node. */
  lemma FirstArrivalBounded(nodes: seq<SurfaceNode>, from: Option<Surface>, to: Surface, first: nat)
    requires Follow(nodes, from, first) == Some(to)
    requires forall k: nat :: k < first ==> Follow(nodes, from, k) != Some(to)
    ensures first <= |nodes|
  {
    MetDistinct(nodes, from, to, first, first);
    var listed := set s | s in Surfaces(nodes) :: Some(s);
    forall s | s in Met(nodes, from, first) ensures s in listed {
      MetMember(nodes, from, first, s);
      var k: nat :| k < first && Follow(nodes, from, k) == s;
      FollowAdd(nodes, from, k, first - k);
      assert s.Some? && Follow(nodes, s, first - k) == Follow(nodes, Up(nodes, s.value), first - k - 1);
      UpListed(nodes, s.value);
    }
    SomesBound(Surfaces(nodes), listed);
    SubsetBound(Met(nodes, from, first), listed);
    SurfacesBound(nodes);
  }

  lemma {:induction false} SomesBound(s: set<Surface>, somes: set<Option<Surface>>)
    requires somes == set x | x in s :: Some(x)
    ensures |somes| == |s|
    decreases s
  {
    if s != {} {
      var x :| x in s;
      SomesBound(s - {x}, somes - {Some(x)});
    }
  }

  /** A first arrival exists as soon as there is any. */
  lemma {:induction false} FirstArrival(nodes: seq<SurfaceNode>, from: Option<Surface>, to: Surface, n: nat) returns (first: nat)
    requires Follow(nodes, from, n) == Some(to)
    ensures first <= n && Follow(nodes, from, first) == Some(to)
    ensures forall k: nat :: k < first ==> Follow(nodes, from, k) != Some(to)
    decreases n
  {
    if k: nat :| k < n && Follow(nodes, from, k) == Some(to) {
      first := FirstArrival(nodes, from, to, k);
    } else {
      first := n;
    }
  }

  /** The bounded walk up the list, exact on every list, parent cycles included. */
  method SurfaceDescends(nodes: seq<SurfaceNode>, child: Option<Surface>, ancestor: Option<Surface>) returns (yes: bool)
    ensures yes == (ancestor.Some? && Reaches(nodes, child, ancestor.value))
  {
    var at := child;
    var depth := 0;
    while at.Some? && depth <= |nodes|
      invariant depth <= |nodes| + 1
      invariant at == Follow(nodes, child, depth)
      invariant forall k: nat :: k < depth ==> Follow(nodes, child, k) != ancestor
    {
      if at == ancestor {
        return true;
      }
      var i := 0;
      while i < |nodes| && nodes[i].surface != at.value
        invariant i <= |nodes|
        invariant Up(nodes, at.value) == Up(nodes[i..], at.value)
      {
        i := i + 1;
      }
      FollowAdd(nodes, child, depth, 1);
      if i == |nodes| {
        // an unlisted surface has no parent to go on to
        assert Follow(nodes, child, depth + 1) == None;
        forall n: nat ensures ancestor.Some? ==> Follow(nodes, child, n) != ancestor {
          if n > depth { FollowAdd(nodes, child, depth + 1, n - depth - 1); }
        }
        return false;
      }
      at := nodes[i].parent;
      depth := depth + 1;
    }
    forall n: nat ensures ancestor.Some? ==> Follow(nodes, child, n) != ancestor {
      if ancestor.Some? && Follow(nodes, child, n) == ancestor {
        var first := FirstArrival(nodes, child, ancestor.value, n);
        FirstArrivalBounded(nodes, child, ancestor.value, first);
        if depth <= first { FollowAdd(nodes, child, depth, first - depth); }
      }
    }
    return false;
  }

  // -------------------------------------------------------------- hit testing

  datatype Hit = Hit(surface: Surface, local: Point)

  function LocalPoint(selected: SurfaceNode, point: Point, n: SurfaceNode): Point {
    Minus(Plus(selected.offset, point), n.offset)
  }

  predicate TakesHit(selected: SurfaceNode, point: Point, accepts: (Surface, Point) -> bool, n: SurfaceNode) {
    var local := LocalPoint(selected, point, n);
    PointInside(local, n.size) && accepts(n.surface, local)
  }

  function HitOf(selected: SurfaceNode, point: Point, n: SurfaceNode): Hit {
    Hit(n.surface, LocalPoint(selected, point, n))
  }

  /** The definition: front to back through the tree, above children last first, then the
      surface itself, then below children last first. */
  function HitTree(t: Tree, selected: SurfaceNode, point: Point, accepts: (Surface, Point) -> bool): Option<Hit>
    decreases t, 1
  {
    match t
    case Skipped => None
    case Tree(node, below, above) =>
      var front := HitTrees(above, selected, point, accepts);
      if front.Some? then front
      else if TakesHit(selected, point, accepts, node) then Some(HitOf(selected, point, node))
      else HitTrees(below, selected, point, accepts)
  }

  function HitTrees(ts: seq<Tree>, selected: SurfaceNode, point: Point, accepts: (Surface, Point) -> bool): Option<Hit>
    decreases ts, 0
  {
    if ts == [] then None
    else
      var last := HitTree(ts[|ts| - 1], selected, point, accepts);
      if last.Some? then last else HitTrees(ts[..|ts| - 1], selected, point, accepts)
  }

  /** The topmost taker of a list. */
  function HitList(nodes: seq<SurfaceNode>, selected: SurfaceNode, point: Point, accepts: (Surface, Point) -> bool): Option<Hit> {
    if nodes == [] then None
    else if TakesHit(selected, point, accepts, nodes[|nodes| - 1]) then Some(HitOf(selected, point, nodes[|nodes| - 1]))
    else HitList(nodes[..|nodes| - 1], selected, point, accepts)
  }

  lemma {:induction false} HitListAppend(a: seq<SurfaceNode>, b: seq<SurfaceNode>,
                                         selected: SurfaceNode, point: Point, accepts: (Surface, Point) -> bool)
    ensures HitList(a + b, selected, point, accepts) ==
      (if HitList(b, selected, point, accepts).Some? then HitList(b, selected, point, accepts)
       else HitList(a, selected, point, accepts))
    decreases |b|
  {
    if b == [] {
      assert a + b == a;
    } else {
      assert (a + b)[..|a + b| - 1] == a + b[..|b| - 1];
      HitListAppend(a, b[..|b| - 1], selected, point, accepts);
    }
  }

  /** Flattening preserves the answer: the traversal of a tree takes its topmost taker. */
  lemma {:induction false} HitTreeIsList(t: Tree, selected: SurfaceNode, point: Point, accepts: (Surface, Point) -> bool)
    ensures HitTree(t, selected, point, accepts) == HitList(Flatten(t), selected, point, accepts)
    decreases t, 1
  {
    if t.Tree? {
      HitTreesIsList(t.below, selected, point, accepts);
      HitTreesIsList(t.above, selected, point, accepts);
      HitListAppend(FlattenAll(t.below) + [t.node], FlattenAll(t.above), selected, point, accepts);
      HitListAppend(FlattenAll(t.below), [t.node], selected, point, accepts);
      assert HitList([], selected, point, accepts) == None;
    }
  }

  lemma {:induction false} HitTreesIsList(ts: seq<Tree>, selected: SurfaceNode, point: Point, accepts: (Surface, Point) -> bool)
    ensures HitTrees(ts, selected, point, accepts) == HitList(FlattenAll(ts), selected, point, accepts)
    decreases ts, 0
  {
    if ts != [] {
      HitTreesIsList(ts[..|ts| - 1], selected, point, accepts);
      HitTreeIsList(ts[|ts| - 1], selected, point, accepts);
      HitListAppend(FlattenAll(ts[..|ts| - 1]), Flatten(ts[|ts| - 1]), selected, point, accepts);
    }
  }

  lemma {:induction false} HitListNone(nodes: seq<SurfaceNode>, selected: SurfaceNode, point: Point, accepts: (Surface, Point) -> bool)
    ensures HitList(nodes, selected, point, accepts) == None
      <==> forall n :: n in nodes ==> !TakesHit(selected, point, accepts, n)
  {
    if nodes != [] {
      HitListNone(nodes[..|nodes| - 1], selected, point, accepts);
      assert nodes == nodes[..|nodes| - 1] + [nodes[|nodes| - 1]];
    }
  }

  // ------------------------------------------------- descending is membership

  lemma {:induction false} UpDistinct(nodes: seq<SurfaceNode>, n: SurfaceNode)
    requires Distinct(nodes) && n in nodes
    ensures Up(nodes, n.surface) == n.parent
  {
    if nodes[0] != n { UpDistinct(nodes[1..], n); }
  }

  lemma ReachesStep(nodes: seq<SurfaceNode>, from: Option<Surface>, mid: Surface, to: Surface)
    requires Reaches(nodes, from, mid) && Up(nodes, mid) == Some(to)
    ensures Reaches(nodes, from, to)
  {
    var n: nat :| Follow(nodes, from, n) == Some(mid);
    FollowAdd(nodes, from, n, 1);
    assert Follow(nodes, Some(mid), 1) == Follow(nodes, Up(nodes, mid), 0);
    assert Follow(nodes, from, n + 1) == Some(to);
  }

  /** From every surface of a tree the parents lead to the tree's own surface. */
  lemma {:induction false} InsideReaches(nodes: seq<SurfaceNode>, t: Tree, parent: Option<Surface>, n: SurfaceNode)
    requires t.Tree? && Rooted(t, parent) && Distinct(nodes)
    requires forall m :: m in Flatten(t) ==> m in nodes
    requires n in Flatten(t)
    ensures Reaches(nodes, Some(n.surface), t.node.surface)
    decreases t, 1
  {
    var here := t.node.surface;
    if n == t.node {
      assert Follow(nodes, Some(here), 0) == Some(here);
    } else if n in FlattenAll(t.below) {
      InsideReachesAny(nodes, t.below, here, n);
    } else {
      InsideReachesAny(nodes, t.above, here, n);
    }
  }

  lemma {:induction false} InsideReachesAny(nodes: seq<SurfaceNode>, ts: seq<Tree>, parent: Surface, n: SurfaceNode)
    requires RootedAll(ts, Some(parent)) && Distinct(nodes)
    requires forall m :: m in FlattenAll(ts) ==> m in nodes
    requires n in FlattenAll(ts)
    ensures Reaches(nodes, Some(n.surface), parent)
    decreases ts, 0
  {
    var front, last := ts[..|ts| - 1], ts[|ts| - 1];
    if n in FlattenAll(front) {
      InsideReachesAny(nodes, front, parent, n);
    } else {
      InsideReaches(nodes, last, Some(parent), n);
      UpDistinct(nodes, last.node);
      ReachesStep(nodes, Some(n.surface), last.node.surface, parent);
    }
  }

  /** From outside a tree the parents never lead into it. */
  lemma {:induction false} OutsideStays(nodes: seq<SurfaceNode>, t: Tree, from: Surface, k: nat)
    requires Distinct(nodes) && from !in Surfaces(Flatten(t))
    requires forall m :: m in nodes && m.parent.Some? && m.parent.value in Surfaces(Flatten(t)) ==> m in Flatten(t)
    ensures Follow(nodes, Some(from), k).Some? ==> Follow(nodes, Some(from), k).value !in Surfaces(Flatten(t))
    decreases k
  {
    if k > 0 && Up(nodes, from).Some? {
      UpListed(nodes, from);
      var m :| m in nodes && m.surface == from;
      UpDistinct(nodes, m);
      OutsideStays(nodes, t, Up(nodes, from).value, k - 1);
    }
  }

  /** In the list of a forest, a surface descends from a selected one exactly when it
      belongs to the tree of the selected one. */
  lemma DescendsIsMembership(forest: seq<Tree>, t: Tree, n: SurfaceNode)
    requires RootedAll(forest, None) && Distinct(FlattenAll(forest)) && WithinAny(t, forest) && t.Tree?
    requires n in FlattenAll(forest)
    ensures Reaches(FlattenAll(forest), Some(n.surface), t.node.surface) <==> n in Flatten(t)
  {
    var nodes := FlattenAll(forest);
    var parent := InnerRooted(t, forest, None);
    InnerNodes(t, forest);
    if n in Flatten(t) {
      InsideReaches(nodes, t, parent, n);
    } else {
      forall m | m in nodes && m.parent.Some? && m.parent.value in Surfaces(Flatten(t)) ensures m in Flatten(t) {
        HangsInsideAny(t, forest, None, m);
      }
      assert t.node in Flatten(t);
      forall k: nat ensures Follow(nodes, Some(n.surface), k) != Some(t.node.surface) {
        OutsideStays(nodes, t, n.surface, k);
      }
    }
  }

  lemma InnerNodes(t: Tree, forest: seq<Tree>)
    requires WithinAny(t, forest)
    ensures forall m :: m in Flatten(t) ==> m in FlattenAll(forest)
  {
    var pre, post := InnerStretchAny(t, forest);
  }

  lemma {:induction false} InnerRooted(t: Tree, ts: seq<Tree>, base: Option<Surface>) returns (parent: Option<Surface>)
    requires WithinAny(t, ts) && RootedAll(ts, base)
    ensures Rooted(t, parent)
    decreases ts, 0
  {
    var front, last := ts[..|ts| - 1], ts[|ts| - 1];
    if WithinAny(t, front) {
      parent := InnerRooted(t, front, base);
    } else if t == last {
      parent := base;
    } else if WithinAny(t, last.below) {
      parent := InnerRooted(t, last.below, Some(last.node.surface));
    } else {
      parent := InnerRooted(t, last.above, Some(last.node.surface));
    }
  }

  // ------------------------------------------------------------ the flat scan

  /** The topmost taker among the nodes that descend from the selected surface. */
  ghost function HitFiltered(all: seq<SurfaceNode>, nodes: seq<SurfaceNode>, selected: SurfaceNode, point: Point,
                             accepts: (Surface, Point) -> bool): Option<Hit> {
    if nodes == [] then None
    else
      var n := nodes[|nodes| - 1];
      if Reaches(all, Some(n.surface), selected.surface) && TakesHit(selected, point, accepts, n)
      then Some(HitOf(selected, point, n))
      else HitFiltered(all, nodes[..|nodes| - 1], selected, point, accepts)
  }

  lemma {:induction false} HitFilteredAppend(all: seq<SurfaceNode>, a: seq<SurfaceNode>, b: seq<SurfaceNode>,
                                             selected: SurfaceNode, point: Point, accepts: (Surface, Point) -> bool)
    ensures HitFiltered(all, a + b, selected, point, accepts) ==
      (if HitFiltered(all, b, selected, point, accepts).Some? then HitFiltered(all, b, selected, point, accepts)
       else HitFiltered(all, a, selected, point, accepts))
    decreases |b|
  {
    if b == [] {
      assert a + b == a;
    } else {
      assert (a + b)[..|a + b| - 1] == a + b[..|b| - 1];
      HitFilteredAppend(all, a, b[..|b| - 1], selected, point, accepts);
    }
  }

  lemma {:induction false} HitFilteredNone(all: seq<SurfaceNode>, nodes: seq<SurfaceNode>, selected: SurfaceNode,
                                           point: Point, accepts: (Surface, Point) -> bool)
    requires forall n :: n in nodes ==> !Reaches(all, Some(n.surface), selected.surface)
    ensures HitFiltered(all, nodes, selected, point, accepts) == None
  {
    if nodes != [] { HitFilteredNone(all, nodes[..|nodes| - 1], selected, point, accepts); }
  }

  lemma {:induction false} HitFilteredAll(all: seq<SurfaceNode>, nodes: seq<SurfaceNode>, selected: SurfaceNode,
                                          point: Point, accepts: (Surface, Point) -> bool)
    requires forall n :: n in nodes ==> Reaches(all, Some(n.surface), selected.surface)
    ensures HitFiltered(all, nodes, selected, point, accepts) == HitList(nodes, selected, point, accepts)
  {
    if nodes != [] { HitFilteredAll(all, nodes[..|nodes| - 1], selected, point, accepts); }
  }

  /** The point of the selected surface, as seen from another: window coordinates are the
      selected offset further. */
  function LocalOf(n: SurfaceNode, selected: SurfaceNode, point: Point): Point {
    Point(selected.offset.x + point.x - n.offset.x, selected.offset.y + point.y - n.offset.y)
  }

  /** The surface is the selected one or below it, has the point inside, and accepts it. */
  ghost predicate Takes(nodes: seq<SurfaceNode>, n: SurfaceNode, selected: SurfaceNode, point: Point, accepts: (Surface, Point) -> bool) {
    var local := LocalOf(n, selected, point);
    && Reaches(nodes, Some(n.surface), selected.surface)
    && 0.0 <= local.x < n.size.x && 0.0 <= local.y < n.size.y && accepts(n.surface, local)
  }

  /** And none above it in the list does, so that it is the one hit. */
  ghost predicate TakesFirst(nodes: seq<SurfaceNode>, i: nat, selected: SurfaceNode, point: Point,
                             accepts: (Surface, Point) -> bool, hit: Hit) {
    && i < |nodes| && Takes(nodes, nodes[i], selected, point, accepts)
    && hit == Hit(nodes[i].surface, LocalOf(nodes[i], selected, point))
    && forall k :: i < k < |nodes| ==> !Takes(nodes, nodes[k], selected, point, accepts)
  }

  method HitSurfaceTree(nodes: seq<SurfaceNode>, selected: SurfaceNode, point: Point, accepts: (Surface, Point) -> bool)
    returns (hit: Option<Hit>)
    ensures hit == HitFiltered(nodes, nodes, selected, point, accepts)
    ensures hit == None ==> forall k :: 0 <= k < |nodes| ==> !Takes(nodes, nodes[k], selected, point, accepts)
    ensures hit.Some? ==> exists i: nat :: TakesFirst(nodes, i, selected, point, accepts, hit.value)
  {
    var i := |nodes|;
    assert nodes[..i] == nodes;
    while i > 0
      invariant i <= |nodes|
      invariant forall k :: i <= k < |nodes| ==> !Takes(nodes, nodes[k], selected, point, accepts)
      invariant HitFiltered(nodes, nodes, selected, point, accepts) == HitFiltered(nodes, nodes[..i], selected, point, accepts)
    {
      i := i - 1;
      var node := nodes[i];
      assert nodes[..i + 1][..i] == nodes[..i];
      var descends := SurfaceDescends(nodes, Some(node.surface), Some(selected.surface));
      if descends {
        var local := Minus(Plus(selected.offset, point), node.offset);
        if PointInside(local, node.size) && accepts(node.surface, local) {
          assert TakesFirst(nodes, i, selected, point, accepts, Hit(node.surface, local));
          return Some(Hit(node.surface, local));
        }
      }
    }
    return None;
  }

  lemma DisjointMembers(a: seq<SurfaceNode>, b: seq<SurfaceNode>)
    requires Surfaces(a) !! Surfaces(b)
    ensures forall n :: n in a ==> n !in b
  {
    forall n | n in a ensures n !in b {
      assert n.surface in Surfaces(a);
    }
  }

  /** The fast flat scan refines the recursive traversal: for every forest the walk can
      emit and every selected node, scanning the flat list gives the tree's own answer. */
  lemma FlatScanRefinesTraversal(forest: seq<Tree>, t: Tree, point: Point, accepts: (Surface, Point) -> bool)
    requires RootedAll(forest, None) && Distinct(FlattenAll(forest)) && WithinAny(t, forest) && t.Tree?
    ensures var nodes := FlattenAll(forest);
      HitFiltered(nodes, nodes, t.node, point, accepts) == HitTree(t, t.node, point, accepts)
    ensures HitTree(t, t.node, point, accepts) == None
      <==> forall n :: n in Flatten(t) ==> !TakesHit(t.node, point, accepts, n)
  {
    var nodes := FlattenAll(forest);
    var pre, post := InnerStretchAny(t, forest);
    var mid := Flatten(t);
    DistinctParts(pre + mid, post);
    DistinctParts(pre, mid);
    SurfacesAppend(pre, mid);
    DisjointMembers(pre, mid);
    DisjointMembers(post, mid);
    forall n | n in nodes ensures Reaches(nodes, Some(n.surface), t.node.surface) <==> n in mid {
      DescendsIsMembership(forest, t, n);
    }
    HitFilteredAppend(nodes, pre + mid, post, t.node, point, accepts);
    HitFilteredAppend(nodes, pre, mid, t.node, point, accepts);
    HitFilteredNone(nodes, pre, t.node, point, accepts);
    HitFilteredNone(nodes, post, t.node, point, accepts);
    HitFilteredAll(nodes, mid, t.node, point, accepts);
    HitTreeIsList(t, t.node, point, accepts);
    HitListNone(mid, t.node, point, accepts);
  }
}
