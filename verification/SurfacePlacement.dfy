/** Where the surfaces of a discovered window stand: each at the sum of the positions along
    its whole chain of parents, each subtree wholly below or wholly above its parent. */
module SurfacePlacement {
  import opened Common
  import opened SurfaceModel
  import R = SurfaceRouting
  import opened SurfaceTree

  function Sum(positions: seq<Point>): Point {
    if positions == [] then ORIGIN else Plus(positions[0], Sum(positions[1..]))
  }

  /** The compositor has a subsurface of the owner at this position for the surface. */
  ghost predicate HangsAt(g: Graph, owner: Surface, s: Surface, position: Point) {
    exists j: nat ::
      && owner in g && j < |g[owner].subs| && g[owner].subs[j].Some?
      && g[owner].subs[j].value.surface == Some(s) && g[owner].subs[j].value.parent == Some(owner)
      && g[owner].subs[j].value.position == position
  }

  /** The compositor's positions on the way up from a surface, one for each parent. */
  ghost predicate ChainPositions(g: Graph, nodes: seq<SurfaceNode>, from: Surface, positions: seq<Point>)
    decreases |positions|
  {
    positions != [] ==>
      && R.Up(nodes, from).Some?
      && HangsAt(g, R.Up(nodes, from).value, from, positions[0])
      && ChainPositions(g, nodes, R.Up(nodes, from).value, positions[1..])
  }

  /** What discovery guarantees node by node. */
  ghost predicate Emitted(g: Graph, root: Surface, popups: seq<Popup>, nodes: seq<SurfaceNode>) {
    && Distinct(nodes)
    && (forall n :: n in nodes ==> RunsOut(nodes, n.surface))
    && (forall i: nat {:trigger HasPlace(g, nodes, i)} :: i < |nodes| ==> HasPlace(g, nodes, i) || IsBase(root, popups, nodes[i]))
  }

  lemma DiscoveredIsEmitted(g: Graph, root: Surface, shells: Shells, popups: seq<Popup>)
    requires root in g && TreesFit(WindowForest(g, root, shells, popups), {}, 0)
    ensures Emitted(g, root, popups, FlattenAll(WindowForest(g, root, shells, popups).value))
  {
    EmittedListSound(g, root, shells, popups);
  }

  /** A node with a parent hangs from it at the compositor's position. */
  lemma OneLink(g: Graph, root: Surface, popups: seq<Popup>, nodes: seq<SurfaceNode>, n: SurfaceNode)
    returns (p: SurfaceNode, position: Point)
    requires Emitted(g, root, popups, nodes) && n in nodes && n.parent.Some?
    ensures p in nodes && n.parent == Some(p.surface) && R.Up(nodes, n.surface) == Some(p.surface)
    ensures HangsAt(g, p.surface, n.surface, position) && n.offset == Plus(p.offset, position)
  {
    var i: nat :| i < |nodes| && nodes[i] == n;
    assert HasPlace(g, nodes, i);
    var k: nat :| Placed(g, nodes, i, k);
    p := nodes[k];
    var j: nat :| Hung(g, p.surface, p.offset, n, j, k < i);
    position := g[p.surface].subs[j].value.position;
    R.UpDistinct(nodes, n);
  }

  lemma SameNode(nodes: seq<SurfaceNode>, a: SurfaceNode, b: SurfaceNode)
    requires Distinct(nodes) && a in nodes && b in nodes && a.surface == b.surface
    ensures a == b
  {
    var i :| 0 <= i < |nodes| && nodes[i] == a;
    var j :| 0 <= j < |nodes| && nodes[j] == b;
  }

  lemma ChainMore(g: Graph, nodes: seq<SurfaceNode>, from: Surface, to: Surface, position: Point, rest: seq<Point>)
    requires R.Up(nodes, from) == Some(to) && HangsAt(g, to, from, position) && ChainPositions(g, nodes, to, rest)
    ensures ChainPositions(g, nodes, from, [position] + rest)
    ensures Sum([position] + rest) == Plus(position, Sum(rest))
  {
    assert ([position] + rest)[1..] == rest;
  }

  /** From any surface to any ancestor, through any number of parents, the offsets differ by
      the sum of the compositor's positions on the way. */
  lemma {:induction false} OffsetToAncestor(g: Graph, root: Surface, popups: seq<Popup>, nodes: seq<SurfaceNode>,
                                            n: SurfaceNode, k: nat, a: SurfaceNode) returns (positions: seq<Point>)
    requires Emitted(g, root, popups, nodes) && n in nodes && a in nodes
    requires R.Follow(nodes, Some(n.surface), k) == Some(a.surface)
    ensures |positions| == k && ChainPositions(g, nodes, n.surface, positions)
    ensures n.offset == Plus(a.offset, Sum(positions))
    decreases k
  {
    positions := [];
    if k == 0 {
      SameNode(nodes, n, a);
    } else {
      assert n.parent.Some? by { R.UpDistinct(nodes, n); }
      var p, position := OneLink(g, root, popups, nodes, n);
      var rest := OffsetToAncestor(g, root, popups, nodes, p, k - 1, a);
      ChainMore(g, nodes, n.surface, p.surface, position, rest);
      positions := [position] + rest;
    }
  }

  lemma NoParentIsBase(g: Graph, root: Surface, popups: seq<Popup>, nodes: seq<SurfaceNode>, n: SurfaceNode)
    requires Emitted(g, root, popups, nodes) && n in nodes && n.parent == None
    ensures IsBase(root, popups, n)
  {
    var i: nat :| i < |nodes| && nodes[i] == n;
    assert !HasPlace(g, nodes, i);
  }

  /** Every chain of parents ends at a base. */
  lemma {:induction false} BaseOf(g: Graph, root: Surface, popups: seq<Popup>, nodes: seq<SurfaceNode>, n: SurfaceNode, m: nat)
    returns (base: SurfaceNode, k: nat)
    requires Emitted(g, root, popups, nodes) && n in nodes && R.Follow(nodes, Some(n.surface), m) == None
    ensures base in nodes && IsBase(root, popups, base) && R.Follow(nodes, Some(n.surface), k) == Some(base.surface)
    decreases m
  {
    if n.parent == None {
      NoParentIsBase(g, root, popups, nodes, n);
      base, k := n, 0;
    } else {
      var p, position := OneLink(g, root, popups, nodes, n);
      base, k := BaseOf(g, root, popups, nodes, p, m - 1);
      k := k + 1;
    }
  }

  /** Every surface of a discovered window stands at its base's offset plus the sum of the
      compositor's positions along its whole chain of parents. */
  lemma OffsetIsChainSum(g: Graph, root: Surface, shells: Shells, popups: seq<Popup>, n: SurfaceNode)
    returns (base: SurfaceNode, positions: seq<Point>)
    requires root in g && TreesFit(WindowForest(g, root, shells, popups), {}, 0)
    requires n in FlattenAll(WindowForest(g, root, shells, popups).value)
    ensures var nodes := FlattenAll(WindowForest(g, root, shells, popups).value);
      && base in nodes && IsBase(root, popups, base)
      && R.Follow(nodes, Some(n.surface), |positions|) == Some(base.surface)
      && ChainPositions(g, nodes, n.surface, positions) && n.offset == Plus(base.offset, Sum(positions))
  {
    var nodes := FlattenAll(WindowForest(g, root, shells, popups).value);
    DiscoveredIsEmitted(g, root, shells, popups);
    assert RunsOut(nodes, n.surface);
    var k: nat :| R.Follow(nodes, Some(n.surface), k) == None;
    var m;
    base, m := BaseOf(g, root, popups, nodes, n, k);
    positions := OffsetToAncestor(g, root, popups, nodes, n, m, base);
  }

  // ------------------------------------------------------------------- order

  /** A chain that comes back to its start never ends. */
  lemma {:induction false} CycleNeverEnds(nodes: seq<SurfaceNode>, s: Surface, m: nat, n: nat)
    requires m > 0 && R.Follow(nodes, Some(s), m) == Some(s)
    ensures R.Follow(nodes, Some(s), n).Some?
    decreases n
  {
    if n >= m {
      R.FollowAdd(nodes, Some(s), m, n - m);
      CycleNeverEnds(nodes, s, m, n - m);
    } else {
      R.FollowAdd(nodes, Some(s), n, m - n);
    }
  }

  /** A parent is not in the subtree of its child. */
  lemma ParentOutside(nodes: seq<SurfaceNode>, c: Surface, p: Surface)
    requires RunsOut(nodes, c) && R.Up(nodes, c) == Some(p)
    ensures !R.Reaches(nodes, Some(p), c)
  {
    if R.Reaches(nodes, Some(p), c) {
      var m: nat :| R.Follow(nodes, Some(p), m) == Some(c);
      assert R.Follow(nodes, Some(c), m + 1) == Some(c);
      var n: nat :| R.Follow(nodes, Some(c), n) == None;
      CycleNeverEnds(nodes, c, m + 1, n);
    }
  }

  lemma IndexInStretch(nodes: seq<SurfaceNode>, pre: seq<SurfaceNode>, mid: seq<SurfaceNode>, post: seq<SurfaceNode>, i: nat)
    requires Distinct(nodes) && nodes == pre + mid + post && i < |nodes|
    ensures nodes[i] in mid <==> |pre| <= i < |pre| + |mid|
  {
    forall j | 0 <= j < |mid| ensures mid[j] == nodes[i] <==> |pre| + j == i {
      assert nodes[|pre| + j] == mid[j];
    }
  }

  /** Whatever hangs below a child, at any depth, is on the child's side of the parent: the
      surfaces that descend from a child all precede the parent when the compositor's
      stacking index of that child is negative, and all follow it otherwise. */
  lemma SubtreeOrder(g: Graph, root: Surface, shells: Shells, popups: seq<Popup>, p: nat, c: nat, n: nat)
    requires root in g && TreesFit(WindowForest(g, root, shells, popups), {}, 0)
    requires var nodes := FlattenAll(WindowForest(g, root, shells, popups).value);
      && p < |nodes| && c < |nodes| && n < |nodes|
      && nodes[c].parent == Some(nodes[p].surface)
      && R.Reaches(nodes, Some(nodes[n].surface), nodes[c].surface)
    ensures n < p <==> c < p
    ensures var nodes := FlattenAll(WindowForest(g, root, shells, popups).value);
      n != p && HungSomewhere(g, nodes[p].surface, nodes[p].offset, nodes[c], p < n)
  {
    var forest := WindowForest(g, root, shells, popups).value;
    var nodes := FlattenAll(forest);
    DiscoveredIsEmitted(g, root, shells, popups);
    ForestRooted(g, root, shells, popups);
    assert nodes[c] in nodes && nodes[p] in nodes && nodes[n] in nodes;
    var t := NodeTreeAny(forest, nodes[c]);
    var pre, post := InnerStretchAny(t, forest);
    R.UpDistinct(nodes, nodes[c]);
    ParentOutside(nodes, nodes[c].surface, nodes[p].surface);
    assert R.Follow(nodes, Some(nodes[c].surface), 0) == Some(nodes[c].surface);
    R.DescendsIsMembership(forest, t, nodes[c]);
    R.DescendsIsMembership(forest, t, nodes[n]);
    R.DescendsIsMembership(forest, t, nodes[p]);
    IndexInStretch(nodes, pre, Flatten(t), post, c);
    IndexInStretch(nodes, pre, Flatten(t), post, n);
    IndexInStretch(nodes, pre, Flatten(t), post, p);
    ChildSide(g, root, popups, nodes, p, c);
  }

  lemma ChildSide(g: Graph, root: Surface, popups: seq<Popup>, nodes: seq<SurfaceNode>, p: nat, c: nat)
    requires Emitted(g, root, popups, nodes) && p < |nodes| && c < |nodes| && nodes[c].parent == Some(nodes[p].surface)
    ensures HungSomewhere(g, nodes[p].surface, nodes[p].offset, nodes[c], p < c)
  {
    assert HasPlace(g, nodes, c);
    var k: nat :| Placed(g, nodes, c, k);
    assert k == p;
  }
}
