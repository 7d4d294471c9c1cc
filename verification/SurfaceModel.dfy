/** Surfaces of a window: the flat stacking-order list the guard works on, and the trees
    it stands for. Coordinates are reals. */
module SurfaceModel {
  import opened Common

  /** The identity of a compositor surface object. */
  type Surface = nat

  datatype Point = Point(x: real, y: real)

  function Plus(a: Point, b: Point): Point { Point(a.x + b.x, a.y + b.y) }
  function Minus(a: Point, b: Point): Point { Point(a.x - b.x, a.y - b.y) }

  datatype SurfaceNode = SurfaceNode(surface: Surface, offset: Point, size: Point, kind: string, parent: Option<Surface>)

  /** A surface with its subsurfaces below and above it, each in list order; `Skipped`
      stands for a child that is gone, unmapped or not good. */
  datatype Tree = Skipped | Tree(node: SurfaceNode, below: seq<Tree>, above: seq<Tree>)

  /** Stacking order, lowest first: below children, the surface, above children. */
  function Flatten(t: Tree): seq<SurfaceNode>
    decreases t, 1
  {
    match t
    case Skipped => []
    case Tree(node, below, above) => FlattenAll(below) + [node] + FlattenAll(above)
  }

  function FlattenAll(ts: seq<Tree>): seq<SurfaceNode>
    decreases ts, 0
  {
    if ts == [] then [] else FlattenAll(ts[..|ts| - 1]) + Flatten(ts[|ts| - 1])
  }

  function Surfaces(nodes: seq<SurfaceNode>): set<Surface> {
    set n | n in nodes :: n.surface
  }

  predicate Distinct(nodes: seq<SurfaceNode>) {
    forall i, j :: 0 <= i < j < |nodes| ==> nodes[i].surface != nodes[j].surface
  }

  /** Every node names the surface it hangs from. */
  predicate Rooted(t: Tree, parent: Option<Surface>)
    decreases t, 1
  {
    t.Tree? ==>
      && t.node.parent == parent
      && RootedAll(t.below, Some(t.node.surface))
      && RootedAll(t.above, Some(t.node.surface))
  }

  predicate RootedAll(ts: seq<Tree>, parent: Option<Surface>)
    decreases ts, 0
  {
    ts != [] ==> RootedAll(ts[..|ts| - 1], parent) && Rooted(ts[|ts| - 1], parent)
  }

  /** `t` is `whole` or one of the trees inside it. */
  predicate Within(t: Tree, whole: Tree)
    decreases whole, 1
  {
    t == whole || (whole.Tree? && (WithinAny(t, whole.below) || WithinAny(t, whole.above)))
  }

  predicate WithinAny(t: Tree, ts: seq<Tree>)
    decreases ts, 0
  {
    ts != [] && (WithinAny(t, ts[..|ts| - 1]) || Within(t, ts[|ts| - 1]))
  }

  // ------------------------------------------------------------------ lemmas

  lemma SurfacesAppend(a: seq<SurfaceNode>, b: seq<SurfaceNode>)
    ensures Surfaces(a + b) == Surfaces(a) + Surfaces(b)
  {
    forall s | s in Surfaces(a) + Surfaces(b) ensures s in Surfaces(a + b) {
      var n :| n in a + b && n.surface == s;
    }
  }

  lemma DistinctParts(a: seq<SurfaceNode>, b: seq<SurfaceNode>)
    requires Distinct(a + b)
    ensures Distinct(a) && Distinct(b) && Surfaces(a) !! Surfaces(b)
  {
    assert forall i :: 0 <= i < |a| ==> (a + b)[i] == a[i];
    assert forall i :: 0 <= i < |b| ==> (a + b)[|a| + i] == b[i];
  }

  /** The nodes of an inner tree are a contiguous stretch of the whole list. */
  lemma {:induction false} InnerStretch(t: Tree, whole: Tree) returns (pre: seq<SurfaceNode>, post: seq<SurfaceNode>)
    requires Within(t, whole)
    ensures Flatten(whole) == pre + Flatten(t) + post
    decreases whole, 1
  {
    if t == whole {
      pre, post := [], [];
    } else if WithinAny(t, whole.below) {
      pre, post := InnerStretchAny(t, whole.below);
      post := post + [whole.node] + FlattenAll(whole.above);
    } else {
      pre, post := InnerStretchAny(t, whole.above);
      pre := FlattenAll(whole.below) + [whole.node] + pre;
    }
  }

  lemma {:induction false} InnerStretchAny(t: Tree, ts: seq<Tree>) returns (pre: seq<SurfaceNode>, post: seq<SurfaceNode>)
    requires WithinAny(t, ts)
    ensures FlattenAll(ts) == pre + Flatten(t) + post
    decreases ts, 0
  {
    var front, last := ts[..|ts| - 1], ts[|ts| - 1];
    if WithinAny(t, front) {
      pre, post := InnerStretchAny(t, front);
      post := post + Flatten(last);
    } else {
      pre, post := InnerStretch(t, last);
      pre := FlattenAll(front) + pre;
    }
  }

  /** A parent named inside a tree is the tree's own base or one of its surfaces. */
  lemma {:induction false} ParentLocal(t: Tree, parent: Option<Surface>, n: SurfaceNode)
    requires Rooted(t, parent) && n in Flatten(t)
    ensures n.parent == parent || (n.parent.Some? && n.parent.value in Surfaces(Flatten(t)))
    decreases t, 1
  {
    if n != t.node {
      var s := t.node.surface;
      SurfacesAppend(FlattenAll(t.below) + [t.node], FlattenAll(t.above));
      SurfacesAppend(FlattenAll(t.below), [t.node]);
      if n in FlattenAll(t.below) { ParentLocalAny(t.below, Some(s), n); } else { ParentLocalAny(t.above, Some(s), n); }
      assert t.node in [t.node] && s in Surfaces([t.node]);
    }
  }

  lemma {:induction false} ParentLocalAny(ts: seq<Tree>, parent: Option<Surface>, n: SurfaceNode)
    requires RootedAll(ts, parent) && n in FlattenAll(ts)
    ensures n.parent == parent || (n.parent.Some? && n.parent.value in Surfaces(FlattenAll(ts)))
    decreases ts, 0
  {
    var front, last := ts[..|ts| - 1], ts[|ts| - 1];
    SurfacesAppend(FlattenAll(front), Flatten(last));
    if n in FlattenAll(front) { ParentLocalAny(front, parent, n); } else { ParentLocal(last, parent, n); }
  }

  lemma InnerSurfaces(t: Tree, whole: Tree)
    requires Within(t, whole)
    ensures Surfaces(Flatten(t)) <= Surfaces(Flatten(whole))
  {
    var pre, post := InnerStretch(t, whole);
    SurfacesAppend(pre + Flatten(t), post);
    SurfacesAppend(pre, Flatten(t));
  }

  lemma InnerSurfacesAny(t: Tree, ts: seq<Tree>)
    requires WithinAny(t, ts)
    ensures Surfaces(Flatten(t)) <= Surfaces(FlattenAll(ts))
  {
    var pre, post := InnerStretchAny(t, ts);
    SurfacesAppend(pre + Flatten(t), post);
    SurfacesAppend(pre, Flatten(t));
  }

  /** What hangs from a surface of an inner tree belongs to that inner tree. */
  lemma {:induction false} HangsInside(t: Tree, whole: Tree, parent: Option<Surface>, n: SurfaceNode)
    requires Within(t, whole) && Rooted(whole, parent) && Distinct(Flatten(whole))
    requires parent.Some? ==> parent.value !in Surfaces(Flatten(whole))
    requires n in Flatten(whole) && n.parent.Some? && n.parent.value in Surfaces(Flatten(t))
    ensures n in Flatten(t)
    decreases whole, 1
  {
    if t != whole {
      var here := whole.node.surface;
      var below, above := FlattenAll(whole.below), FlattenAll(whole.above);
      InnerSurfaces(t, whole);
      DistinctParts(below + [whole.node], above);
      DistinctParts(below, [whole.node]);
      SurfacesAppend(below, [whole.node]);
      assert whole.node in [whole.node] && here in Surfaces([whole.node]);
      if n in below { ParentLocalAny(whole.below, Some(here), n); }
      if n in above { ParentLocalAny(whole.above, Some(here), n); }
      if WithinAny(t, whole.below) {
        InnerSurfacesAny(t, whole.below);
        HangsInsideAny(t, whole.below, Some(here), n);
      } else {
        InnerSurfacesAny(t, whole.above);
        HangsInsideAny(t, whole.above, Some(here), n);
      }
    }
  }

  lemma {:induction false} HangsInsideAny(t: Tree, ts: seq<Tree>, parent: Option<Surface>, n: SurfaceNode)
    requires WithinAny(t, ts) && RootedAll(ts, parent) && Distinct(FlattenAll(ts))
    requires parent.Some? ==> parent.value !in Surfaces(FlattenAll(ts))
    requires n in FlattenAll(ts) && n.parent.Some? && n.parent.value in Surfaces(Flatten(t))
    ensures n in Flatten(t)
    decreases ts, 0
  {
    var front, last := ts[..|ts| - 1], ts[|ts| - 1];
    SurfacesAppend(FlattenAll(front), Flatten(last));
    DistinctParts(FlattenAll(front), Flatten(last));
    InnerSurfacesAny(t, ts);
    if n in FlattenAll(front) { ParentLocalAny(front, parent, n); } else { ParentLocal(last, parent, n); }
    if WithinAny(t, front) {
      InnerSurfacesAny(t, front);
      HangsInsideAny(t, front, parent, n);
    } else {
      InnerSurfaces(t, last);
      HangsInside(t, last, parent, n);
    }
  }
}
