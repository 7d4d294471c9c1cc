/** What discovery reads off the compositor's objects, stated on the objects themselves:
    nothing that shows is left out, nothing else comes in, and why it refuses. */
module SurfaceDiscovery {
  import opened Common
  import opened SurfaceModel
  import opened SurfaceTree
  import R = SurfaceRouting

  // ------------------------------------------------------- nothing left out

  /** The list has this surface hanging from `owner` there, as a subsurface. */
  ghost predicate ListedUnder(nodes: seq<SurfaceNode>, s: Surface, owner: Surface, at: Point) {
    exists n :: n in nodes && n.surface == s && n.parent == Some(owner) && n.offset == at && n.kind == "subsurface"
  }

  /** What a reference of an emitted surface must be: its own child, and listed if it shows. */
  ghost predicate SubListed(g: Graph, nodes: seq<SurfaceNode>, owner: Surface, pos: Point, sub: Subsurface) {
    && sub.parent == Some(owner)
    && (sub.surface.Some? && sub.surface.value in g && g[sub.surface.value].mapped && g[sub.surface.value].good ==>
          ListedUnder(nodes, sub.surface.value, owner, Point(pos.x + sub.position.x, pos.y + sub.position.y)))
  }

  /** An emitted node is a mapped, good surface of the window's client with its size, and
      all that hangs from it is listed. */
  ghost predicate NodeReads(g: Graph, client: nat, nodes: seq<SurfaceNode>, n: SurfaceNode) {
    && n.surface in g
    && var s := g[n.surface];
       && s.mapped && s.good && s.client == client && s.size == n.size && s.size.x > 0.0 && s.size.y > 0.0 && |s.subs| <= 128
       && forall j :: 0 <= j < |s.subs| && s.subs[j].Some? ==> SubListed(g, nodes, n.surface, n.offset, s.subs[j].value)
  }

  ghost predicate AllRead(g: Graph, client: nat, part: seq<SurfaceNode>, nodes: seq<SurfaceNode>) {
    forall n :: n in part ==> NodeReads(g, client, nodes, n)
  }

  lemma SubListedMore(g: Graph, few: seq<SurfaceNode>, nodes: seq<SurfaceNode>, owner: Surface, pos: Point, sub: Subsurface)
    requires SubListed(g, few, owner, pos, sub) && forall n :: n in few ==> n in nodes
    ensures SubListed(g, nodes, owner, pos, sub)
  {
  }

  lemma ReadMore(g: Graph, client: nat, part: seq<SurfaceNode>, few: seq<SurfaceNode>, nodes: seq<SurfaceNode>)
    requires AllRead(g, client, part, few) && forall n :: n in few ==> n in nodes
    ensures AllRead(g, client, part, nodes)
  {
    forall n | n in part ensures NodeReads(g, client, nodes, n) {
      var s := g[n.surface];
      forall j | 0 <= j < |s.subs| && s.subs[j].Some? ensures SubListed(g, nodes, n.surface, n.offset, s.subs[j].value) {
        SubListedMore(g, few, nodes, n.surface, n.offset, s.subs[j].value);
      }
    }
  }

  /** The references on one side are all listed. */
  ghost predicate SideListed(g: Graph, nodes: seq<SurfaceNode>, owner: Surface, pos: Point, subs: seq<Option<Subsurface>>, above: bool) {
    forall j :: 0 <= j < |subs| && subs[j].Some? && (subs[j].value.zIndex >= 0) == above ==>
      SubListed(g, nodes, owner, pos, subs[j].value)
  }

  lemma SideMore(g: Graph, few: seq<SurfaceNode>, nodes: seq<SurfaceNode>, owner: Surface, pos: Point,
                 subs: seq<Option<Subsurface>>, above: bool)
    requires SideListed(g, few, owner, pos, subs, above) && forall n :: n in few ==> n in nodes
    ensures SideListed(g, nodes, owner, pos, subs, above)
  {
    forall j | 0 <= j < |subs| && subs[j].Some? && (subs[j].value.zIndex >= 0) == above
      ensures SubListed(g, nodes, owner, pos, subs[j].value)
    {
      SubListedMore(g, few, nodes, owner, pos, subs[j].value);
    }
  }

  lemma {:induction false} UnfoldReads(g: Graph, client: nat, child: Option<Surface>, pos: Point, kind: string,
                                       parent: Option<Surface>, depth: nat)
    requires depth <= MAX_DEPTH + 1 && Unfold(g, client, child, pos, kind, parent, depth).Found?
    ensures var t := Unfold(g, client, child, pos, kind, parent, depth).value;
      && AllRead(g, client, Flatten(t), Flatten(t))
      && (Shown(g, child) ==> t.Tree? && t.node.surface == child.value && t.node.offset == pos && t.node.kind == kind && t.node.parent == parent)
    decreases MAX_DEPTH + 1 - depth, 1, 0
  {
    if Shown(g, child) {
      var s := g[child.value];
      var t := Unfold(g, client, child, pos, kind, parent, depth).value;
      SubsRead(g, client, child.value, pos, s.subs, false, depth);
      SubsRead(g, client, child.value, pos, s.subs, true, depth);
      TreeReads(g, client, t);
    }
  }

  /** A node between its two sides. */
  lemma TreeReads(g: Graph, client: nat, t: Tree)
    requires t.Tree? && t.node.surface in g
    requires var s := g[t.node.surface];
      && s.mapped && s.good && s.client == client && s.size == t.node.size && s.size.x > 0.0 && s.size.y > 0.0 && |s.subs| <= 128
      && SideListed(g, FlattenAll(t.below), t.node.surface, t.node.offset, s.subs, false)
      && SideListed(g, FlattenAll(t.above), t.node.surface, t.node.offset, s.subs, true)
    requires AllRead(g, client, FlattenAll(t.below), FlattenAll(t.below)) && AllRead(g, client, FlattenAll(t.above), FlattenAll(t.above))
    ensures AllRead(g, client, Flatten(t), Flatten(t))
  {
    var nodes, subs := Flatten(t), g[t.node.surface].subs;
    ReadMore(g, client, FlattenAll(t.below), FlattenAll(t.below), nodes);
    ReadMore(g, client, FlattenAll(t.above), FlattenAll(t.above), nodes);
    SideMore(g, FlattenAll(t.below), nodes, t.node.surface, t.node.offset, subs, false);
    SideMore(g, FlattenAll(t.above), nodes, t.node.surface, t.node.offset, subs, true);
    forall j | 0 <= j < |subs| && subs[j].Some? ensures SubListed(g, nodes, t.node.surface, t.node.offset, subs[j].value) {
      if subs[j].value.zIndex >= 0 {
        assert (subs[j].value.zIndex >= 0) == true;
      } else {
        assert (subs[j].value.zIndex >= 0) == false;
      }
    }
    assert NodeReads(g, client, nodes, t.node);
  }

  /** The last reference of an unfolded list. */
  lemma LastUnfolded(g: Graph, client: nat, owner: Surface, pos: Point, subs: seq<Option<Subsurface>>, above: bool, depth: nat)
    requires depth <= MAX_DEPTH && subs != [] && UnfoldSubs(g, client, owner, pos, subs, above, depth).Found?
    ensures UnfoldSubs(g, client, owner, pos, subs[..|subs| - 1], above, depth).Found?
    ensures var front := UnfoldSubs(g, client, owner, pos, subs[..|subs| - 1], above, depth).value;
      var all := UnfoldSubs(g, client, owner, pos, subs, above, depth).value;
      var sub := subs[|subs| - 1];
      if sub == None || (sub.value.zIndex >= 0) != above then all == front
      else
        && sub.value.parent == Some(owner)
        && var t := Unfold(g, client, sub.value.surface, Plus(pos, sub.value.position), "subsurface", Some(owner), depth + 1);
           t.Found? && all == front + [t.value]
  {
  }

  lemma {:induction false} SubsRead(g: Graph, client: nat, owner: Surface, pos: Point, subs: seq<Option<Subsurface>>,
                                    above: bool, depth: nat)
    requires depth <= MAX_DEPTH && UnfoldSubs(g, client, owner, pos, subs, above, depth).Found?
    ensures var nodes := FlattenAll(UnfoldSubs(g, client, owner, pos, subs, above, depth).value);
      AllRead(g, client, nodes, nodes) && SideListed(g, nodes, owner, pos, subs, above)
    decreases MAX_DEPTH + 1 - depth, 0, |subs|
  {
    if subs != [] {
      var rest, sub := subs[..|subs| - 1], subs[|subs| - 1];
      LastUnfolded(g, client, owner, pos, subs, above, depth);
      SubsRead(g, client, owner, pos, rest, above, depth);
      var front := UnfoldSubs(g, client, owner, pos, rest, above, depth).value;
      if sub.Some? && (sub.value.zIndex >= 0) == above {
        var at := Plus(pos, sub.value.position);
        UnfoldReads(g, client, sub.value.surface, at, "subsurface", Some(owner), depth + 1);
        var t := Unfold(g, client, sub.value.surface, at, "subsurface", Some(owner), depth + 1).value;
        TreesMoreFlat(front, t);
        JoinedReads(g, client, owner, pos, subs, above, FlattenAll(front), Flatten(t));
      } else {
        SideSnoc(g, FlattenAll(front), owner, pos, subs, above);
      }
    }
  }

  /** The list so far and the tree of the last reference. */
  lemma JoinedReads(g: Graph, client: nat, owner: Surface, pos: Point, subs: seq<Option<Subsurface>>, above: bool,
                    before: seq<SurfaceNode>, last: seq<SurfaceNode>)
    requires subs != [] && AllRead(g, client, before, before) && AllRead(g, client, last, last)
    requires SideListed(g, before, owner, pos, subs[..|subs| - 1], above)
    requires var sub := subs[|subs| - 1]; sub.Some? && SubListed(g, last, owner, pos, sub.value)
    ensures AllRead(g, client, before + last, before + last) && SideListed(g, before + last, owner, pos, subs, above)
  {
    var nodes := before + last;
    ReadMore(g, client, before, before, nodes);
    ReadMore(g, client, last, last, nodes);
    SideMore(g, before, nodes, owner, pos, subs[..|subs| - 1], above);
    SubListedMore(g, last, nodes, owner, pos, subs[|subs| - 1].value);
    SideSnoc(g, nodes, owner, pos, subs, above);
  }

  lemma SideSnoc(g: Graph, nodes: seq<SurfaceNode>, owner: Surface, pos: Point, subs: seq<Option<Subsurface>>, above: bool)
    requires subs != [] && SideListed(g, nodes, owner, pos, subs[..|subs| - 1], above)
    requires var sub := subs[|subs| - 1];
      sub == None || (sub.value.zIndex >= 0) != above || SubListed(g, nodes, owner, pos, sub.value)
    ensures SideListed(g, nodes, owner, pos, subs, above)
  {
    forall j | 0 <= j < |subs| && subs[j].Some? && (subs[j].value.zIndex >= 0) == above
      ensures SubListed(g, nodes, owner, pos, subs[j].value)
    {
      if j < |subs| - 1 { assert subs[..|subs| - 1][j] == subs[j]; }
    }
  }

  /** The list has this surface as a base there. */
  ghost predicate ListedBase(nodes: seq<SurfaceNode>, s: Surface, at: Point, kind: string) {
    exists n :: n in nodes && n.surface == s && n.parent == None && n.offset == at && n.kind == kind
  }

  /** A popup that takes part belongs to the window, and is listed if it shows. */
  ghost predicate PopupListed(g: Graph, root: Surface, nodes: seq<SurfaceNode>, p: Popup) {
    && p.owner == Some(root)
    && (p.surface in g && g[p.surface].mapped && g[p.surface].good ==> ListedBase(nodes, p.surface, p.position, "popup"))
  }

  ghost predicate PopupsListed(g: Graph, root: Surface, shells: Shells, nodes: seq<SurfaceNode>, popups: seq<Popup>) {
    forall i :: 0 <= i < |popups| && popups[i].shown && MappedAncestry(shells, popups[i].shell) ==> PopupListed(g, root, nodes, popups[i])
  }

  lemma {:induction false} ForestReads(g: Graph, root: Surface, shells: Shells, popups: seq<Popup>)
    requires root in g && WindowForest(g, root, shells, popups).Found?
    ensures var nodes := FlattenAll(WindowForest(g, root, shells, popups).value);
      && AllRead(g, g[root].client, nodes, nodes) && ListedBase(nodes, root, Point(0.0, 0.0), "toplevel")
      && PopupsListed(g, root, shells, nodes, popups)
  {
    var ts := WindowForest(g, root, shells, popups).value;
    var nodes := FlattenAll(ts);
    if popups == [] {
      UnfoldReads(g, g[root].client, Some(root), ORIGIN, "toplevel", None, 0);
      OneTree(ts[0]);
      assert ts[0].node in Flatten(ts[0]);
    } else {
      var rest, p := popups[..|popups| - 1], popups[|popups| - 1];
      ForestReads(g, root, shells, rest);
      var front := WindowForest(g, root, shells, rest).value;
      if TakesPart(shells, p) {
        UnfoldReads(g, g[root].client, Some(p.surface), p.position, "popup", None, 0);
        var t := Unfold(g, g[root].client, Some(p.surface), p.position, "popup", None, 0).value;
        assert ts[..|ts| - 1] == front && nodes == FlattenAll(front) + Flatten(t);
        ReadMore(g, g[root].client, FlattenAll(front), FlattenAll(front), nodes);
        ReadMore(g, g[root].client, Flatten(t), Flatten(t), nodes);
        if Shown(g, Some(p.surface)) { assert t.node in Flatten(t) && t.node in nodes; }
        assert PopupListed(g, root, nodes, p);
      }
      PopupsSnoc(g, root, shells, FlattenAll(front), nodes, popups);
    }
  }

  lemma PopupsSnoc(g: Graph, root: Surface, shells: Shells, few: seq<SurfaceNode>, nodes: seq<SurfaceNode>, popups: seq<Popup>)
    requires popups != [] && PopupsListed(g, root, shells, few, popups[..|popups| - 1]) && forall n :: n in few ==> n in nodes
    requires var p := popups[|popups| - 1];
      p.shown && MappedAncestry(shells, p.shell) ==> PopupListed(g, root, nodes, p)
    ensures PopupsListed(g, root, shells, nodes, popups)
  {
    forall i | 0 <= i < |popups| && popups[i].shown && MappedAncestry(shells, popups[i].shell)
      ensures PopupListed(g, root, nodes, popups[i])
    {
      if i < |popups| - 1 {
        assert popups[..|popups| - 1][i] == popups[i];
        assert PopupListed(g, root, few, popups[i]);
      }
    }
  }

  // ------------------------------------------------------- nothing comes in

  lemma {:induction false} InnerHasParent(t: Tree, parent: Option<Surface>, n: SurfaceNode)
    requires Rooted(t, parent) && n in Flatten(t)
    ensures n == t.node || n.parent.Some?
    decreases t, 1
  {
    if n in FlattenAll(t.below) {
      SideHasParent(t.below, t.node.surface, n);
    } else if n in FlattenAll(t.above) {
      SideHasParent(t.above, t.node.surface, n);
    }
  }

  lemma {:induction false} SideHasParent(ts: seq<Tree>, owner: Surface, n: SurfaceNode)
    requires RootedAll(ts, Some(owner)) && n in FlattenAll(ts)
    ensures n.parent.Some?
    decreases ts, 0
  {
    if n in FlattenAll(ts[..|ts| - 1]) {
      SideHasParent(ts[..|ts| - 1], owner, n);
    } else {
      InnerHasParent(ts[|ts| - 1], Some(owner), n);
    }
  }

  /** A base is the toplevel or a popup that takes part. */
  ghost predicate KnownBase(root: Surface, shells: Shells, popups: seq<Popup>, n: SurfaceNode) {
    || (n.surface == root && n.offset == Point(0.0, 0.0) && n.kind == "toplevel")
    || (n.kind == "popup" && exists i :: 0 <= i < |popups| && PopupBase(shells, popups[i], n))
  }

  ghost predicate PopupBase(shells: Shells, p: Popup, n: SurfaceNode) {
    p.shown && MappedAncestry(shells, p.shell) && p.surface == n.surface && p.position == n.offset
  }

  lemma {:induction false} BasesKnown(g: Graph, root: Surface, shells: Shells, popups: seq<Popup>, n: SurfaceNode)
    requires root in g && WindowForest(g, root, shells, popups).Found?
    requires n in FlattenAll(WindowForest(g, root, shells, popups).value) && n.parent == None
    ensures KnownBase(root, shells, popups, n)
  {
    var ts := WindowForest(g, root, shells, popups).value;
    if popups == [] {
      OneTree(ts[0]);
      UnfoldRooted(g, g[root].client, Some(root), ORIGIN, "toplevel", None, 0);
      InnerHasParent(ts[0], None, n);
    } else {
      var rest, p := popups[..|popups| - 1], popups[|popups| - 1];
      var front := WindowForest(g, root, shells, rest).value;
      if n in FlattenAll(front) {
        BasesKnown(g, root, shells, rest, n);
        if n.surface != root || n.offset != Point(0.0, 0.0) || n.kind != "toplevel" {
          var i :| 0 <= i < |rest| && PopupBase(shells, rest[i], n);
          assert PopupBase(shells, popups[i], n);
        }
      } else {
        var t := Unfold(g, g[root].client, Some(p.surface), p.position, "popup", None, 0).value;
        assert ts[..|ts| - 1] == front;
        UnfoldRooted(g, g[root].client, Some(p.surface), p.position, "popup", None, 0);
        InnerHasParent(t, None, n);
        assert PopupBase(shells, popups[|popups| - 1], n);
      }
    }
  }

  /** A returned list is complete: it has the toplevel and every popup that shows and whose
      ancestry is mapped, with each of its surfaces everything that shows below it, each
      where the compositor puts it; and only mapped, good surfaces of the window's client. */
  lemma NothingLeftOut(g: Graph, root: Surface, shells: Shells, popups: seq<Popup>)
    requires root in g && TreesFit(WindowForest(g, root, shells, popups), {}, 0)
    ensures var nodes := FlattenAll(WindowForest(g, root, shells, popups).value);
      && ListedBase(nodes, root, Point(0.0, 0.0), "toplevel")
      && PopupsListed(g, root, shells, nodes, popups)
      && (forall n :: n in nodes ==> NodeReads(g, g[root].client, nodes, n))
      && forall n :: n in nodes && n.parent == None ==> KnownBase(root, shells, popups, n)
  {
    ForestReads(g, root, shells, popups);
    forall n | n in FlattenAll(WindowForest(g, root, shells, popups).value) && n.parent == None
      ensures KnownBase(root, shells, popups, n)
    {
      BasesKnown(g, root, shells, popups, n);
    }
  }

  // --------------------------------------------------------- why it refuses

  /** Where a chain of references leads, each the given one of its surface; None once a
      surface does not show or has no such reference. */
  function End(g: Graph, child: Option<Surface>, path: seq<nat>): Option<Option<Surface>>
    decreases |path|
  {
    if path == [] then Some(child)
    else if child.Some? && child.value in g && g[child.value].mapped && g[child.value].good
            && path[0] < |g[child.value].subs| && g[child.value].subs[path[0]].Some?
    then End(g, g[child.value].subs[path[0]].value.surface, path[1..])
    else None
  }

  /** A reference too deep, or to a showing surface of another client, of no size, with too
      many references, or with one that names another parent. */
  ghost predicate Offends(g: Graph, client: nat, s: Option<Surface>, depth: nat) {
    || depth > 32
    || (&& s.Some? && s.value in g && g[s.value].mapped && g[s.value].good
        && var state := g[s.value];
           || state.client != client || state.size.x <= 0.0 || state.size.y <= 0.0 || |state.subs| > 128
           || exists j :: 0 <= j < |state.subs| && state.subs[j].Some? && state.subs[j].value.parent != s)
  }

  ghost predicate OffendsAt(g: Graph, client: nat, child: Option<Surface>, depth: nat, path: seq<nat>) {
    End(g, child, path).Some? && Offends(g, client, End(g, child, path).value, depth + |path|)
  }

  lemma {:induction false} RefusedOffends(g: Graph, client: nat, child: Option<Surface>, pos: Point, kind: string,
                                          parent: Option<Surface>, depth: nat) returns (path: seq<nat>)
    requires depth <= MAX_DEPTH + 1 && Unfold(g, client, child, pos, kind, parent, depth).Refused?
    ensures OffendsAt(g, client, child, depth, path)
    decreases MAX_DEPTH + 1 - depth, 1, 0
  {
    path := [];
    if !Offends(g, client, child, depth) {
      var s := g[child.value];
      var below := UnfoldSubs(g, client, child.value, pos, s.subs, false, depth);
      if below.Refused? {
        path := SubsOffend(g, client, child.value, pos, s.subs, false, depth);
      } else {
        path := SubsOffend(g, client, child.value, pos, s.subs, true, depth);
      }
    }
  }

  lemma {:induction false} SubsOffend(g: Graph, client: nat, owner: Surface, pos: Point, subs: seq<Option<Subsurface>>,
                                      above: bool, depth: nat) returns (path: seq<nat>)
    requires depth <= MAX_DEPTH && UnfoldSubs(g, client, owner, pos, subs, above, depth).Refused?
    requires owner in g && g[owner].mapped && g[owner].good && subs <= g[owner].subs
    requires forall j :: 0 <= j < |g[owner].subs| && g[owner].subs[j].Some? ==> g[owner].subs[j].value.parent == Some(owner)
    ensures OffendsAt(g, client, Some(owner), depth, path)
    decreases MAX_DEPTH + 1 - depth, 0, |subs|
  {
    var rest, sub := subs[..|subs| - 1], subs[|subs| - 1];
    if UnfoldSubs(g, client, owner, pos, rest, above, depth).Refused? {
      path := SubsOffend(g, client, owner, pos, rest, above, depth);
    } else {
      var i: nat := |subs| - 1;
      assert g[owner].subs[i] == sub;
      var inner := RefusedOffends(g, client, sub.value.surface, Plus(pos, sub.value.position), "subsurface", Some(owner), depth + 1);
      path := [i] + inner;
      assert path[1..] == inner;
    }
  }

  /** One reference of an unfolded list unfolds. */
  lemma {:induction false} SubFound(g: Graph, client: nat, owner: Surface, pos: Point, subs: seq<Option<Subsurface>>,
                                    above: bool, depth: nat, j: nat)
    requires depth <= MAX_DEPTH && UnfoldSubs(g, client, owner, pos, subs, above, depth).Found?
    requires j < |subs| && subs[j].Some? && (subs[j].value.zIndex >= 0) == above
    ensures subs[j].value.parent == Some(owner)
    ensures Unfold(g, client, subs[j].value.surface, Plus(pos, subs[j].value.position), "subsurface", Some(owner), depth + 1).Found?
    decreases |subs|
  {
    if j < |subs| - 1 { SubFound(g, client, owner, pos, subs[..|subs| - 1], above, depth, j); }
  }

  lemma {:induction false} OffenceRefuses(g: Graph, client: nat, child: Option<Surface>, pos: Point, kind: string,
                                          parent: Option<Surface>, depth: nat, path: seq<nat>)
    requires depth <= MAX_DEPTH + 1 && OffendsAt(g, client, child, depth, path)
    ensures Unfold(g, client, child, pos, kind, parent, depth).Refused?
    decreases |path|
  {
    if depth <= MAX_DEPTH && Unfold(g, client, child, pos, kind, parent, depth).Found? {
      if path == [] {
        var s := g[child.value];
        var j :| 0 <= j < |s.subs| && s.subs[j].Some? && s.subs[j].value.parent != child;
        SubFound(g, client, child.value, pos, s.subs, s.subs[j].value.zIndex >= 0, depth, j);
      } else {
        var sub := g[child.value].subs[path[0]].value;
        SubFound(g, client, child.value, pos, g[child.value].subs, sub.zIndex >= 0, depth, path[0]);
        OffenceRefuses(g, client, sub.surface, Plus(pos, sub.position), "subsurface", Some(child.value), depth + 1, path[1..]);
      }
    }
  }

  /** Nothing reached from this base offends. */
  ghost predicate Clean(g: Graph, client: nat, base: Surface) {
    forall path :: !OffendsAt(g, client, Some(base), 0, path)
  }

  lemma UnfoldsExactly(g: Graph, client: nat, base: Surface, pos: Point, kind: string)
    ensures Unfold(g, client, Some(base), pos, kind, None, 0).Found? <==> Clean(g, client, base)
  {
    if Unfold(g, client, Some(base), pos, kind, None, 0).Refused? {
      var path := RefusedOffends(g, client, Some(base), pos, kind, None, 0);
      assert !Clean(g, client, base);
    } else {
      forall path | OffendsAt(g, client, Some(base), 0, path) ensures false {
        OffenceRefuses(g, client, Some(base), pos, kind, None, 0, path);
      }
    }
  }

  /** A popup that takes part is the window's and nothing below it offends. */
  ghost predicate CleanPopup(g: Graph, root: Surface, shells: Shells, p: Popup)
    requires root in g
  {
    p.shown && MappedAncestry(shells, p.shell) ==> p.owner == Some(root) && Clean(g, g[root].client, p.surface)
  }

  lemma {:induction false} ForestExactly(g: Graph, root: Surface, shells: Shells, popups: seq<Popup>)
    requires root in g
    ensures WindowForest(g, root, shells, popups).Found? <==>
      && g[root].mapped && g[root].good && Clean(g, g[root].client, root)
      && forall i :: 0 <= i < |popups| ==> CleanPopup(g, root, shells, popups[i])
  {
    if popups == [] {
      UnfoldsExactly(g, g[root].client, root, ORIGIN, "toplevel");
    } else {
      var rest, p := popups[..|popups| - 1], popups[|popups| - 1];
      ForestExactly(g, root, shells, rest);
      UnfoldsExactly(g, g[root].client, p.surface, p.position, "popup");
      assert forall i :: 0 <= i < |rest| ==> rest[i] == popups[i];
    }
  }

  /** The live references of a list. */
  function References(subs: seq<Option<Subsurface>>): nat {
    if subs == [] then 0 else References(subs[..|subs| - 1]) + (if subs[|subs| - 1].Some? then 1 else 0)
  }

  function OnSide(subs: seq<Option<Subsurface>>, above: bool): nat {
    if subs == [] then 0
    else
      var sub := subs[|subs| - 1];
      OnSide(subs[..|subs| - 1], above) + (if sub.Some? && (sub.value.zIndex >= 0) == above then 1 else 0)
  }

  lemma {:induction false} BothSides(subs: seq<Option<Subsurface>>)
    ensures References(subs) == OnSide(subs, false) + OnSide(subs, true)
  {
    if subs != [] { BothSides(subs[..|subs| - 1]); }
  }

  /** Those of all the surfaces in the list. */
  function AllReferences(g: Graph, nodes: seq<SurfaceNode>): nat {
    if nodes == [] then 0
    else
      var s := nodes[|nodes| - 1].surface;
      AllReferences(g, nodes[..|nodes| - 1]) + (if s in g then References(g[s].subs) else 0)
  }

  lemma {:induction false} AllReferencesAppend(g: Graph, a: seq<SurfaceNode>, b: seq<SurfaceNode>)
    ensures AllReferences(g, a + b) == AllReferences(g, a) + AllReferences(g, b)
    decreases |b|
  {
    if b == [] {
      assert a + b == a;
    } else {
      assert (a + b)[..|a + b| - 1] == a + b[..|b| - 1];
      AllReferencesAppend(g, a, b[..|b| - 1]);
    }
  }

  lemma AllReferencesOne(g: Graph, n: SurfaceNode)
    requires n.surface in g
    ensures AllReferences(g, [n]) == References(g[n.surface].subs)
  {
    assert [n][..0] == [];
  }

  lemma {:induction false} VisitsOf(g: Graph, client: nat, child: Option<Surface>, pos: Point, kind: string,
                                    parent: Option<Surface>, depth: nat)
    requires depth <= MAX_DEPTH + 1 && Unfold(g, client, child, pos, kind, parent, depth).Found?
    ensures var t := Unfold(g, client, child, pos, kind, parent, depth).value;
      Visits(t) == 1 + AllReferences(g, Flatten(t))
    decreases MAX_DEPTH + 1 - depth, 1, 0
  {
    if Shown(g, child) {
      var t := Unfold(g, client, child, pos, kind, parent, depth).value;
      var subs := g[child.value].subs;
      SideVisits(g, client, child.value, pos, subs, false, depth);
      SideVisits(g, client, child.value, pos, subs, true, depth);
      BothSides(subs);
      AllReferencesAppend(g, FlattenAll(t.below) + [t.node], FlattenAll(t.above));
      AllReferencesAppend(g, FlattenAll(t.below), [t.node]);
      AllReferencesOne(g, t.node);
    }
  }

  lemma {:induction false} SideVisits(g: Graph, client: nat, owner: Surface, pos: Point, subs: seq<Option<Subsurface>>,
                                      above: bool, depth: nat)
    requires depth <= MAX_DEPTH && UnfoldSubs(g, client, owner, pos, subs, above, depth).Found?
    ensures var ts := UnfoldSubs(g, client, owner, pos, subs, above, depth).value;
      VisitsAll(ts) == OnSide(subs, above) + AllReferences(g, FlattenAll(ts))
    decreases MAX_DEPTH + 1 - depth, 0, |subs|
  {
    if subs != [] {
      var rest, sub := subs[..|subs| - 1], subs[|subs| - 1];
      LastUnfolded(g, client, owner, pos, subs, above, depth);
      SideVisits(g, client, owner, pos, rest, above, depth);
      if sub.Some? && (sub.value.zIndex >= 0) == above {
        var front := UnfoldSubs(g, client, owner, pos, rest, above, depth).value;
        var at := Plus(pos, sub.value.position);
        VisitsOf(g, client, sub.value.surface, at, "subsurface", Some(owner), depth + 1);
        var t := Unfold(g, client, sub.value.surface, at, "subsurface", Some(owner), depth + 1).value;
        TreesMoreFlat(front, t);
        AllReferencesAppend(g, FlattenAll(front), Flatten(t));
      }
    }
  }

  /** The popups that take part. */
  ghost function Taking(shells: Shells, popups: seq<Popup>): nat {
    if popups == [] then 0
    else
      var p := popups[|popups| - 1];
      Taking(shells, popups[..|popups| - 1]) + (if p.shown && MappedAncestry(shells, p.shell) then 1 else 0)
  }

  lemma {:induction false} ForestVisits(g: Graph, root: Surface, shells: Shells, popups: seq<Popup>)
    requires root in g && WindowForest(g, root, shells, popups).Found?
    ensures var ts := WindowForest(g, root, shells, popups).value;
      VisitsAll(ts) == 1 + Taking(shells, popups) + AllReferences(g, FlattenAll(ts))
  {
    var ts := WindowForest(g, root, shells, popups).value;
    if popups == [] {
      OneTree(ts[0]);
      VisitsOf(g, g[root].client, Some(root), ORIGIN, "toplevel", None, 0);
    } else {
      var rest, p := popups[..|popups| - 1], popups[|popups| - 1];
      ForestVisits(g, root, shells, rest);
      if TakesPart(shells, p) {
        VisitsOf(g, g[root].client, Some(p.surface), p.position, "popup", None, 0);
        assert ts[..|ts| - 1] == WindowForest(g, root, shells, rest).value;
        AllReferencesAppend(g, FlattenAll(WindowForest(g, root, shells, rest).value), Flatten(ts[|ts| - 1]));
      }
    }
  }

  /** Discovery is refused exactly for a cause on the objects: the toplevel does not show;
      a popup that takes part is another window's; a reference from a base leads to something
      that offends; a surface is met twice; or the bases and all live references below them
      are more than 128. */
  lemma RefusedForCause(g: Graph, root: Surface, shells: Shells, popups: seq<Popup>)
    requires root in g
    ensures TreesFit(WindowForest(g, root, shells, popups), {}, 0) <==>
      && g[root].mapped && g[root].good && Clean(g, g[root].client, root)
      && (forall i :: 0 <= i < |popups| ==> CleanPopup(g, root, shells, popups[i]))
      && WindowForest(g, root, shells, popups).Found?
      && Distinct(FlattenAll(WindowForest(g, root, shells, popups).value))
      && 1 + Taking(shells, popups) + AllReferences(g, FlattenAll(WindowForest(g, root, shells, popups).value)) <= 128
  {
    ForestExactly(g, root, shells, popups);
    if WindowForest(g, root, shells, popups).Found? {
      ForestVisits(g, root, shells, popups);
      NewMeans(FlattenAll(WindowForest(g, root, shells, popups).value), {});
    }
  }
}
