/** Names handed out for surfaces. A name is a selector, never authority: it must lead back
    to the one surface it was minted for, or nowhere. */
module SurfaceHandles {
  import opened Common
  import opened SurfaceModel
  import R = SurfaceRouting

  datatype Handle = Handle(root: Surface, surface: Surface)

  /** Ids are the counter value behind the fixed epoch prefix. */
  datatype Table = Table(entries: map<nat, Handle>, next: nat)

  const MAX_HANDLES := 4096

  predicate Alive(live: set<Surface>, h: Handle) {
    h.root in live && h.surface in live
  }

  function Kept(entries: map<nat, Handle>, live: set<Surface>): map<nat, Handle> {
    map id | id in entries && Alive(live, entries[id]) :: entries[id]
  }

  ghost predicate HasName(entries: map<nat, Handle>, h: Handle) {
    exists id :: id in entries && entries[id] == h
  }

  /** What asking for a name may answer, and the table it leaves. */
  ghost predicate Identified(t: Table, live: set<Surface>, h: Handle, answer: Option<nat>, t': Table) {
    var kept := Kept(t.entries, live);
    if HasName(kept, h) then
      && t' == Table(kept, t.next)
      && answer.Some? && answer.value in kept && kept[answer.value] == h
    else if |kept| >= MAX_HANDLES then
      t' == Table(kept, t.next) && answer == None
    else
      t' == Table(kept[t.next + 1 := h], t.next + 1) && answer == Some(t.next + 1)
  }

  function Resolved(t: Table, live: set<Surface>, id: nat, root: Surface, current: seq<SurfaceNode>): Option<Surface> {
    if id !in t.entries || t.entries[id].root !in live || t.entries[id].root != root then None
    else if t.entries[id].surface !in live || t.entries[id].surface !in Surfaces(current) then None
    else Some(t.entries[id].surface)
  }

  class SurfaceHandles {
    var entries: map<nat, Handle>
    var next: nat

    function View(): Table
      reads this
    {
      Table(entries, next)
    }

    constructor ()
      ensures View() == Table(map[], 0)
    {
      entries, next := map[], 0;
    }

    method Identify(root: Surface, surface: Surface, live: set<Surface>) returns (answer: Option<nat>)
      requires root in live && surface in live
      modifies this
      ensures Identified(old(View()), live, Handle(root, surface), answer, View())
      // the dead go, and nothing else does
      ensures forall id :: id in old(entries) && id != old(next) + 1 ==>
        (id in entries <==> old(entries)[id].root in live && old(entries)[id].surface in live)
      ensures forall id :: id in old(entries) && id in entries && id != old(next) + 1 ==> entries[id] == old(entries)[id]
      // a name is for this pair; a new one is new, and refused only when the table is full
      ensures answer.Some? ==> answer.value in entries && entries[answer.value] == Handle(root, surface)
      ensures forall id :: id in entries && id !in old(entries) ==> answer == Some(id) && id == next == old(next) + 1
      ensures answer == None ==> |entries| >= 4096 && forall id :: id in entries ==> entries[id] != Handle(root, surface)
    {
      entries := map id | id in entries && entries[id].root in live && entries[id].surface in live :: entries[id];
      assert entries == Kept(old(entries), live);
      var ids := entries.Keys;
      while ids != {}
        invariant ids <= entries.Keys
        invariant forall id :: id in entries && id !in ids ==> entries[id] != Handle(root, surface)
        invariant View() == Table(Kept(old(entries), live), old(next))
      {
        var id :| id in ids;
        if entries[id] == Handle(root, surface) {
          return Some(id);
        }
        ids := ids - {id};
      }
      if |entries| >= MAX_HANDLES {
        return None;
      }
      next := next + 1;
      entries := entries[next := Handle(root, surface)];
      return Some(next);
    }

    method Resolve(id: nat, root: Surface, current: seq<SurfaceNode>, live: set<Surface>) returns (surface: Option<Surface>)
      requires root in live
      ensures surface == Resolved(View(), live, id, root, current)
      ensures surface.Some? <==>
        && id in entries && entries[id].root == root && entries[id].surface in live
        && exists n :: n in current && n.surface == entries[id].surface
      ensures surface.Some? ==> surface.value == entries[id].surface
    {
      if id !in entries || entries[id].root !in live || entries[id].root != root {
        return None;
      }
      var found := if entries[id].surface in live then Some(entries[id].surface) else None;
      if !R.TreeContains(current, found) {
        return None;
      }
      return found;
    }
  }

  // ------------------------------------------------------------------- runs

  /** Surfaces come and go, and no identity comes back; `minted` remembers every answer. */
  datatype World = World(live: set<Surface>, born: set<Surface>, table: Table, minted: map<nat, Handle>)

  datatype Event =
    | Birth(surface: Surface)
    | Death(surface: Surface)
    | Identify(handle: Handle, answer: Option<nat>)
    | Resolve(id: nat, root: Surface, current: seq<SurfaceNode>, result: Option<Surface>)

  ghost predicate Next(w: World, e: Event, w': World) {
    match e
    case Birth(s) => s !in w.born && w' == w.(live := w.live + {s}, born := w.born + {s})
    case Death(s) => s in w.live && w' == w.(live := w.live - {s})
    case Identify(h, answer) =>
      && Alive(w.live, h)
      && Identified(w.table, w.live, h, answer, w'.table)
      && w' == w.(table := w'.table, minted := if answer.Some? then w.minted[answer.value := h] else w.minted)
    case Resolve(id, root, current, result) =>
      root in w.live && result == Resolved(w.table, w.live, id, root, current) && w' == w
  }

  ghost predicate IsRun(ws: seq<World>, es: seq<Event>) {
    && |ws| == |es| + 1
    && ws[0] == World({}, {}, Table(map[], 0), map[])
    && forall i :: 0 <= i < |es| ==> StepAt(ws, es, i)
  }

  ghost predicate StepAt(ws: seq<World>, es: seq<Event>, i: nat)
    requires i < |es| && |ws| == |es| + 1
  {
    Next(ws[i], es[i], ws[i + 1])
  }

  ghost predicate Inv(w: World) {
    && w.live <= w.born
    && |w.table.entries| <= MAX_HANDLES
    && (forall id :: id in w.table.entries ==> id in w.minted && w.minted[id] == w.table.entries[id])
    && (forall id :: id in w.minted ==> id <= w.table.next && Alive(w.born, w.minted[id]))
    && (forall id :: id in w.minted && Alive(w.live, w.minted[id]) ==> id in w.table.entries)
    && (forall a, b :: a in w.table.entries && b in w.table.entries && w.table.entries[a] == w.table.entries[b] ==> a == b)
  }

  lemma KeptSmaller(entries: map<nat, Handle>, live: set<Surface>)
    ensures |Kept(entries, live)| <= |entries|
  {
    R.SubsetBound(Kept(entries, live).Keys, entries.Keys);
    assert |Kept(entries, live).Keys| == |Kept(entries, live)| && |entries.Keys| == |entries|;
  }

  lemma KeptInv(w: World)
    requires Inv(w)
    ensures Inv(w.(table := Table(Kept(w.table.entries, w.live), w.table.next)))
  {
    KeptSmaller(w.table.entries, w.live);
  }

  lemma MintInv(w: World, h: Handle)
    requires Inv(w) && Alive(w.live, h) && !HasName(w.table.entries, h) && |w.table.entries| < MAX_HANDLES
    ensures Inv(w.(table := Table(w.table.entries[w.table.next + 1 := h], w.table.next + 1),
                   minted := w.minted[w.table.next + 1 := h]))
  {
    var id := w.table.next + 1;
    assert id !in w.table.entries;
    assert |w.table.entries[id := h]| == |w.table.entries| + 1;
  }

  /** Asking for a name once the dead entries are out. */
  lemma AnswerInv(w: World, h: Handle, answer: Option<nat>, w': World)
    requires Inv(w) && Alive(w.live, h) && Kept(w.table.entries, w.live) == w.table.entries
    requires Next(w, Identify(h, answer), w')
    ensures Inv(w')
  {
    if HasName(w.table.entries, h) {
      assert w'.minted == w.minted;
    } else if |w.table.entries| < MAX_HANDLES {
      MintInv(w, h);
    }
  }

  function Swept(w: World): World {
    w.(table := Table(Kept(w.table.entries, w.live), w.table.next))
  }

  lemma SweepFirst(w: World, h: Handle, answer: Option<nat>, w': World)
    requires Next(w, Identify(h, answer), w')
    ensures Kept(Swept(w).table.entries, w.live) == Swept(w).table.entries
    ensures Next(Swept(w), Identify(h, answer), w')
  {
    KeptTwice(w.table.entries, w.live);
  }

  /** Asking for a name only drops dead entries and perhaps adds one. */
  lemma IdentifyInv(w: World, h: Handle, answer: Option<nat>, w': World)
    requires Inv(w) && Next(w, Identify(h, answer), w')
    ensures Inv(w')
  {
    assert Inv(Swept(w)) by { KeptInv(w); }
    SweepFirst(w, h, answer, w');
    AnswerInv(Swept(w), h, answer, w');
  }

  lemma KeptTwice(entries: map<nat, Handle>, live: set<Surface>)
    ensures Kept(Kept(entries, live), live) == Kept(entries, live)
  {
  }

  /** What every step keeps of the names given, and of the dead. */
  ghost predicate Grows(w: World, w': World) {
    && w.born <= w'.born && w.born - w.live <= w'.born - w'.live
    && (forall id :: id in w.minted ==> id in w'.minted && w'.minted[id] == w.minted[id])
  }

  lemma InvStep(w: World, e: Event, w': World)
    requires Inv(w) && Next(w, e, w')
    ensures Inv(w') && Grows(w, w')
    ensures forall id :: id in w'.minted && id !in w.minted ==> e == Identify(w'.minted[id], Some(id))
  {
    if e.Identify? { IdentifyInv(w, e.handle, e.answer, w'); }
  }

  /** Along a run names stay, and what died stays dead. */
  lemma {:induction false} RunKeeps(ws: seq<World>, es: seq<Event>, i: nat, j: nat)
    requires IsRun(ws, es) && i <= j <= |es|
    ensures Inv(ws[i]) && Inv(ws[j])
    ensures Grows(ws[i], ws[j])
    decreases j
  {
    if i < j {
      RunKeeps(ws, es, i, j - 1);
      assert StepAt(ws, es, j - 1);
      InvStep(ws[j - 1], es[j - 1], ws[j]);
    } else if j > 0 {
      RunKeeps(ws, es, j - 1, j - 1);
      assert StepAt(ws, es, j - 1);
      InvStep(ws[j - 1], es[j - 1], ws[j]);
    }
  }

  lemma TableBounded(ws: seq<World>, es: seq<Event>, i: nat)
    requires IsRun(ws, es) && i <= |es|
    ensures |ws[i].table.entries| <= MAX_HANDLES
  {
    RunKeeps(ws, es, i, i);
  }

  /** A given name means its pair from then on. */
  lemma Remembered(ws: seq<World>, es: seq<Event>, i: nat, j: nat)
    requires IsRun(ws, es) && i < j <= |es| && es[i].Identify? && es[i].answer.Some?
    ensures Inv(ws[j]) && es[i].answer.value in ws[j].minted && ws[j].minted[es[i].answer.value] == es[i].handle
  {
    assert StepAt(ws, es, i);
    RunKeeps(ws, es, i + 1, j);
  }

  /** A name, once given for a pair, is never given for another, and while the pair lives
      it is the only answer for it. */
  lemma NamesAreFaithful(ws: seq<World>, es: seq<Event>, i: nat, j: nat)
    requires IsRun(ws, es) && i < j < |es|
    requires es[i].Identify? && es[i].answer.Some? && es[j].Identify?
    ensures es[j].answer == es[i].answer <==> es[j].handle == es[i].handle
  {
    Remembered(ws, es, i, j);
    assert StepAt(ws, es, j);
    var kept, id := Kept(ws[j].table.entries, ws[j].live), es[i].answer.value;
    if es[j].handle == es[i].handle {
      assert id in kept;
    }
  }

  /** A given name resolves exactly under its root, while the surface lives and is in the
      current tree, and then to the surface it was given for. */
  lemma NamesResolve(ws: seq<World>, es: seq<Event>, i: nat, j: nat)
    requires IsRun(ws, es) && i < j < |es|
    requires es[i].Identify? && es[i].answer.Some? && es[j].Resolve? && Some(es[j].id) == es[i].answer
    ensures var h := es[i].handle;
      es[j].result == (if es[j].root == h.root && h.surface in ws[j].live && h.surface in Surfaces(es[j].current)
                       then Some(h.surface) else None)
  {
    Remembered(ws, es, i, j);
    assert StepAt(ws, es, j);
  }

  /** Whatever resolves was minted earlier in the run, for that very pair. */
  lemma {:induction false} MintedEarlier(ws: seq<World>, es: seq<Event>, j: nat, id: nat) returns (i: nat)
    requires IsRun(ws, es) && j <= |es| && id in ws[j].minted
    ensures i < j && es[i] == Identify(ws[j].minted[id], Some(id))
    decreases j
  {
    RunKeeps(ws, es, j - 1, j);
    if id in ws[j - 1].minted {
      i := MintedEarlier(ws, es, j - 1, id);
    } else {
      i := j - 1;
      assert StepAt(ws, es, i);
      InvStep(ws[i], es[i], ws[j]);
    }
  }

  lemma ResolvedWasMinted(ws: seq<World>, es: seq<Event>, j: nat) returns (i: nat)
    requires IsRun(ws, es) && j < |es| && es[j].Resolve? && es[j].result.Some?
    ensures i < j && es[i] == Identify(Handle(es[j].root, es[j].result.value), Some(es[j].id))
    ensures es[j].result.value in ws[j].live && es[j].result.value in Surfaces(es[j].current)
  {
    RunKeeps(ws, es, j, j);
    assert StepAt(ws, es, j);
    i := MintedEarlier(ws, es, j, es[j].id);
  }
}
