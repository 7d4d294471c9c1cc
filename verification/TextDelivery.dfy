/** Text end to end: the broker sends it to the guard chunk by chunk over a link that may
    lose requests and replies, and counts what was acknowledged. */
module TextDelivery {
  import opened Common
  import opened SurfaceModel
  import opened Compositor
  import opened TextInput
  import InputOperations

  /** What a client reads from a press through one of its keyboard objects. */
  function Reads(p: Press, r: Resource): Option<bv32> {
    if r in p.keymaps && p.keymaps[r].Carrier? then Typed(p.keymaps[r].keymap, p.code) else None
  }

  /** Press `i` spells its character on this keyboard object. */
  ghost predicate SpellsAt(sent: seq<Press>, target: Surface, r: Resource, runes: seq<Rune>, i: nat)
    requires i < |sent| && i < |runes|
  {
    sent[i].surface == Some(target) && Reads(sent[i], r) == Some(runes[i])
  }

  /** The presses spell the first characters of the text, to the target, on every keyboard
      object its client has. */
  ghost predicate Spells(sent: seq<Press>, target: Surface, bound: map<Surface, seq<Resource>>, runes: seq<Rune>) {
    && |sent| <= |runes|
    && (sent != [] ==> target in bound && bound[target] != [])
    && forall i: nat, r :: i < |sent| && target in bound && r in bound[target] ==> SpellsAt(sent, target, r, runes, i)
  }

  lemma ChunkSpells(sent: seq<Press>, target: Surface, bound: map<Surface, seq<Resource>>, chunk: seq<Rune>)
    requires sent != [] ==> target in bound && bound[target] != [] && InputOperations.Sent(sent, target, bound[target], chunk, |sent|)
    ensures Spells(sent, target, bound, chunk)
  {
    if sent != [] { KeymapRoundTrip(chunk, 0); }
  }

  lemma SpellsMore(before: seq<Press>, more: seq<Press>, target: Surface, bound: map<Surface, seq<Resource>>,
                   runes: seq<Rune>, start: nat, end: nat)
    requires start <= end <= |runes| && |before| == start
    requires Spells(before, target, bound, runes) && Spells(more, target, bound, runes[start..end])
    ensures Spells(before + more, target, bound, runes)
  {
    forall i: nat, r | i < |before + more| && target in bound && r in bound[target]
      ensures SpellsAt(before + more, target, r, runes, i)
    {
      if i < start {
        assert SpellsAt(before, target, r, runes, i);
      } else {
        assert SpellsAt(more, target, r, runes[start..end], i - start);
      }
    }
  }

  /** The guard's answer to a chunk, as parsed. */
  datatype Reply = Reply(ok: bool, completed: Option<int>)

  datatype Result = Acknowledged | Stopped(completed: nat) | Unreported

  /** The broker's reading of a reply, None when the exchange failed. */
  method ReadReply(reply: Option<Reply>, count: nat) returns (result: Result)
    ensures result == Acknowledged <==> reply == Some(Reply(true, Some(count)))
    ensures result.Stopped? <==>
      reply.Some? && !reply.value.ok && (reply.value.completed == None || 0 <= reply.value.completed.value <= count)
    ensures result.Stopped? ==> result.completed == (if reply.value.completed == None then 0 else reply.value.completed.value)
  {
    if reply == None { return Unreported; }
    var completed := if reply.value.completed.Some? then reply.value.completed.value else 0;
    if completed < 0 || completed > count || (reply.value.ok && (reply.value.completed == None || completed != count)) {
      return Unreported;
    }
    if !reply.value.ok { return Stopped(completed); }
    return Acknowledged;
  }

  /** What becomes of one request to the guard: whether authority still allows it, whether
      it arrives, is refused before any effect, finds the seat busy, gets its keymap made,
      and loses its reply. */
  datatype Fate = Fate(allowed: bool, arrives: bool, refused: bool, busy: bool, carrierMade: bool, replyLost: bool)

  predicate Smooth(f: Fate) {
    f.allowed && f.arrives && !f.refused && !f.busy && f.carrierMade && !f.replyLost
  }

  /** Nothing went wrong on the seat: no call threw and no surface went away. */
  twostate predicate Undisturbed(seat: Seat)
    reads seat
  {
    seat.throws == old(seat.throws) && seat.alive == old(seat.alive) && seat.good == old(seat.good)
  }

  /** The seat can take keys for this target: it has a keyboard, no fault and no half-dead
      surface, and the target is there with a keyboard object. */
  predicate Ready(seat: Seat, target: Surface)
    reads seat
  {
    && !seat.faulted && seat.keyboard.Some? && seat.alive <= seat.good
    && target in seat.alive && target in seat.bound && seat.bound[target] != []
  }

  /** What was acknowledged leaves the devices and sets no fault. */
  twostate predicate Kept(seat: Seat)
    reads seat
  {
    seat.keyboard == old(seat.keyboard) && seat.mouse == old(seat.mouse) && seat.faulted == old(seat.faulted)
  }

  /** One chunk over the link. */
  method Exchange(seat: Seat, target: Surface, agent: Option<Keyboard>, chunk: seq<Rune>, fate: Fate)
    returns (result: Result, ghost sent: seq<Press>)
    requires seat.Inv() && (agent.Some? ==> agent.value.Device?) && 1 <= |chunk| <= CHUNK
    modifies seat
    ensures seat.pointed == old(seat.pointed) && seat.Later()
    ensures seat.Inv() && seat.presses == old(seat.presses) + sent && Spells(sent, target, seat.bound, chunk)
    ensures result == Acknowledged ==> |sent| == |chunk| && Kept(seat)
    ensures result.Stopped? ==> result.completed <= |sent| <= result.completed + 1
    ensures !fate.arrives || fate.refused ==> sent == []
    ensures Smooth(fate) && agent.Some? && Acceptable(chunk) && old(Ready(seat, target)) && Undisturbed(seat) ==> result == Acknowledged
  {
    var reply: Option<Reply>;
    sent := [];
    if !fate.arrives {
      reply := None;
    } else if fate.refused {
      reply := Some(Reply(false, Some(0)));
    } else {
      var t, ok, completed;
      t, ok, completed, sent :=
        InputOperations.TextTransaction(seat, target, fate.busy, NO_MODIFIERS, agent, chunk, fate.carrierMade);
      ChunkSpells(sent, target, seat.bound, chunk);
      reply := if ok then Some(Reply(true, Some(|chunk|))) else Some(Reply(false, Some(completed)));
    }
    if fate.replyLost { reply := None; }
    result := ReadReply(reply, |chunk|);
  }

  datatype Ending = Completed | Withheld | Reported | Lost

  predicate Accepted(runes: seq<Rune>) {
    forall r :: r in runes ==> IsScalar(r) && !RefusedControl(r)
  }

  /** The next chunk of a text, of which `before` was sent. */
  method SendChunk(seat: Seat, target: Surface, agent: Option<Keyboard>, runes: seq<Rune>, start: nat, fate: Fate,
                   ghost before: seq<Press>) returns (result: Result, ghost more: seq<Press>)
    requires seat.Inv() && (agent.Some? ==> agent.value.Device?) && start < |runes|
    requires |before| == start && Spells(before, target, seat.bound, runes)
    modifies seat
    ensures seat.pointed == old(seat.pointed) && seat.Later()
    ensures seat.Inv() && seat.presses == old(seat.presses) + more && Spells(before + more, target, seat.bound, runes)
    ensures |more| <= CHUNK && (result == Acknowledged ==> start + |more| == (if start + CHUNK < |runes| then start + CHUNK else |runes|))
    ensures result == Acknowledged ==> Kept(seat)
    ensures result.Stopped? ==> result.completed <= |more| <= result.completed + 1
    ensures !fate.arrives || fate.refused ==> more == []
    ensures Smooth(fate) && agent.Some? && Accepted(runes) && old(Ready(seat, target)) && Undisturbed(seat) ==> result == Acknowledged
  {
    var end := if start + CHUNK < |runes| then start + CHUNK else |runes|;
    if Accepted(runes) { EveryChunkAccepted(runes, start); }
    result, more := Exchange(seat, target, agent, runes[start..end], fate);
    SpellsMore(before, more, target, seat.bound, runes, start, end);
  }

  /** The chunk loop; `fates` tells what becomes of each chunk. Whatever happens, what was
      sent spells a prefix of the text, and nothing of a chunk without a check of its own;
      with a reply the count is right up to one last key, and a lost one hides at most a
      chunk. When nothing goes wrong all of it is sent. */
  method DeliverText(seat: Seat, target: Surface, agent: Option<Keyboard>, runes: seq<Rune>, fates: nat -> Fate)
    returns (ending: Ending, characters: nat, ghost sent: seq<Press>)
    requires seat.Inv() && (agent.Some? ==> agent.value.Device?)
    modifies seat
    ensures seat.pointed == old(seat.pointed) && seat.Later()
    ensures seat.Inv() && seat.presses == old(seat.presses) + sent && Spells(sent, target, seat.bound, runes)
    ensures ending == Completed ==> characters == |sent| == |runes|
    ensures ending == Withheld ==> characters == |sent| && characters < |runes| && !fates(characters / 48).allowed
    ensures ending == Reported ==> characters <= |sent| <= characters + 1
    ensures ending == Lost ==> characters <= |sent| <= characters + 48
    ensures forall c: nat :: c * 48 < |sent| ==> fates(c).allowed && fates(c).arrives && !fates(c).refused
    ensures ending == Completed ==> Kept(seat)
    ensures (forall c :: Smooth(fates(c))) && agent.Some? && Accepted(runes) && old(Ready(seat, target)) && Undisturbed(seat)
      ==> ending == Completed
  {
    characters, sent := 0, [];
    var start, n := 0, 0;
    while start < |runes|
      invariant start == n * CHUNK && characters == |sent| == (if start < |runes| then start else |runes|)
      invariant seat.Inv() && seat.presses == old(seat.presses) + sent && Spells(sent, target, seat.bound, runes)
      invariant seat.pointed == old(seat.pointed) && seat.Later() && Kept(seat)
      invariant forall c: nat :: c < n ==> fates(c).allowed && fates(c).arrives && !fates(c).refused
      decreases |runes| - start
    {
      if !fates(n).allowed { return Withheld, characters, sent; } // authority is checked again before every chunk
      var result;
      ghost var more;
      result, more := SendChunk(seat, target, agent, runes, start, fates(n), sent);
      sent := sent + more;
      match result {
        case Unreported => return Lost, characters, sent;
        case Stopped(completed) => return Reported, characters + completed, sent;
        case Acknowledged =>
      }
      characters := characters + (if start + CHUNK < |runes| then CHUNK else |runes| - start);
      start, n := start + CHUNK, n + 1;
    }
    return Completed, characters, sent;
  }

  // ------------------------------------------------------------ whole batches

  /** An action of an input request. A gesture has its own surface and path, as planned from
      its coordinates, and a path has a first point. */
  datatype Action =
    | Focus
    | Characters(runes: seq<Rune>)
    | Stroke(code: nat, modifiers: nat)
    | Gesture(on: Surface, kind: InputOperations.Kind, points: seq<Point>, button: nat, clicks: nat, mods: nat, axes: nat)

  predicate WellFormed(a: Action) { a.Gesture? ==> a.points != [] }

  /** What went out for an action: key presses and pointer events. */
  datatype Part = Part(presses: seq<Press>, pointed: seq<Pointed>)

  /** All of a gesture went to its surface, under its modifiers if it has any. */
  ghost predicate Gestured(pointed: seq<Pointed>, on: Surface, kind: InputOperations.Kind, points: seq<Point>,
                           button: nat, clicks: nat, mods: nat, axes: nat)
    requires points != []
  {
    && pointed != []
    && var aim := pointed[0].aim;
       && aim.surface == Some(on) && (mods != 0 ==> aim.mods == Modifiers(mods, 0, 0, 0))
       && InputOperations.GestureEvents(aim, kind, points, button, clicks, axes) <= pointed
  }

  /** What goes out for an action that was acknowledged. A gesture is followed by what puts
      the pointer back. */
  ghost predicate Done(sent: Part, target: Surface, bound: map<Surface, seq<Resource>>, a: Action)
    requires WellFormed(a)
  {
    match a
    case Focus => sent == Part([], [])
    case Characters(runes) => |sent.presses| == |runes| && Spells(sent.presses, target, bound, runes) && sent.pointed == []
    case Stroke(code, modifiers) =>
      |sent.presses| == 1 && InputOperations.IsPress(sent.presses[0], target, code, modifiers) && sent.pointed == []
    case Gesture(on, kind, points, button, clicks, mods, axes) =>
      sent.presses == [] && Gestured(sent.pointed, on, kind, points, button, clicks, mods, axes)
  }

  /** What went out for the action that failed, against the characters reported for it. */
  ghost predicate Partial(sent: Part, target: Surface, bound: map<Surface, seq<Resource>>, a: Action, characters: nat) {
    match a
    case Focus => characters == 0 && sent == Part([], [])
    case Characters(runes) =>
      Spells(sent.presses, target, bound, runes) && characters <= |sent.presses| <= characters + CHUNK && sent.pointed == []
    case Stroke(code, modifiers) =>
      && characters == 0 && |sent.presses| <= 1 && sent.pointed == []
      && forall p :: p in sent.presses ==> InputOperations.IsPress(p, target, code, modifiers)
    case Gesture(_, _, _, _, _, _, _) => characters == 0 && sent.presses == []
  }

  function Plus(a: Part, b: Part): Part {
    Part(a.presses + b.presses, a.pointed + b.pointed)
  }

  function Joined(parts: seq<Part>): Part {
    if parts == [] then Part([], []) else Plus(Joined(parts[..|parts| - 1]), parts[|parts| - 1])
  }

  /** What a seat has sent so far. */
  ghost function SentBy(seat: Seat): Part
    reads seat
  {
    Part(seat.presses, seat.pointed)
  }

  /** One key over the link. */
  method ExchangeKey(seat: Seat, target: Surface, agent: Option<Keyboard>, code: nat, modifiers: nat, fate: Fate)
    returns (acknowledged: bool, ghost sent: Part)
    requires seat.Inv() && (agent.Some? ==> agent.value.Device?)
    modifies seat
    ensures seat.Inv() && SentBy(seat) == Plus(old(SentBy(seat)), sent) && seat.Later()
    ensures Partial(sent, target, seat.bound, Stroke(code, modifiers), 0)
    ensures acknowledged ==> Done(sent, target, seat.bound, Stroke(code, modifiers)) && Kept(seat)
    ensures !fate.allowed || !fate.arrives || fate.refused ==> sent == Part([], [])
    ensures Smooth(fate) && agent.Some? && old(Able(seat)) && Undisturbed(seat) && Reached(seat, target) && !seat.faulted ==> acknowledged
  {
    acknowledged, sent := false, Part([], []);
    if !fate.allowed || !fate.arrives || fate.refused { return; }
    var t, ok;
    ghost var presses;
    t, ok, presses := InputOperations.KeyTransaction(seat, target, fate.busy, NO_MODIFIERS, agent, code, modifiers);
    sent := Part(presses, []);
    acknowledged := ok && !fate.replyLost;
  }

  /** What the compositor has for pointer transactions: its views and the agent's device. */
  datatype Pointing = Pointing(views: InputOperations.Views, pointer: Option<nat>)

  predicate HasPointer(p: Pointing) {
    p.views.targetKnown && !p.views.constrained && p.views.oldBox.Some? && p.pointer.Some?
  }

  /** One gesture over the link. */
  method ExchangeGesture(seat: Seat, agent: Option<Keyboard>, a: Action, p: Pointing, fate: Fate)
    returns (acknowledged: bool, ghost sent: Part)
    requires seat.Inv() && (agent.Some? ==> agent.value.Device?) && a.Gesture? && WellFormed(a)
    modifies seat
    ensures seat.Inv() && SentBy(seat) == Plus(old(SentBy(seat)), sent) && seat.Later() && sent.presses == []
    ensures acknowledged ==>
      Gestured(sent.pointed, a.on, a.kind, a.points, a.button, a.clicks, a.mods, a.axes) && Kept(seat)
    ensures !fate.allowed || !fate.arrives || fate.refused ==> sent == Part([], [])
    ensures Smooth(fate) && agent.Some? && HasPointer(p) && old(Able(seat)) && Undisturbed(seat) && Takes(seat, a.on, a) && !seat.faulted
      ==> acknowledged
  {
    acknowledged, sent := false, Part([], []);
    if !fate.allowed || !fate.arrives || fate.refused { return; }
    var t, ok := InputOperations.PointerTransaction(seat, a.on, fate.busy, NO_MODIFIERS, p.views, agent, p.pointer,
                                                    a.kind, a.points, a.button, a.clicks, a.mods, a.axes);
    sent := Part([], seat.pointed[|old(seat.pointed)|..]);
    acknowledged := ok && !fate.replyLost;
  }

  /** One activation over the link. */
  method ExchangeFocus(seat: Seat, fate: Fate) returns (acknowledged: bool)
    requires seat.Inv()
    modifies seat
    ensures seat.Inv() && SentBy(seat) == old(SentBy(seat)) && seat.Later()
    ensures acknowledged ==> Kept(seat)
    ensures Smooth(fate) && old(Able(seat)) && Undisturbed(seat) ==> acknowledged
  {
    if !fate.allowed || !fate.arrives || fate.refused { return false; }
    var ok := InputOperations.FocusWindow(seat, fate.busy);
    acknowledged := ok && !fate.replyLost;
  }

  /** The seat has its devices and no fault. */
  predicate Able(seat: Seat)
    reads seat
  {
    !seat.faulted && seat.keyboard.Some? && seat.mouse.Some? && seat.alive <= seat.good
  }

  predicate Reached(seat: Seat, target: Surface)
    reads seat
  {
    target in seat.alive && target in seat.bound && seat.bound[target] != []
  }

  /** The surface can take what the action sends. */
  predicate Takes(seat: Seat, target: Surface, a: Action)
    reads seat
  {
    match a
    case Focus => true
    case Characters(runes) => Accepted(runes) && Reached(seat, target)
    case Stroke(_, _) => Reached(seat, target)
    case Gesture(on, _, _, _, _, mods, _) => on in seat.alive && on in seat.pointable && (mods != 0 ==> Reached(seat, on))
  }

  lemma PlusNone(a: Part)
    ensures Plus(a, Part([], [])) == a
  {
  }

  /** One action; a failure reports the characters acknowledged for it. */
  method Act(seat: Seat, target: Surface, agent: Option<Keyboard>, a: Action, p: Pointing, fates: nat -> Fate)
    returns (ok: bool, characters: nat, ghost sent: Part)
    requires seat.Inv() && (agent.Some? ==> agent.value.Device?) && WellFormed(a)
    modifies seat
    ensures seat.Inv() && SentBy(seat) == Plus(old(SentBy(seat)), sent) && seat.Later()
    ensures if ok then Done(sent, target, seat.bound, a) else Partial(sent, target, seat.bound, a, characters)
    ensures ok ==> Kept(seat)
    ensures
      (&& (forall c :: Smooth(fates(c))) && agent.Some? && HasPointer(p) && old(Able(seat)) && Undisturbed(seat)
       && Takes(seat, target, a) && !seat.faulted) ==> ok
  {
    characters, sent := 0, Part([], []);
    match a {
      case Focus =>
        ok := ExchangeFocus(seat, fates(0));
      case Characters(runes) =>
        var ending;
        ghost var presses;
        ending, characters, presses := DeliverText(seat, target, agent, runes, fates);
        sent := Part(presses, []);
        ok := ending == Completed;
      case Stroke(code, modifiers) =>
        ok, sent := ExchangeKey(seat, target, agent, code, modifiers, fates(0));
      case Gesture(_, _, _, _, _, _, _) =>
        ok, sent := ExchangeGesture(seat, agent, a, p, fates(0));
    }
  }

  ghost predicate AllDone(parts: seq<Part>, target: Surface, bound: map<Surface, seq<Resource>>, actions: seq<Action>)
    requires |parts| <= |actions| && forall a :: a in actions ==> WellFormed(a)
  {
    forall i :: 0 <= i < |parts| ==> Done(parts[i], target, bound, actions[i])
  }

  lemma DoneMore(parts: seq<Part>, sent: Part, target: Surface, bound: map<Surface, seq<Resource>>, actions: seq<Action>)
    requires |parts| < |actions| && forall a :: a in actions ==> WellFormed(a)
    requires AllDone(parts, target, bound, actions) && Done(sent, target, bound, actions[|parts|])
    ensures AllDone(parts + [sent], target, bound, actions)
  {
    forall i | 0 <= i < |parts + [sent]| ensures Done((parts + [sent])[i], target, bound, actions[i]) {
      if i < |parts| { assert Done(parts[i], target, bound, actions[i]); }
    }
  }

  lemma JoinedMore(before: Part, parts: seq<Part>, last: Part)
    ensures Plus(before, Joined(parts + [last])) == Plus(Plus(before, Joined(parts)), last)
  {
    assert (parts + [last])[..|parts|] == parts;
    assert Joined(parts + [last]) == Plus(Joined(parts), last);
  }

  /** A batch stops at its first failure: every action before it was carried out whole and
      in order, none after it was begun, and what was typed of it is within a chunk of what
      is reported. Nothing else goes out. When nothing goes wrong all of it is carried out;
      `fates` tells what becomes of each chunk of each action. */
  method PerformAll(seat: Seat, target: Surface, agent: Option<Keyboard>, actions: seq<Action>, p: Pointing,
                    fates: nat -> nat -> Fate)
    returns (completed: nat, characters: nat, ghost parts: seq<Part>, ghost last: Part)
    requires seat.Inv() && (agent.Some? ==> agent.value.Device?) && forall a :: a in actions ==> WellFormed(a)
    modifies seat
    ensures seat.Inv() && completed <= |actions| && |parts| == completed
    ensures SentBy(seat) == Plus(Plus(old(SentBy(seat)), Joined(parts)), last)
    ensures AllDone(parts, target, seat.bound, actions)
    ensures if completed == |actions| then last == Part([], [])
            else Partial(last, target, seat.bound, actions[completed], characters)
    ensures
      (&& (forall i, c :: Smooth(fates(i)(c))) && agent.Some? && HasPointer(p) && old(Able(seat)) && Undisturbed(seat)
       && (forall a :: a in actions ==> Takes(seat, target, a)) && !seat.faulted) ==> completed == |actions|
  {
    completed, characters, parts, last := 0, 0, [], Part([], []);
    PlusNone(SentBy(seat));
    while completed < |actions|
      invariant seat.Inv() && completed <= |actions| && |parts| == completed && last == Part([], [])
      invariant SentBy(seat) == Plus(old(SentBy(seat)), Joined(parts)) && AllDone(parts, target, seat.bound, actions)
      invariant seat.Later() && Kept(seat)
    {
      var ok;
      ghost var sent;
      assert actions[completed] in actions;
      ok, characters, sent := Act(seat, target, agent, actions[completed], p, fates(completed));
      if !ok {
        last := sent;
        return;
      }
      JoinedMore(old(SentBy(seat)), parts, sent);
      DoneMore(parts, sent, target, seat.bound, actions);
      parts := parts + [sent];
      completed := completed + 1;
    }
    PlusNone(SentBy(seat));
  }
}
