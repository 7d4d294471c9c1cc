/** The guard's input operations: each borrows the seat, sends, and gives it back. */
module InputOperations {
  import opened Common
  import opened SurfaceModel
  import opened Compositor
  import opened InputTransactions
  import TextInput

  /** How an operation ends, against how it found the seat. Without a transaction nothing
      was touched; with one, either everything is given back or the fault is set, and a
      set fault lets no transaction begin. */
  twostate predicate Ended(seat: Seat, new t: InputTransaction?, ok: bool)
    reads seat, if t == null then {} else {t}
  {
    && seat.Inv()
    && (old(seat.faulted) ==> t == null)
    && (t == null ==> unchanged(seat) && !ok)
    && (t != null ==>
          && t.seat == seat && t.restored && (seat.faulted || t.GivenBack()) && (ok ==> !seat.faulted)
          && t.keyboard == old(seat.keyboard) && t.mouse == old(seat.mouse) && t.cursor == old(seat.cursor)
          && t.kbFocus == old(seat.kbFocus) && t.ptrFocus == old(seat.ptrFocus)
          && t.keysBefore == old(seat.keysDown) && t.buttonsBefore == old(seat.buttonsDown))
  }

  /** What the compositor says of the target and of the surface under the pointer. */
  datatype Views = Views(targetKnown: bool, constrained: bool, oldBox: Option<Point>)

  /** The checks before a transaction; busy stands for a grab, a constraint, a drag or any
      key or button held. */
  predicate MayBegin(faulted: bool, busy: bool, pointer: bool, views: Views, underPointer: Option<Surface>,
                     keyboard: Option<Keyboard>, mouse: Option<nat>) {
    && !faulted && !busy
    && (if pointer then
          && views.targetKnown && !views.constrained
          && (underPointer.Some? ==> views.oldBox.Some? && mouse.Some?)
        else keyboard.Some?)
  }

  method Begin(seat: Seat, target: Surface, pointer: bool, busy: bool, mods: Modifiers, views: Views)
    returns (t: InputTransaction?)
    requires seat.Inv()
    ensures t != null <==>
      MayBegin(seat.faulted, busy, pointer, views, seat.LiveSurface(seat.ptrFocus), seat.keyboard, seat.mouse)
    ensures t != null ==>
      && fresh(t) && t.seat == seat && t.target == target && t.Active() && t.SnapshotOf()
      && !t.restored && !t.keyboardBorrowed && !t.pointerBorrowed && t.textResources == []
    ensures t != null && !pointer <==> !pointer && !seat.faulted && !busy && seat.keyboard.Some?
    ensures t != null && pointer <==>
      && pointer && !seat.faulted && !busy && views.targetKnown && !views.constrained
      && (seat.ptrFocus.Some? && seat.ptrFocus.value in seat.alive && seat.ptrFocus.value in seat.good ==>
            views.oldBox.Some? && seat.mouse.Some?)
  {
    t := null;
    if seat.faulted || busy { return; }
    var local := Point(0.0, 0.0);
    if pointer {
      if !views.targetKnown || views.constrained { return; }
      if seat.LiveSurface(seat.ptrFocus).Some? {
        if views.oldBox == None || seat.mouse == None { return; }
        local := Minus(seat.cursor, views.oldBox.value);
      }
    } else if seat.keyboard == None {
      return;
    }
    t := new InputTransaction(seat, target, mods, local);
  }

  /** The press of one key, as sent. */
  predicate IsPress(p: Press, target: Surface, code: nat, modifiers: nat) {
    p.surface == Some(target) && p.code == code && p.mods == Modifiers(modifiers, 0, 0, 0)
  }

  method BorrowAndPress(t: InputTransaction, agent: Keyboard, code: nat, modifiers: nat)
    returns (threw: bool, ghost sent: seq<Press>)
    requires t.Active() && !t.keyboardBorrowed && t.textResources == [] && agent.Device?
    modifies t`heldKey, t`keyboardBorrowed, t.seat`keyboard, t.seat`kbFocus, t.seat`keymaps, t.seat`seated,
             t.seat`mods, t.seat`keysDown, t.seat`presses, t.seat`alive, t.seat`good, t.seat`throws
    ensures t.Active()
    ensures t.seat.presses == old(t.seat.presses) + sent && |sent| <= 1 && (!threw ==> |sent| == 1)
    ensures forall p :: p in sent ==> IsPress(p, t.target, code, modifiers)
    ensures t.seat.Later()
    ensures threw ==> t.seat.throws > old(t.seat.throws) || !t.Reachable()
  {
    sent := [];
    threw := t.BorrowKeyboard(agent);
    if threw { return; }
    ghost var press := Press(Some(t.target), code, Modifiers(modifiers, 0, 0, 0), t.seat.keymaps);
    threw := t.Key(code, Modifiers(modifiers, 0, 0, 0));
    if t.seat.presses != old(t.seat.presses) { sent := [press]; }
  }

  /** The end of a transaction that had only the keyboard. Without an exception it fails
      only when a surface that had the focus outlived its client resource. */
  method Finish(t: InputTransaction, threw: bool) returns (ok: bool)
    requires t.Active() && !t.restored && !t.pointerBorrowed && !t.seat.faulted
    modifies t`restored, t.seat
    ensures t.restored && t.seat.Inv() && (t.seat.faulted || t.GivenBack()) && ok == (!threw && !t.seat.faulted)
    ensures t.seat.presses == old(t.seat.presses) && t.seat.pointed == old(t.seat.pointed) && t.seat.Later()
    ensures t.seat.cursor == old(t.seat.cursor)
    ensures t.seat.faulted && t.seat.throws == old(t.seat.throws) && t.seat.cursor == t.cursor ==>
      || (t.kbFocus.Some? && t.kbFocus.value in t.seat.alive && t.kbFocus.value !in t.seat.good)
      || (t.ptrFocus.Some? && t.ptrFocus.value in t.seat.alive && t.ptrFocus.value !in t.seat.good)
  {
    t.Restore();
    ok := !threw && !t.seat.faulted;
  }

  method KeyTransaction(seat: Seat, target: Surface, busy: bool, mods: Modifiers, agent: Option<Keyboard>,
                        code: nat, modifiers: nat) returns (t: InputTransaction?, ok: bool, ghost sent: seq<Press>)
    requires seat.Inv() && (agent.Some? ==> agent.value.Device?)
    modifies seat
    ensures Ended(seat, t, ok)
    ensures t != null ==> fresh(t)
    ensures seat.presses == old(seat.presses) + sent && |sent| <= 1 && (ok ==> |sent| == 1)
    ensures seat.pointed == old(seat.pointed)
    ensures forall p :: p in sent ==> IsPress(p, target, code, modifiers)
    ensures t != null <==> agent.Some? && !old(seat.faulted) && !busy && old(seat.keyboard).Some?
    ensures t != null && !ok && seat.throws == old(seat.throws) ==>
      || target !in seat.alive || target !in seat.good || target !in seat.bound || seat.bound[target] == []
      || (old(seat.kbFocus).Some? && old(seat.kbFocus).value in seat.alive && old(seat.kbFocus).value !in seat.good)
      || (old(seat.ptrFocus).Some? && old(seat.ptrFocus).value in seat.alive && old(seat.ptrFocus).value !in seat.good)
    ensures seat.Later()
  {
    t, ok, sent := null, false, [];
    if agent == None { return; }
    t := Begin(seat, target, false, busy, mods, Views(true, false, None));
    if t == null { return; }
    var threw;
    threw, sent := BorrowAndPress(t, agent.value, code, modifiers);
    ok := Finish(t, threw);
  }

  // -------------------------------------------------------------------- text

  /** The first `n` characters of a chunk went out: one press each, in order, to the target,
      while every keyboard object of its client had the chunk's keymap. */
  ghost predicate Sent(presses: seq<Press>, target: Surface, bound: seq<Resource>, scalars: seq<bv32>, n: nat) {
    && TextInput.Acceptable(scalars) && |presses| == n <= |scalars|
    && forall i :: 0 <= i < n ==>
      && presses[i].surface == Some(target) && presses[i].code == TextInput.TEXT_KEY_CODES[i] && presses[i].mods == NO_MODIFIERS
      && HaveMap(presses[i].keymaps, bound, scalars)
  }

  ghost predicate HaveMap(keymaps: map<Resource, Keyboard>, bound: seq<Resource>, scalars: seq<bv32>)
    requires TextInput.Acceptable(scalars)
  {
    forall r :: r in bound ==> r in keymaps && keymaps[r] == Carrier(TextInput.KeymapOf(scalars))
  }

  lemma SentOneMore(sent: seq<Press>, press: Press, target: Surface, bound: seq<Resource>, scalars: seq<bv32>)
    requires Sent(sent, target, bound, scalars, |sent|) && |sent| < |scalars|
    requires press.surface == Some(target) && press.mods == NO_MODIFIERS
    requires press.code == TextInput.TEXT_KEY_CODES[|sent|] && HaveMap(press.keymaps, bound, scalars)
    ensures Sent(sent + [press], target, bound, scalars, |sent| + 1)
  {
  }

  method TypeAll(t: InputTransaction, scalars: seq<bv32>) returns (threw: bool, completed: nat, ghost sent: seq<Press>)
    requires t.Active() && t.keyboardBorrowed && t.seat.kbFocus == Some(t.target) && t.heldKey == None
    requires TextInput.Acceptable(scalars) && HaveMap(t.seat.keymaps, t.seat.FocusBound(), scalars) && t.seat.FocusBound() != []
    modifies t`heldKey, t.seat`mods, t.seat`keysDown, t.seat`presses, t.seat`alive, t.seat`good, t.seat`throws
    ensures t.Active()
    ensures completed <= |sent| <= completed + 1 && t.seat.presses == old(t.seat.presses) + sent
    ensures t.target in t.seat.bound && Sent(sent, t.target, t.seat.bound[t.target], scalars, |sent|)
    ensures !threw ==> completed == |scalars| == |sent|
    ensures t.seat.Later()
    ensures threw ==> t.seat.throws > old(t.seat.throws)
  {
    completed, sent := 0, [];
    ghost var bound := t.seat.FocusBound();
    while completed < |scalars|
      invariant completed <= |scalars| && t.Active() && t.heldKey == None
      invariant |sent| == completed && t.seat.presses == old(t.seat.presses) + sent
      invariant t.seat.Later()
      invariant Sent(sent, t.target, bound, scalars, completed)
    {
      ghost var press := Press(Some(t.target), TextInput.TEXT_KEY_CODES[completed], NO_MODIFIERS, t.seat.keymaps);
      ghost var was := t.seat.presses;
      SentOneMore(sent, press, t.target, bound, scalars);
      threw := t.Key(TextInput.TEXT_KEY_CODES[completed], NO_MODIFIERS);
      if t.seat.presses != was { sent := sent + [press]; }
      if threw { return; }
      completed := completed + 1;
    }
    threw := false;
  }

  /** What happens to a chunk between the snapshot and the restoration. */
  method BorrowAndType(t: InputTransaction, agent: Keyboard, scalars: seq<bv32>, carrier: Keyboard)
    returns (threw: bool, completed: nat, ghost sent: seq<Press>)
    requires t.Active() && !t.keyboardBorrowed && t.textResources == [] && agent.Device?
    requires TextInput.Acceptable(scalars) && carrier == Carrier(TextInput.KeymapOf(scalars)) && t.keyboard.Some?
    modifies t`heldKey, t`keyboardBorrowed, t`textResources, t.seat`keyboard, t.seat`kbFocus, t.seat`keymaps, t.seat`seated,
             t.seat`mods, t.seat`keysDown, t.seat`presses, t.seat`alive, t.seat`good, t.seat`throws
    ensures t.Active()
    ensures completed <= |sent| <= completed + 1 && t.seat.presses == old(t.seat.presses) + sent
    ensures sent != [] ==>
      t.target in t.seat.bound && t.seat.bound[t.target] != [] && Sent(sent, t.target, t.seat.bound[t.target], scalars, |sent|)
    ensures !threw ==> completed == |scalars| == |sent|
    ensures t.seat.Later()
    ensures threw ==> t.seat.throws > old(t.seat.throws) || !t.Reachable()
  {
    completed, sent := 0, [];
    threw := t.BorrowKeyboard(agent);
    if threw { return; }
    threw := t.InstallTargetKeymap(carrier);
    if threw { return; }
    threw, completed, sent := TypeAll(t, scalars);
  }

  /** One chunk: completed counts the keys that came back without an exception. */
  method TextTransaction(seat: Seat, target: Surface, busy: bool, mods: Modifiers, agent: Option<Keyboard>,
                         scalars: seq<bv32>, carrierMade: bool)
    returns (t: InputTransaction?, ok: bool, completed: nat, ghost sent: seq<Press>)
    requires seat.Inv() && (agent.Some? ==> agent.value.Device?)
    modifies seat
    ensures Ended(seat, t, ok)
    ensures t != null ==> fresh(t)
    ensures completed <= |sent| <= completed + 1 && seat.presses == old(seat.presses) + sent
    ensures seat.pointed == old(seat.pointed)
    ensures sent != [] ==> target in seat.bound && seat.bound[target] != [] && Sent(sent, target, seat.bound[target], scalars, |sent|)
    ensures ok ==> completed == |scalars| == |sent|
    ensures !TextInput.Acceptable(scalars) ==> t == null
    ensures t != null <==>
      agent.Some? && TextInput.Acceptable(scalars) && carrierMade && !old(seat.faulted) && !busy && old(seat.keyboard).Some?
    ensures t != null && !ok && seat.throws == old(seat.throws) ==>
      || target !in seat.alive || target !in seat.good || target !in seat.bound || seat.bound[target] == []
      || (old(seat.kbFocus).Some? && old(seat.kbFocus).value in seat.alive && old(seat.kbFocus).value !in seat.good)
      || (old(seat.ptrFocus).Some? && old(seat.ptrFocus).value in seat.alive && old(seat.ptrFocus).value !in seat.good)
    ensures seat.Later()
  {
    t, ok, completed, sent := null, false, 0, [];
    if agent == None { return; }
    var keymap := TextInput.TextKeymap(scalars);
    if keymap == None || !carrierMade { return; }
    t := Begin(seat, target, false, busy, mods, Views(true, false, None));
    if t == null { return; }
    var threw;
    threw, completed, sent := BorrowAndType(t, agent.value, scalars, Carrier(keymap.value));
    ok := Finish(t, threw);
  }

  // ----------------------------------------------------------------- pointer

  datatype Kind = Move | Click | Drag | Scroll

  /** Nothing that the gesture pressed is left pressed. */
  ghost predicate Unpressed(t: InputTransaction, mods: nat)
    reads t, t.seat
  {
    && (forall p :: p in t.seat.buttonsDown ==> p in t.buttonsBefore)
    && (mods != 0 ==> t.seat.mods == NO_MODIFIERS)
  }

  method SendModifiers(t: InputTransaction, mods: nat, m: nat) returns (threw: bool)
    requires t.Active()
    modifies t.seat`mods, t.seat`alive, t.seat`good, t.seat`throws
    ensures t.Active()
    ensures !threw && mods != 0 ==> t.seat.mods == Modifiers(m, 0, 0, 0)
    ensures mods == 0 ==> t.seat.mods == old(t.seat.mods) && !threw
    ensures t.seat.Later()
    ensures threw ==> t.seat.throws > old(t.seat.throws)
  {
    threw := false;
    if mods != 0 { threw := t.seat.SendKeyboardMods(Modifiers(m, 0, 0, 0)); }
  }

  function Moves(aim: Aim, points: seq<Point>): seq<Pointed> {
    seq(|points|, i requires 0 <= i < |points| => Moved(aim, points[i]))
  }

  function Scrolls(aim: Aim, n: nat): seq<Pointed> {
    seq(n, _ => Scrolled(aim))
  }

  /** One press and release, around the rest of the path of a drag. */
  function StrokeEvents(aim: Aim, kind: Kind, points: seq<Point>, button: nat): seq<Pointed>
    requires points != []
  {
    [Pressed(aim, button)] + (if kind == Drag then Moves(aim, points[1..]) else []) + [Released(aim, button)]
  }

  function Strokes(aim: Aim, kind: Kind, points: seq<Point>, button: nat, n: nat): seq<Pointed>
    requires points != []
  {
    if n == 0 then [] else Strokes(aim, kind, points, button, n - 1) + StrokeEvents(aim, kind, points, button)
  }

  /** What a gesture sends at its first point: the clicks, the drag or the scrolling. */
  function BodyEvents(aim: Aim, kind: Kind, points: seq<Point>, button: nat, clicks: nat, axes: nat): seq<Pointed>
    requires points != []
  {
    match kind
    case Move => []
    case Click => Strokes(aim, kind, points, button, clicks)
    case Drag => Strokes(aim, kind, points, button, 1)
    case Scroll => Scrolls(aim, axes)
  }

  /** What a gesture sends. */
  function GestureEvents(aim: Aim, kind: Kind, points: seq<Point>, button: nat, clicks: nat, axes: nat): seq<Pointed>
    requires points != []
  {
    [Moved(aim, points[0])] + BodyEvents(aim, kind, points, button, clicks, axes)
  }

  lemma {:induction false} ClicksAt(aim: Aim, points: seq<Point>, button: nat, n: nat)
    requires points != []
    ensures |Strokes(aim, Click, points, button, n)| == 2 * n
    ensures forall i :: 0 <= i < n ==>
      && Strokes(aim, Click, points, button, n)[2 * i] == Pressed(aim, button)
      && Strokes(aim, Click, points, button, n)[2 * i + 1] == Released(aim, button)
  {
    if n > 0 {
      ClicksAt(aim, points, button, n - 1);
      assert StrokeEvents(aim, Click, points, button) == [Pressed(aim, button), Released(aim, button)];
    }
  }

  /** Event by event: a gesture moves to its first point; a click presses and releases each
      time; a drag presses, moves along the rest of the path and releases; a scroll scrolls. */
  lemma GestureInOrder(aim: Aim, kind: Kind, points: seq<Point>, button: nat, clicks: nat, axes: nat)
    requires points != []
    ensures var all := GestureEvents(aim, kind, points, button, clicks, axes);
      && |all| == (match kind case Move => 1 case Click => 1 + 2 * clicks case Drag => 2 + |points| case Scroll => 1 + axes)
      && all[0] == Moved(aim, points[0])
      && (kind == Click ==> forall i :: 0 <= i < clicks ==>
            all[2 * i + 1] == Pressed(aim, button) && all[2 * i + 2] == Released(aim, button))
      && (kind == Drag ==> all[1] == Pressed(aim, button) && all[|points| + 1] == Released(aim, button))
      && (kind == Drag ==> forall i :: 1 <= i < |points| ==> all[i + 1] == Moved(aim, points[i]))
      && (kind == Scroll ==> forall i :: 1 <= i <= axes ==> all[i] == Scrolled(aim))
  {
    match kind
    case Move =>
    case Click => ClicksAt(aim, points, button, clicks);
    case Drag => assert Strokes(aim, Drag, points, button, 1) == Strokes(aim, Drag, points, button, 0) + StrokeEvents(aim, Drag, points, button);
    case Scroll =>
  }

  /** Of these events some front has been sent since. */
  predicate Begun(was: seq<Pointed>, now: seq<Pointed>, all: seq<Pointed>) {
    was <= now <= was + all
  }

  lemma BegunThen(was: seq<Pointed>, a: seq<Pointed>, now: seq<Pointed>, b: seq<Pointed>)
    requires Begun(was + a, now, b)
    ensures Begun(was, now, a + b)
  {
    assert was + a + b == was + (a + b);
  }

  lemma BegunMore(was: seq<Pointed>, now: seq<Pointed>, a: seq<Pointed>, b: seq<Pointed>)
    requires Begun(was, now, a)
    ensures Begun(was, now, a + b)
  {
    assert was + a + b == was + (a + b);
  }

  lemma MovesSplit(aim: Aim, points: seq<Point>, i: nat)
    requires 1 <= i < |points|
    ensures Moves(aim, points[1..i + 1]) == Moves(aim, points[1..i]) + [Moved(aim, points[i])]
    ensures Moves(aim, points[1..]) == Moves(aim, points[1..i + 1]) + Moves(aim, points[i + 1..])
  {
  }

  method DragPath(t: InputTransaction, points: seq<Point>, ghost button: nat) returns (threw: bool)
    requires t.Active() && t.pointerBorrowed && t.heldButton == Some(button) && points != []
    modifies t.seat`local, t.seat`cursor, t.seat`pointed, t.seat`framed, t.seat`alive, t.seat`good, t.seat`throws
    ensures t.Active()
    ensures !threw ==> t.seat.pointed == old(t.seat.pointed) + Moves(t.seat.Aimed(), points[1..])
    ensures Begun(old(t.seat.pointed), t.seat.pointed, Moves(t.seat.Aimed(), points[1..]))
    ensures t.seat.Later()
    ensures !threw && old(t.seat.framed) ==> t.seat.framed
    ensures threw ==> t.seat.throws > old(t.seat.throws)
  {
    ghost var aim := t.seat.Aimed();
    for i := 1 to |points|
      invariant t.Active() && t.seat.pointed == old(t.seat.pointed) + Moves(aim, points[1..i]) && t.seat.Later()
      invariant old(t.seat.framed) ==> t.seat.framed
    {
      threw := t.Motion(points[i]);
      MovesSplit(aim, points, i);
      if threw {
        BegunThen(old(t.seat.pointed), Moves(aim, points[1..i]), t.seat.pointed, [Moved(aim, points[i])]);
        BegunMore(old(t.seat.pointed), t.seat.pointed, Moves(aim, points[1..i + 1]), Moves(aim, points[i + 1..]));
        return;
      }
    }
    assert points[1..|points|] == points[1..];
    threw := false;
  }

  /** A press, for a drag the rest of the path, and the release. */
  method PressPath(t: InputTransaction, kind: Kind, points: seq<Point>, button: nat) returns (threw: bool, held: bool)
    requires t.Active() && t.pointerBorrowed && t.seat.ptrFocus == Some(t.target) && t.heldButton == None && points != []
    modifies t`heldButton, t.seat`local, t.seat`buttonsDown, t.seat`cursor, t.seat`pointed, t.seat`framed, t.seat`alive, t.seat`good, t.seat`throws
    ensures t.Active() && (t.heldButton == None || t.heldButton == Some(button))
    ensures !threw ==> !held && t.seat.pointed == old(t.seat.pointed) + StrokeEvents(t.seat.Aimed(), kind, points, button)
    ensures Begun(old(t.seat.pointed), t.seat.pointed, StrokeEvents(t.seat.Aimed(), kind, points, button))
    ensures !held ==> t.heldButton == None
    ensures t.seat.Later()
    ensures !threw ==> t.seat.framed
    ensures threw ==> t.seat.throws > old(t.seat.throws)
  {
    held := true;
    ghost var aim, was := t.seat.Aimed(), t.seat.pointed;
    ghost var path := if kind == Drag then Moves(aim, points[1..]) else [];
    threw := t.Button(button, true);
    BegunMore(was, t.seat.pointed, [Pressed(aim, button)], path + [Released(aim, button)]);
    assert [Pressed(aim, button)] + (path + [Released(aim, button)]) == StrokeEvents(aim, kind, points, button);
    if threw { return; }
    if kind == Drag {
      threw := DragPath(t, points, button);
      BegunThen(was, [Pressed(aim, button)], t.seat.pointed, path);
      BegunMore(was, t.seat.pointed, [Pressed(aim, button)] + path, [Released(aim, button)]);
      if threw { return; }
    }
    assert t.seat.pointed == was + ([Pressed(aim, button)] + path);
    threw := t.Button(button, false);
    BegunThen(was, [Pressed(aim, button)] + path, t.seat.pointed, [Released(aim, button)]);
    if threw { return; }
    held := false;
  }

  lemma ScrollsMore(aim: Aim, i: nat, calls: nat, was: seq<Pointed>, now: seq<Pointed>)
    requires i < calls && (now == was + Scrolls(aim, i) || now == was + Scrolls(aim, i) + [Scrolled(aim)])
    ensures Begun(was, now, Scrolls(aim, calls))
  {
    assert Scrolls(aim, calls) == Scrolls(aim, i) + [Scrolled(aim)] + Scrolls(aim, calls - i - 1);
  }

  method ScrollAxes(t: InputTransaction, calls: nat) returns (threw: bool)
    requires t.Active() && t.pointerBorrowed
    modifies t.seat`cursor, t.seat`pointed, t.seat`framed, t.seat`alive, t.seat`good, t.seat`throws
    ensures t.Active()
    ensures !threw ==> t.seat.pointed == old(t.seat.pointed) + Scrolls(t.seat.Aimed(), calls)
    ensures Begun(old(t.seat.pointed), t.seat.pointed, Scrolls(t.seat.Aimed(), calls))
    ensures t.seat.Later()
    ensures !threw ==> t.seat.framed
    ensures threw ==> t.seat.throws > old(t.seat.throws)
  {
    ghost var aim := t.seat.Aimed();
    for i := 0 to calls
      invariant t.Active() && t.seat.pointed == old(t.seat.pointed) + Scrolls(aim, i) && t.seat.Later()
    {
      threw := t.seat.SendPointerAxis();
      assert Scrolls(aim, i + 1) == Scrolls(aim, i) + [Scrolled(aim)];
      if threw {
        ScrollsMore(aim, i, calls, old(t.seat.pointed), t.seat.pointed);
        return;
      }
    }
    threw := t.seat.SendPointerFrame();
  }

  method Clicks(t: InputTransaction, kind: Kind, points: seq<Point>, button: nat, n: nat) returns (threw: bool, held: bool)
    requires t.Active() && t.pointerBorrowed && t.seat.ptrFocus == Some(t.target) && t.heldButton == None && points != []
    modifies t`heldButton, t.seat`local, t.seat`buttonsDown, t.seat`cursor, t.seat`pointed, t.seat`framed, t.seat`alive, t.seat`good, t.seat`throws
    ensures t.Active() && (t.heldButton == None || t.heldButton == Some(button))
    ensures !threw ==> t.seat.pointed == old(t.seat.pointed) + Strokes(t.seat.Aimed(), kind, points, button, n)
    ensures Begun(old(t.seat.pointed), t.seat.pointed, Strokes(t.seat.Aimed(), kind, points, button, n))
    ensures !held ==> t.heldButton == None
    ensures !threw ==> !held
    ensures t.seat.Later()
    ensures !threw && old(t.seat.framed) ==> t.seat.framed
    ensures threw ==> t.seat.throws > old(t.seat.throws)
  {
    threw, held := false, false;
    ghost var aim, was := t.seat.Aimed(), t.seat.pointed;
    for click := 0 to n
      invariant t.Active() && t.heldButton == None && !held && t.seat.Later()
      invariant t.seat.pointed == was + Strokes(aim, kind, points, button, click)
      invariant old(t.seat.framed) ==> t.seat.framed
    {
      threw, held := PressPath(t, kind, points, button);
      if threw {
        StrokesBegun(aim, kind, points, button, click, n, was, t.seat.pointed);
        return;
      }
    }
    threw := false;
  }

  lemma {:induction false} StrokesMore(aim: Aim, kind: Kind, points: seq<Point>, button: nat, k: nat, n: nat,
                                       was: seq<Pointed>, now: seq<Pointed>)
    requires points != [] && k <= n && Begun(was, now, Strokes(aim, kind, points, button, k))
    ensures Begun(was, now, Strokes(aim, kind, points, button, n))
    decreases n
  {
    if k < n {
      StrokesMore(aim, kind, points, button, k, n - 1, was, now);
      BegunMore(was, now, Strokes(aim, kind, points, button, n - 1), StrokeEvents(aim, kind, points, button));
    }
  }

  lemma StrokesBegun(aim: Aim, kind: Kind, points: seq<Point>, button: nat, k: nat, n: nat, was: seq<Pointed>, now: seq<Pointed>)
    requires points != [] && k < n
    requires Begun(was + Strokes(aim, kind, points, button, k), now, StrokeEvents(aim, kind, points, button))
    ensures Begun(was, now, Strokes(aim, kind, points, button, n))
  {
    BegunThen(was, Strokes(aim, kind, points, button, k), now, StrokeEvents(aim, kind, points, button));
    StrokesMore(aim, kind, points, button, k + 1, n, was, now);
  }

  method GestureBody(t: InputTransaction, kind: Kind, points: seq<Point>, button: nat, clicks: nat, axes: nat)
    returns (threw: bool, held: bool)
    requires t.Active() && t.pointerBorrowed && t.seat.ptrFocus == Some(t.target) && t.heldButton == None && points != []
    modifies t`heldButton, t.seat`local, t.seat`buttonsDown, t.seat`cursor, t.seat`pointed, t.seat`framed, t.seat`alive, t.seat`good, t.seat`throws
    ensures t.Active() && (t.heldButton == None || t.heldButton == Some(button))
    ensures !held ==> t.heldButton == None
    ensures !threw ==> !held && t.seat.pointed == old(t.seat.pointed) + BodyEvents(t.seat.Aimed(), kind, points, button, clicks, axes)
    ensures Begun(old(t.seat.pointed), t.seat.pointed, BodyEvents(t.seat.Aimed(), kind, points, button, clicks, axes))
    ensures t.seat.Later()
    ensures !threw && old(t.seat.framed) ==> t.seat.framed
    ensures threw ==> t.seat.throws > old(t.seat.throws)
  {
    threw, held := false, false;
    if kind == Click || kind == Drag {
      threw, held := Clicks(t, kind, points, button, if kind == Click then clicks else 1);
    } else if kind == Scroll {
      threw := ScrollAxes(t, axes);
    }
  }

  /** The modifiers, and the motion to the first point. */
  method AimAndMove(t: InputTransaction, at: Point, mods: nat) returns (threw: bool)
    requires t.Active() && t.pointerBorrowed && t.seat.ptrFocus == Some(t.target)
    modifies t.seat`local, t.seat`cursor, t.seat`pointed, t.seat`framed, t.seat`mods, t.seat`alive, t.seat`good, t.seat`throws
    ensures t.Active() && t.seat.Later() && (threw ==> t.seat.throws > old(t.seat.throws))
    ensures var aim := Aim(Some(t.target), if mods != 0 then Modifiers(mods, 0, 0, 0) else old(t.seat.mods));
      && (t.seat.pointed == old(t.seat.pointed) + [Moved(aim, at)] || (threw && t.seat.pointed == old(t.seat.pointed)))
      && (!threw ==> t.seat.Aimed() == aim && t.seat.framed)
  {
    threw := SendModifiers(t, mods, mods);
    if threw { return; }
    threw := t.Motion(at);
  }

  /** The gesture up to the first exception; `held` says whether a release is owed. */
  method Gesture(t: InputTransaction, kind: Kind, points: seq<Point>, button: nat, clicks: nat, mods: nat, axes: nat)
    returns (threw: bool, held: bool)
    requires t.Active() && t.pointerBorrowed && t.seat.ptrFocus == Some(t.target) && t.heldButton == None && points != []
    modifies t`heldButton, t.seat`local, t.seat`buttonsDown, t.seat`cursor, t.seat`pointed, t.seat`framed, t.seat`mods, t.seat`alive, t.seat`good, t.seat`throws
    ensures t.Active() && (t.heldButton == None || t.heldButton == Some(button))
    ensures !held ==> t.heldButton == None
    ensures !threw ==> Unpressed(t, mods)
    ensures held ==> t.seat.Aimed() == Aim(Some(t.target), if mods != 0 then Modifiers(mods, 0, 0, 0) else old(t.seat.mods))
    ensures var aim := Aim(Some(t.target), if mods != 0 then Modifiers(mods, 0, 0, 0) else old(t.seat.mods));
      var all := GestureEvents(aim, kind, points, button, clicks, axes);
      && (!threw ==> t.seat.pointed == old(t.seat.pointed) + all)
      && Begun(old(t.seat.pointed), t.seat.pointed, all)
    ensures t.seat.Later()
    ensures !threw ==> t.seat.framed
    ensures threw ==> t.seat.throws > old(t.seat.throws)
  {
    held := false;
    ghost var aim, was := Aim(Some(t.target), if mods != 0 then Modifiers(mods, 0, 0, 0) else t.seat.mods), t.seat.pointed;
    ghost var body := BodyEvents(aim, kind, points, button, clicks, axes);
    threw := AimAndMove(t, points[0], mods);
    BegunMore(was, t.seat.pointed, [Moved(aim, points[0])], body);
    if threw { return; }
    assert was + [Moved(aim, points[0])] + body == was + ([Moved(aim, points[0])] + body);
    threw, held := GestureBody(t, kind, points, button, clicks, axes);
    BegunThen(was, [Moved(aim, points[0])], t.seat.pointed, body);
    if threw { return; }
    threw := SendModifiers(t, mods, 0);
  }

  /** A front of the events, and after it a release that was owed, or none. */
  predicate Abandoned(was: seq<Pointed>, now: seq<Pointed>, aim: Aim, button: nat, all: seq<Pointed>) {
    Begun(was, now, all) || (|now| > |was| && now[|now| - 1] == Released(aim, button) && Begun(was, now[..|now| - 1], all))
  }

  /** The whole gesture: without an exception it sends exactly its events; after one a front
      of them, both cleanups are tried whatever happens to the first, and unless the fault is
      set nothing stays pressed. */
  method PointerGesture(t: InputTransaction, kind: Kind, points: seq<Point>, button: nat, clicks: nat, mods: nat, axes: nat)
    returns (threw: bool)
    requires t.Active() && t.pointerBorrowed && t.seat.ptrFocus == Some(t.target) && t.heldButton == None && points != []
    modifies t`heldButton, t.seat`local, t.seat`buttonsDown, t.seat`cursor, t.seat`pointed, t.seat`framed, t.seat`mods, t.seat`faulted,
             t.seat`alive, t.seat`good, t.seat`throws
    ensures t.Active()
    ensures old(t.seat.faulted) ==> t.seat.faulted
    ensures t.seat.faulted || Unpressed(t, mods)
    ensures !threw ==> t.seat.faulted == old(t.seat.faulted)
    ensures var aim := Aim(Some(t.target), if mods != 0 then Modifiers(mods, 0, 0, 0) else old(t.seat.mods));
      var all := GestureEvents(aim, kind, points, button, clicks, axes);
      && (!threw ==> t.seat.pointed == old(t.seat.pointed) + all)
      && Abandoned(old(t.seat.pointed), t.seat.pointed, aim, button, all)
    ensures t.seat.Later()
    ensures !threw ==> t.seat.framed
    ensures threw ==> t.seat.throws > old(t.seat.throws)
  {
    var held;
    threw, held := Gesture(t, kind, points, button, clicks, mods, axes);
    if threw { CleanUp(t, held, button, mods); }
  }

  /** After an exception: a release that is owed and the modifiers, whatever happens to
      either. */
  method CleanUp(t: InputTransaction, held: bool, button: nat, mods: nat)
    requires t.Active() && t.pointerBorrowed && t.seat.ptrFocus == Some(t.target)
    requires t.heldButton == None || (held && t.heldButton == Some(button))
    modifies t`heldButton, t.seat`buttonsDown, t.seat`cursor, t.seat`pointed, t.seat`framed, t.seat`mods, t.seat`faulted,
             t.seat`alive, t.seat`good, t.seat`throws
    ensures t.Active() && t.seat.Later()
    ensures old(t.seat.faulted) ==> t.seat.faulted
    ensures t.seat.faulted || Unpressed(t, mods)
    ensures t.seat.pointed == old(t.seat.pointed)
      || (held && t.seat.pointed == old(t.seat.pointed) + [Released(old(t.seat.Aimed()), button)])
  {
    if held {
      var failed := t.Button(button, false);
      if failed { t.seat.faulted := true; }
    }
    var failed := SendModifiers(t, mods, 0);
    if failed { t.seat.faulted := true; }
  }

  /** A gesture under modifiers needs the keyboard too. */
  method BorrowForGesture(t: InputTransaction, agent: Option<Keyboard>, pointer: Option<nat>, local: Point, mods: nat)
    returns (threw: bool)
    requires t.Active() && !t.keyboardBorrowed && !t.pointerBorrowed && t.textResources == []
    requires agent.Some? ==> agent.value.Device?
    modifies t`keyboardBorrowed, t`pointerBorrowed, t.seat`keyboard, t.seat`kbFocus, t.seat`keymaps, t.seat`seated,
             t.seat`mouse, t.seat`ptrFocus, t.seat`local, t.seat`cursor, t.seat`alive, t.seat`good, t.seat`throws
    ensures t.Active() && t.seat.Later()
    ensures !threw ==> t.pointerBorrowed && t.seat.ptrFocus == Some(t.target)
    ensures !threw && mods != 0 ==> t.keyboardBorrowed && t.seat.kbFocus == Some(t.target)
    ensures threw ==>
      || t.seat.throws > old(t.seat.throws) || pointer == None || !t.Pointable()
      || (mods != 0 && (agent == None || !t.Reachable()))
  {
    if mods != 0 {
      if agent == None { return true; }
      threw := t.BorrowKeyboard(agent.value);
      if threw { return; }
    }
    threw := t.BorrowPointer(pointer, local);
  }

  method BorrowAndPoint(t: InputTransaction, agent: Option<Keyboard>, pointer: Option<nat>, kind: Kind, points: seq<Point>,
                        button: nat, clicks: nat, mods: nat, axes: nat) returns (threw: bool)
    requires t.Active() && !t.keyboardBorrowed && !t.pointerBorrowed && t.textResources == [] && points != []
    requires agent.Some? ==> agent.value.Device?
    modifies t, t.seat
    ensures t.Active() && t.restored == old(t.restored)
    ensures old(t.seat.faulted) ==> t.seat.faulted
    ensures var aim := Aim(Some(t.target), if mods != 0 then Modifiers(mods, 0, 0, 0) else old(t.seat.mods));
      var all := GestureEvents(aim, kind, points, button, clicks, axes);
      && (!threw ==> t.seat.pointed == old(t.seat.pointed) + all)
      && Abandoned(old(t.seat.pointed), t.seat.pointed, aim, button, all)
    ensures !t.pointerBorrowed ==> t.seat.framed == old(t.seat.framed)
    ensures t.seat.presses == old(t.seat.presses)
    ensures t.seat.Later()
    ensures threw ==>
      || t.seat.throws > old(t.seat.throws) || pointer == None || !t.Pointable()
      || (mods != 0 && (agent == None || !t.Reachable()))
    ensures t.seat.throws == old(t.seat.throws) ==> t.seat.faulted == old(t.seat.faulted)
  {
    threw := BorrowForGesture(t, agent, pointer, points[0], mods);
    if threw { return; }
    threw := PointerGesture(t, kind, points, button, clicks, mods, axes);
  }

  method PointerTransaction(seat: Seat, target: Surface, busy: bool, current: Modifiers, views: Views, agent: Option<Keyboard>,
                            pointer: Option<nat>, kind: Kind, points: seq<Point>, button: nat, clicks: nat, mods: nat, axes: nat)
    returns (t: InputTransaction?, ok: bool)
    requires seat.Inv() && (agent.Some? ==> agent.value.Device?) && points != []
    modifies seat
    ensures Ended(seat, t, ok)
    ensures t != null ==> fresh(t)
    ensures old(seat.pointed) <= seat.pointed && seat.presses == old(seat.presses)
    ensures ok ==>
      var aim := Aim(Some(target), if mods != 0 then Modifiers(mods, 0, 0, 0) else old(seat.mods));
      old(seat.pointed) + GestureEvents(aim, kind, points, button, clicks, axes) <= seat.pointed
    ensures !seat.faulted && old(seat.framed) ==> seat.framed
    ensures t != null <==>
      && !old(seat.faulted) && !busy && views.targetKnown && !views.constrained
      && (old(seat.ptrFocus).Some? && old(seat.ptrFocus).value in old(seat.alive) && old(seat.ptrFocus).value in old(seat.good) ==>
            views.oldBox.Some? && old(seat.mouse).Some?)
    ensures t != null && !ok && seat.throws == old(seat.throws) ==>
      || pointer == None || target !in seat.alive || target !in seat.good || target !in seat.pointable
      || (mods != 0 && (agent == None || target !in seat.bound || seat.bound[target] == []))
      || seat.cursor != old(seat.cursor)
      || (old(seat.kbFocus).Some? && old(seat.kbFocus).value in seat.alive && old(seat.kbFocus).value !in seat.good)
      || (old(seat.ptrFocus).Some? && old(seat.ptrFocus).value in seat.alive && old(seat.ptrFocus).value !in seat.good)
    ensures seat.Later()
  {
    t, ok := null, false;
    t := Begin(seat, target, true, busy, current, views);
    if t == null { return; }
    var threw := BorrowAndPoint(t, agent, pointer, kind, points, button, clicks, mods, axes);
    t.Restore();
    ok := !threw && !seat.faulted;
  }

  // ------------------------------------------------------------------- focus

  /** The one operation that is meant to move the desktop's focus: on an idle seat, without
      sending anything. */
  method FocusWindow(seat: Seat, busy: bool) returns (ok: bool)
    requires seat.Inv()
    modifies seat
    ensures seat.Inv() && seat.faulted == old(seat.faulted) && seat.keyboard == old(seat.keyboard) && seat.mouse == old(seat.mouse)
    ensures seat.presses == old(seat.presses) && seat.pointed == old(seat.pointed)
    ensures old(seat.faulted) || busy ==> unchanged(seat) && !ok
    ensures !old(seat.faulted) && !busy && !ok ==> seat.throws > old(seat.throws)
    ensures seat.Later()
  {
    if seat.faulted || busy { return false; }
    var threw := seat.Activate();
    ok := !threw;
  }

  // ------------------------------------------------------------------- runs

  datatype Operation =
    | FocusOp(busy: bool)
    | KeyOp(target: Surface, busy: bool, agent: Option<Keyboard>, code: nat, modifiers: nat)
    | TextOp(target: Surface, busy: bool, agent: Option<Keyboard>, scalars: seq<bv32>)
    | PointerOp(target: Surface, busy: bool, agent: Option<Keyboard>, pointer: Option<nat>, views: Views, kind: Kind,
                points: seq<Point>, button: nat, clicks: nat, mods: nat, axes: nat)

  /** The broker's own keyboard is a device, and a gesture has a first point. */
  predicate WellFormed(op: Operation) {
    op.FocusOp? || ((op.agent.Some? ==> op.agent.value.Device?) && (op.PointerOp? ==> op.points != []))
  }

  /** From the moment the fault is set the seat stays as it is. */
  ghost predicate FaultIsFinal(trace: seq<SeatView>) {
    forall i, j :: 0 <= i <= j < |trace| && trace[i].faulted ==> trace[j] == trace[i]
  }

  /** Any operations in any order: no text map ever becomes the seat's keyboard, and from
      the first operation that ends with the fault set nothing more is touched. `trace` is
      the seat before the first operation and after each. */
  method Operate(seat: Seat, script: seq<Operation>, current: Modifiers) returns (ghost trace: seq<SeatView>)
    requires seat.Inv() && forall op :: op in script ==> WellFormed(op)
    modifies seat
    ensures seat.Inv()
    ensures |trace| == |script| + 1 && trace[0] == old(seat.View()) && trace[|script|] == seat.View()
    ensures FaultIsFinal(trace)
    ensures (None, seat.keyboard) in seat.seated
    ensures forall k :: k in seat.seated ==> k.0 == None && (k.1.Some? ==> k.1.value.Device?)
  {
    trace := [seat.View()];
    for i := 0 to |script|
      invariant seat.Inv()
      invariant |trace| == i + 1 && trace[0] == old(seat.View()) && trace[i] == seat.View()
      invariant FaultIsFinal(trace)
    {
      assert script[i] in script && WellFormed(script[i]);
      var t, ok;
      match script[i] {
        case FocusOp(busy) =>
          ok := FocusWindow(seat, busy);
        case KeyOp(target, busy, agent, code, modifiers) =>
          ghost var sent;
          t, ok, sent := KeyTransaction(seat, target, busy, current, agent, code, modifiers);
        case TextOp(target, busy, agent, scalars) =>
          var completed;
          ghost var sent;
          t, ok, completed, sent := TextTransaction(seat, target, busy, current, agent, scalars, true);
        case PointerOp(target, busy, agent, pointer, views, kind, points, button, clicks, mods, axes) =>
          t, ok := PointerTransaction(seat, target, busy, current, views, agent, pointer, kind, points, button, clicks, mods, axes);
      }
      trace := trace + [seat.View()];
    }
  }
}
