/** The compositor's seat as the input transactions use it. Every call may throw before or
    after its effect, and surfaces may go away during any of them. */
module Compositor {
  import opened Common
  import opened SurfaceModel
  import TextInput

  /** A keyboard device, or the protocol-only carrier of a private text keymap. */
  datatype Keyboard = Device(id: nat) | Carrier(keymap: TextInput.Keymap)

  /** A keyboard object that a client has bound. */
  type Resource = nat

  datatype Modifiers = Modifiers(depressed: nat, latched: nat, locked: nat, group: nat)

  const NO_MODIFIERS := Modifiers(0, 0, 0, 0)

  /** A key press as it was sent: to the focused surface, under the modifiers sent last, to
      be read through the keymaps that its client's keyboard objects had then. */
  datatype Press = Press(surface: Option<Surface>, code: nat, mods: Modifiers, keymaps: map<Resource, Keyboard>)

  /** Where a pointer event goes, and the modifiers sent last. */
  datatype Aim = Aim(surface: Option<Surface>, mods: Modifiers)

  /** A pointer event as it was sent. */
  datatype Pointed =
    | Moved(aim: Aim, at: Point)
    | Pressed(aim: Aim, code: nat)
    | Released(aim: Aim, code: nat)
    | Scrolled(aim: Aim)

  predicate Broadcast(was: map<Resource, Keyboard>, k: Option<Keyboard>, now: map<Resource, Keyboard>) {
    && was.Keys <= now.Keys
    && forall r :: r in now ==> (r in was && now[r] == was[r]) || (k.Some? && now[r] == k.value)
  }

  /** Everything about a seat at one moment. */
  datatype SeatView = SeatView(
    keyboard: Option<Keyboard>, kbFocus: Option<Surface>, mods: Modifiers, keymaps: map<Resource, Keyboard>,
    keysDown: set<(Option<Surface>, nat)>, mouse: Option<nat>, ptrFocus: Option<Surface>, local: Point, cursor: Point,
    buttonsDown: set<(Option<Surface>, nat)>, alive: set<Surface>, good: set<Surface>, faulted: bool,
    presses: seq<Press>, pointed: seq<Pointed>, framed: bool, seated: set<(Option<Surface>, Option<Keyboard>)>, throws: nat)

  class Seat {
    var keyboard: Option<Keyboard>
    var kbFocus: Option<Surface>
    var mods: Modifiers
    var keymaps: map<Resource, Keyboard>
    var keysDown: set<(Option<Surface>, nat)>
    var mouse: Option<nat>
    var ptrFocus: Option<Surface>
    var local: Point
    var cursor: Point
    var buttonsDown: set<(Option<Surface>, nat)>
    var alive: set<Surface>
    var good: set<Surface>
    var faulted: bool
    /** The keyboard objects of each surface's client, and the surfaces whose client has a
        pointer object. */
    const bound: map<Surface, seq<Resource>>
    const pointable: set<Surface>

    /** History: the presses and pointer events sent, and whether a frame has closed the last
        of these; every keyboard that was made the seat's, with the surface that had the
        focus then; and the number of calls that threw. */
    ghost var presses: seq<Press>
    ghost var pointed: seq<Pointed>
    ghost var framed: bool
    ghost var seated: set<(Option<Surface>, Option<Keyboard>)>
    ghost var throws: nat

    constructor (keyboard: Option<Keyboard>, mouse: Option<nat>, alive: set<Surface>, good: set<Surface>,
                 bound: map<Surface, seq<Resource>>, pointable: set<Surface>, keymaps: map<Resource, Keyboard>)
      requires keyboard.Some? ==> keyboard.value.Device?
      requires forall r :: r in keymaps ==> keymaps[r].Device?
      ensures Inv() && !faulted
    {
      this.keyboard, this.mouse, this.alive, this.good := keyboard, mouse, alive, good;
      this.bound, this.pointable, this.keymaps := bound, pointable, keymaps;
      kbFocus, ptrFocus, mods, local, cursor := None, None, NO_MODIFIERS, Point(0.0, 0.0), Point(0.0, 0.0);
      keysDown, buttonsDown, faulted := {}, {}, false;
      presses, pointed, framed, throws := [], [], true, 0;
      seated := {(None, keyboard)};
    }

    ghost function View(): SeatView
      reads this
    {
      SeatView(keyboard, kbFocus, mods, keymaps, keysDown, mouse, ptrFocus, local, cursor, buttonsDown, alive, good,
               faulted, presses, pointed, framed, seated, throws)
    }

    /** No text carrier is or was the seat's keyboard, which was only ever changed while no
        surface had the focus; and unless a restoration failed none is any client's keymap. */
    ghost predicate Inv()
      reads this
    {
      && Seatings()
      && (!faulted ==> forall r :: r in keymaps ==> keymaps[r].Device?)
    }

    ghost predicate Seatings()
      reads this
    {
      (None, keyboard) in seated && forall k :: k in seated ==> k.0 == None && (k.1.Some? ==> k.1.value.Device?)
    }

    function Lock(s: Option<Surface>): Option<Surface>
      reads this
    {
      if s.Some? && s.value in alive then s else None
    }

    function LiveSurface(s: Option<Surface>): Option<Surface>
      reads this
    {
      if s.Some? && s.value in alive && s.value in good then s else None
    }

    /** The keyboard objects of the focused surface's client. */
    function FocusBound(): seq<Resource>
      reads this
    {
      if kbFocus.Some? && kbFocus.value in bound then bound[kbFocus.value] else []
    }

    /** The client of the surface under the pointer has a pointer object. */
    predicate FocusPointable()
      reads this
    {
      ptrFocus.Some? && ptrFocus.value in pointable
    }

    function Aimed(): Aim
      reads this
    {
      Aim(ptrFocus, mods)
    }

    /** What any call may bring along: surfaces go, and a throw is noted. */
    twostate predicate Aged(threw: bool)
      reads this
    {
      alive <= old(alive) && good <= old(good) && throws == old(throws) + (if threw then 1 else 0)
    }

    /** What any number of calls may bring along. */
    twostate predicate Later()
      reads this
    {
      alive <= old(alive) && good <= old(good) && throws >= old(throws)
    }

    method Perish(threw: bool)
      modifies `alive, `good, `throws
      ensures Aged(threw)
    {
      var dead: set<Surface> := *;
      var unbound: set<Surface> := *;
      alive, good := alive - dead, good - unbound;
      throws := throws + (if threw then 1 else 0);
    }

    method SetKeyboardFocus(s: Option<Surface>) returns (threw: bool)
      modifies `kbFocus, `alive, `good, `throws
      ensures Aged(threw)
      ensures kbFocus == s || (threw && kbFocus == old(kbFocus))
    {
      threw := *;
      var applied: bool := *;
      if !threw || applied { kbFocus := s; }
      Perish(threw);
    }

    /** An explicit activation: the compositor moves its focus as it sees fit. */
    method Activate() returns (threw: bool)
      modifies `kbFocus, `mods, `ptrFocus, `local, `cursor, `alive, `good, `throws
      ensures Aged(threw)
    {
      threw, kbFocus, mods, ptrFocus, local, cursor := *, *, *, *, *, *;
      Perish(threw);
    }

    /** May broadcast the new keyboard's keymap to any clients, or to none. */
    method SetKeyboard(k: Option<Keyboard>) returns (threw: bool)
      modifies `keyboard, `keymaps, `seated, `alive, `good, `throws
      ensures Aged(threw)
      ensures (keyboard == k && seated == old(seated) + {(kbFocus, k)} && Broadcast(old(keymaps), k, keymaps))
        || (threw && keyboard == old(keyboard) && seated == old(seated) && keymaps == old(keymaps))
    {
      threw := *;
      var applied: bool := *;
      if !threw || applied {
        keyboard := k;
        seated := seated + {(kbFocus, k)};
        if k.Some? {
          var told: set<Resource> := *;
          keymaps := keymaps + map r | r in told :: k.value;
        }
      }
      Perish(threw);
    }

    method SendKeymap(r: Resource, k: Keyboard) returns (threw: bool)
      modifies `keymaps, `alive, `good, `throws
      ensures Aged(threw)
      ensures keymaps == old(keymaps)[r := k] || (threw && keymaps == old(keymaps))
    {
      threw := *;
      var applied: bool := *;
      if !threw || applied { keymaps := keymaps[r := k]; }
      Perish(threw);
    }

    method SendKeyboardMods(m: Modifiers) returns (threw: bool)
      modifies `mods, `alive, `good, `throws
      ensures Aged(threw)
      ensures mods == m || (threw && mods == old(mods))
    {
      threw := *;
      var applied: bool := *;
      if !threw || applied { mods := m; }
      Perish(threw);
    }

    method PressKey(code: nat) returns (threw: bool)
      modifies `keysDown, `presses, `alive, `good, `throws
      ensures Aged(threw)
      ensures (keysDown == old(keysDown) + {(kbFocus, code)} && presses == old(presses) + [Press(kbFocus, code, mods, keymaps)])
        || (threw && keysDown == old(keysDown) && presses == old(presses))
    {
      threw := *;
      var applied: bool := *;
      if !threw || applied {
        keysDown := keysDown + {(kbFocus, code)};
        presses := presses + [Press(kbFocus, code, mods, keymaps)];
      }
      Perish(threw);
    }

    method ReleaseKey(code: nat) returns (threw: bool)
      modifies `keysDown, `alive, `good, `throws
      ensures Aged(threw)
      ensures keysDown == old(keysDown) - {(kbFocus, code)} || (threw && keysDown == old(keysDown))
    {
      threw := *;
      var applied: bool := *;
      if !threw || applied { keysDown := keysDown - {(kbFocus, code)}; }
      Perish(threw);
    }

    // Pointer calls may also warp the cursor.

    method SetMouse(m: Option<nat>) returns (threw: bool)
      modifies `mouse, `cursor, `alive, `good, `throws
      ensures Aged(threw)
      ensures mouse == m || (threw && mouse == old(mouse))
    {
      threw := *;
      var applied: bool := *;
      cursor := *;
      if !threw || applied { mouse := m; }
      Perish(threw);
    }

    method SetPointerFocus(s: Option<Surface>, at: Point) returns (threw: bool)
      modifies `ptrFocus, `local, `cursor, `alive, `good, `throws
      ensures Aged(threw)
      ensures (ptrFocus == s && local == at) || (threw && ptrFocus == old(ptrFocus) && local == old(local))
    {
      threw := *;
      var applied: bool := *;
      cursor := *;
      if !threw || applied { ptrFocus, local := s, at; }
      Perish(threw);
    }

    method SendPointerMotion(at: Point) returns (threw: bool)
      modifies `local, `cursor, `pointed, `framed, `alive, `good, `throws
      ensures Aged(threw)
      ensures (local == at && pointed == old(pointed) + [Moved(Aimed(), at)])
        || (threw && local == old(local) && pointed == old(pointed))
    {
      threw := *;
      var applied: bool := *;
      cursor := *;
      if !threw || applied {
        local, framed := at, false;
        pointed := pointed + [Moved(Aimed(), at)];
      }
      Perish(threw);
    }

    method SendPointerFrame() returns (threw: bool)
      modifies `cursor, `framed, `alive, `good, `throws
      ensures Aged(threw)
      ensures framed || (threw && framed == old(framed))
    {
      threw := *;
      var applied: bool := *;
      cursor := *;
      if !threw || applied { framed := true; }
      Perish(threw);
    }

    method SendPointerAxis() returns (threw: bool)
      modifies `cursor, `pointed, `framed, `alive, `good, `throws
      ensures Aged(threw)
      ensures pointed == old(pointed) + [Scrolled(Aimed())] || (threw && pointed == old(pointed))
    {
      threw := *;
      var applied: bool := *;
      cursor := *;
      if !threw || applied { pointed, framed := pointed + [Scrolled(Aimed())], false; }
      Perish(threw);
    }

    method SendPointerButton(code: nat, down: bool) returns (threw: bool)
      modifies `buttonsDown, `cursor, `pointed, `framed, `alive, `good, `throws
      ensures Aged(threw)
      ensures (&& buttonsDown == (if down then old(buttonsDown) + {(ptrFocus, code)} else old(buttonsDown) - {(ptrFocus, code)})
               && pointed == old(pointed) + [if down then Pressed(Aimed(), code) else Released(Aimed(), code)])
        || (threw && buttonsDown == old(buttonsDown) && pointed == old(pointed))
    {
      threw := *;
      var applied: bool := *;
      cursor := *;
      if !threw || applied {
        buttonsDown := if down then buttonsDown + {(ptrFocus, code)} else buttonsDown - {(ptrFocus, code)};
        pointed, framed := pointed + [if down then Pressed(Aimed(), code) else Released(Aimed(), code)], false;
      }
      Perish(threw);
    }
  }
}
