/** Borrowing the seat for one transaction and giving it back. Any compositor call may
    throw; a thrown exception is a true result here, which callers pass on. */
module InputTransactions {
  import opened Common
  import opened SurfaceModel
  import opened Compositor

  class InputTransaction {
    const seat: Seat
    const target: Surface
    const keyboard: Option<Keyboard>
    const mouse: Option<nat>
    const kbFocus: Option<Surface>
    const ptrFocus: Option<Surface>
    const cursor: Point
    const pointerLocal: Point
    const mods: Modifiers
    var keyboardBorrowed: bool
    var pointerBorrowed: bool
    var restored: bool
    var heldKey: Option<nat>
    var heldButton: Option<nat>
    var textResources: seq<Resource>

    ghost const keysBefore: set<(Option<Surface>, nat)>
    ghost const buttonsBefore: set<(Option<Surface>, nat)>

    constructor (seat: Seat, target: Surface, mods: Modifiers, pointerLocal: Point)
      requires seat.Inv() && !seat.faulted
      ensures this.seat == seat && this.target == target && Active()
      ensures !keyboardBorrowed && !pointerBorrowed && !restored
      ensures SnapshotOf()
    {
      this.seat, this.target, this.mods, this.pointerLocal := seat, target, mods, pointerLocal;
      keyboard, mouse, kbFocus, ptrFocus, cursor := seat.keyboard, seat.mouse, seat.kbFocus, seat.ptrFocus, seat.cursor;
      keyboardBorrowed, pointerBorrowed, restored := false, false, false;
      heldKey, heldButton, textResources := None, None, [];
      keysBefore, buttonsBefore := seat.keysDown, seat.buttonsDown;
    }

    /** The snapshot is of the seat as it stands. */
    ghost predicate SnapshotOf()
      reads this, seat
    {
      && keyboard == seat.keyboard && mouse == seat.mouse && kbFocus == seat.kbFocus && ptrFocus == seat.ptrFocus
      && cursor == seat.cursor && keysBefore == seat.keysDown && buttonsBefore == seat.buttonsDown
    }

    /** What holds from the snapshot until restoration: what is not borrowed is untouched,
        text maps are only where they are accounted for, and only the remembered key and
        button can be down because of this transaction. */
    ghost predicate Active()
      reads this, seat
    {
      && (keyboard.Some? ==> keyboard.value.Device?)
      && seat.Seatings()
      && (forall r :: r in seat.keymaps && seat.keymaps[r].Carrier? ==> r in textResources)
      && (!keyboardBorrowed ==> seat.keyboard == keyboard && seat.kbFocus == kbFocus && heldKey == None)
      && (textResources != [] ==> keyboardBorrowed && keyboard.Some?)
      && (!pointerBorrowed ==> seat.mouse == mouse && seat.ptrFocus == ptrFocus && heldButton == None)
      && (heldKey.Some? ==> seat.kbFocus == Some(target))
      && (heldButton.Some? ==> seat.ptrFocus == Some(target))
      && (forall p :: p in seat.keysDown ==> p in keysBefore || (heldKey.Some? && p == (Some(target), heldKey.value)))
      && (forall p :: p in seat.buttonsDown ==> p in buttonsBefore || (heldButton.Some? && p == (Some(target), heldButton.value)))
    }

    /** Everything is as it was found, dead surfaces aside. */
    ghost predicate GivenBack()
      reads this, seat
    {
      && seat.keyboard == keyboard && seat.mouse == mouse && seat.cursor == cursor
      && seat.Lock(seat.kbFocus) == seat.LiveSurface(kbFocus)
      && seat.Lock(seat.ptrFocus) == seat.LiveSurface(ptrFocus)
      && CleanedUp()
    }

    /** No text map is left anywhere, on a target that is still live no key or button is left
        down, and the surfaces that had the focus have their modifiers and position. */
    ghost predicate CleanedUp()
      reads this, seat
    {
      && MapsRestored() && NoKeyLeft() && NoButtonLeft()
      && (keyboardBorrowed && seat.LiveSurface(kbFocus).Some? ==> seat.mods == mods)
      && (pointerBorrowed && seat.LiveSurface(ptrFocus).Some? ==> seat.local == pointerLocal)
    }

    ghost predicate NoKeyLeft()
      reads this, seat
    {
      seat.LiveSurface(Some(target)).Some? ==> forall c :: (Some(target), c) in seat.keysDown ==> (Some(target), c) in keysBefore
    }

    ghost predicate NoButtonLeft()
      reads this, seat
    {
      seat.LiveSurface(Some(target)).Some? ==> forall c :: (Some(target), c) in seat.buttonsDown ==> (Some(target), c) in buttonsBefore
    }

    /** Every keyboard object that got a text map has the seat's own keymap again. */
    ghost predicate MapsRestored()
      reads this, seat
    {
      && (forall r :: r in textResources ==> keyboard.Some? && r in seat.keymaps && seat.keymaps[r] == keyboard.value)
      && (forall r :: r in seat.keymaps ==> seat.keymaps[r].Device?)
    }

    /** The target is there, and its client has a keyboard object. */
    predicate Reachable()
      reads seat
    {
      target in seat.alive && target in seat.good && target in seat.bound && seat.bound[target] != []
    }

    /** The target is there, and its client has a pointer object. */
    predicate Pointable()
      reads seat
    {
      target in seat.alive && target in seat.good && target in seat.pointable
    }

    method BorrowKeyboard(agent: Keyboard) returns (threw: bool)
      requires Active() && !keyboardBorrowed && textResources == [] && agent.Device?
      modifies `keyboardBorrowed, seat`keyboard, seat`kbFocus, seat`keymaps, seat`seated, seat`alive, seat`good, seat`throws
      ensures Active() && keyboardBorrowed
      ensures !threw ==> seat.kbFocus == Some(target) && seat.keyboard == Some(agent) && seat.FocusBound() != []
      ensures seat.Later()
      ensures threw ==> seat.throws > old(seat.throws) || !Reachable()
    {
      keyboardBorrowed := true; // restoration also covers failed setup
      threw := seat.SetKeyboardFocus(None);
      if threw { return; }
      threw := seat.SetKeyboard(Some(agent));
      if threw { return; }
      threw := seat.SetKeyboardFocus(seat.LiveSurface(Some(target)));
      if threw { return; }
      threw := seat.LiveSurface(Some(target)) == None
        || seat.Lock(seat.kbFocus) != seat.Lock(Some(target)) || seat.FocusBound() == [];
    }

    /** Sends the text map to the target's own keyboard objects and to no others. */
    method InstallTargetKeymap(carrier: Keyboard) returns (threw: bool)
      requires Active() && heldKey == None
      modifies `textResources, seat`keymaps, seat`alive, seat`good, seat`throws
      ensures Active()
      ensures !threw ==> textResources == seat.FocusBound() && textResources != []
      ensures !threw ==> forall r :: r in textResources ==> r in seat.keymaps && seat.keymaps[r] == carrier
      ensures forall r :: r in seat.keymaps && r !in textResources ==> r in old(seat.keymaps) && seat.keymaps[r] == old(seat.keymaps)[r]
      ensures seat.Later()
      ensures threw && old(keyboardBorrowed && keyboard.Some? && seat.FocusBound() != [] && textResources == [] && seat.kbFocus == Some(target)) ==>
        seat.throws > old(seat.throws) || !Reachable()
    {
      if !keyboardBorrowed || keyboard == None || seat.FocusBound() == [] || textResources != []
        || seat.LiveSurface(Some(target)) == None || seat.Lock(seat.kbFocus) != seat.Lock(Some(target)) {
        return true;
      }
      textResources := seat.FocusBound();
      for i := 0 to |textResources|
        invariant Active() && textResources == old(seat.FocusBound())
        invariant forall j :: 0 <= j < i ==> textResources[j] in seat.keymaps && seat.keymaps[textResources[j]] == carrier
        invariant forall r :: r in seat.keymaps && r !in textResources ==> r in old(seat.keymaps) && seat.keymaps[r] == old(seat.keymaps)[r]
        invariant seat.kbFocus == old(seat.kbFocus) && seat.Later()
      {
        threw := seat.SendKeymap(textResources[i], carrier);
        if threw { return; }
      }
      return false;
    }

    method Key(code: nat, modifiers: Modifiers) returns (threw: bool)
      requires Active() && keyboardBorrowed && seat.kbFocus == Some(target) && heldKey == None
      modifies `heldKey, seat`mods, seat`keysDown, seat`presses, seat`alive, seat`good, seat`throws
      ensures Active()
      ensures !threw ==> heldKey == None
      ensures !threw ==> seat.mods == NO_MODIFIERS
      ensures seat.presses == old(seat.presses) + [Press(Some(target), code, modifiers, seat.keymaps)]
        || (threw && seat.presses == old(seat.presses))
      ensures seat.Later() && (threw ==> seat.throws > old(seat.throws))
    {
      threw := seat.SendKeyboardMods(modifiers);
      if threw { return; }
      threw := Stroke(code);
      if threw { return; }
      threw := seat.SendKeyboardMods(NO_MODIFIERS);
    }

    /** The press and release inside a key. */
    method Stroke(code: nat) returns (threw: bool)
      requires Active() && keyboardBorrowed && seat.kbFocus == Some(target) && heldKey == None
      modifies `heldKey, seat`keysDown, seat`presses, seat`alive, seat`good, seat`throws
      ensures Active()
      ensures !threw ==> heldKey == None
      ensures seat.presses == old(seat.presses) + [Press(Some(target), code, seat.mods, seat.keymaps)]
        || (threw && seat.presses == old(seat.presses))
      ensures seat.Later() && (threw ==> seat.throws > old(seat.throws))
    {
      heldKey := Some(code);
      threw := seat.PressKey(code);
      if threw { return; }
      threw := seat.ReleaseKey(code);
      if threw { return; }
      heldKey := None;
    }

    method BorrowPointer(agent: Option<nat>, local: Point) returns (threw: bool)
      requires Active() && !pointerBorrowed
      modifies `pointerBorrowed, seat`mouse, seat`ptrFocus, seat`local, seat`cursor, seat`alive, seat`good, seat`throws
      ensures Active()
      ensures !threw ==> pointerBorrowed && seat.ptrFocus == Some(target) && seat.mouse == agent && seat.local == local
      ensures !threw ==> seat.FocusPointable()
      ensures seat.Later()
      ensures threw ==> agent == None || seat.throws > old(seat.throws) || !Pointable()
    {
      if agent == None { return true; }
      pointerBorrowed := true;
      threw := seat.SetMouse(agent);
      if threw { return; }
      threw := seat.SetPointerFocus(seat.LiveSurface(Some(target)), local);
      if threw { return; }
      threw := seat.LiveSurface(Some(target)) == None
        || seat.Lock(seat.ptrFocus) != seat.Lock(Some(target)) || !seat.FocusPointable();
    }

    method Motion(at: Point) returns (threw: bool)
      requires Active() && pointerBorrowed
      modifies seat`local, seat`cursor, seat`pointed, seat`framed, seat`alive, seat`good, seat`throws
      ensures Active()
      ensures !threw ==> seat.local == at && seat.framed
      ensures seat.pointed == old(seat.pointed) + [Moved(seat.Aimed(), at)] || (threw && seat.pointed == old(seat.pointed))
      ensures seat.Later() && (threw ==> seat.throws > old(seat.throws))
    {
      threw := seat.SendPointerMotion(at);
      if threw { return; }
      threw := seat.SendPointerFrame();
    }

    method Button(code: nat, down: bool) returns (threw: bool)
      requires Active() && pointerBorrowed && seat.ptrFocus == Some(target)
      requires heldButton == None || (!down && heldButton == Some(code))
      modifies `heldButton, seat`buttonsDown, seat`cursor, seat`pointed, seat`framed, seat`alive, seat`good, seat`throws
      ensures Active()
      ensures heldButton == Some(code) || (!down && heldButton == None)
      ensures !threw ==> heldButton == (if down then Some(code) else None) && seat.framed
      ensures seat.pointed == old(seat.pointed) + [if down then Pressed(seat.Aimed(), code) else Released(seat.Aimed(), code)]
        || (threw && seat.pointed == old(seat.pointed))
      ensures seat.Later() && (threw ==> seat.throws > old(seat.throws))
    {
      if down { heldButton := Some(code); }
      threw := seat.SendPointerButton(code, down);
      if threw { return; }
      if !down { heldButton := None; }
      threw := seat.SendPointerFrame();
    }

    // ------------------------------------------------------------ restoration

    /** Restoration has begun: what it may leave undone is covered by a fault. */
    ghost predicate Ending()
      reads this, seat
    {
      && seat.Seatings()
      && (keyboard.Some? ==> keyboard.value.Device?)
      && (textResources != [] ==> keyboardBorrowed && keyboard.Some?)
      && (!keyboardBorrowed ==> seat.keyboard == keyboard && seat.kbFocus == kbFocus)
      && (!pointerBorrowed ==> seat.mouse == mouse && seat.ptrFocus == ptrFocus)
    }

    /** Releases a key that may still be down; an exception sets the fault. */
    method ReleaseHeldKey()
      requires Active()
      modifies seat`keysDown, seat`faulted, seat`alive, seat`good, seat`throws
      ensures old(seat.faulted) ==> seat.faulted
      ensures !seat.faulted ==> NoKeyLeft()
      ensures seat.throws == old(seat.throws) ==> seat.faulted == old(seat.faulted)
      ensures seat.alive <= old(seat.alive) && seat.good <= old(seat.good) && seat.throws >= old(seat.throws)
    {
      if heldKey.Some? && seat.LiveSurface(Some(target)).Some? && seat.Lock(seat.kbFocus) == seat.Lock(Some(target)) {
        var threw := seat.ReleaseKey(heldKey.value);
        if threw { seat.faulted := true; }
      }
    }

    /** Gives every touched keyboard object its own keymap back, trying each one. */
    method RestoreKeymaps()
      requires Ending()
      requires forall r :: r in seat.keymaps && seat.keymaps[r].Carrier? ==> r in textResources
      modifies seat`keymaps, seat`faulted, seat`alive, seat`good, seat`throws
      ensures old(seat.faulted) ==> seat.faulted
      ensures !seat.faulted ==> MapsRestored()
      ensures seat.throws == old(seat.throws) ==> seat.faulted == old(seat.faulted)
      ensures seat.alive <= old(seat.alive) && seat.good <= old(seat.good) && seat.throws >= old(seat.throws)
    {
      for i := 0 to |textResources|
        invariant old(seat.faulted) ==> seat.faulted
        invariant !seat.faulted ==> forall j :: 0 <= j < i ==>
          textResources[j] in seat.keymaps && seat.keymaps[textResources[j]] == keyboard.value
        invariant forall r :: r in seat.keymaps && seat.keymaps[r].Carrier? ==> r in textResources
        invariant seat.throws == old(seat.throws) ==> seat.faulted == old(seat.faulted)
        invariant seat.alive <= old(seat.alive) && seat.good <= old(seat.good) && seat.throws >= old(seat.throws)
      {
        var threw := seat.SendKeymap(textResources[i], keyboard.value);
        if threw { seat.faulted := true; }
      }
    }

    method KeyboardBack() returns (threw: bool)
      requires Ending() && keyboardBorrowed
      modifies seat`keyboard, seat`kbFocus, seat`mods, seat`keymaps, seat`seated, seat`alive, seat`good, seat`throws
      ensures Ending()
      ensures !threw ==> seat.keyboard == keyboard && (seat.kbFocus == None || seat.kbFocus == kbFocus)
      ensures !threw && seat.LiveSurface(kbFocus).Some? ==> seat.kbFocus == kbFocus && seat.mods == mods
      ensures old(MapsRestored()) ==> MapsRestored()
      ensures threw ==> seat.throws > old(seat.throws)
      ensures seat.alive <= old(seat.alive) && seat.good <= old(seat.good) && seat.throws >= old(seat.throws)
    {
      threw := seat.SetKeyboardFocus(None);
      if threw { return; }
      threw := seat.SetKeyboard(keyboard);
      if threw { return; }
      threw := seat.SetKeyboardFocus(seat.LiveSurface(kbFocus));
      if threw { return; }
      if seat.LiveSurface(kbFocus).Some? {
        threw := seat.SendKeyboardMods(mods);
      }
    }

    method RestoreKeyboard() returns (threw: bool)
      requires Active() && keyboardBorrowed
      modifies seat`keyboard, seat`kbFocus, seat`mods, seat`keymaps, seat`seated, seat`keysDown, seat`faulted,
               seat`alive, seat`good, seat`throws
      ensures Ending()
      ensures !threw ==> seat.keyboard == keyboard && (seat.kbFocus == None || seat.kbFocus == kbFocus)
      ensures !threw && seat.LiveSurface(kbFocus).Some? ==> seat.kbFocus == kbFocus && seat.mods == mods
      ensures !threw && !seat.faulted ==> MapsRestored() && NoKeyLeft()
      ensures old(seat.faulted) ==> seat.faulted
      ensures seat.throws == old(seat.throws) ==> !threw && seat.faulted == old(seat.faulted)
      ensures seat.alive <= old(seat.alive) && seat.good <= old(seat.good) && seat.throws >= old(seat.throws)
    {
      ReleaseHeldKey();
      RestoreKeymaps();
      threw := KeyboardBack();
    }

    method ReleaseHeldButton() returns (threw: bool)
      requires heldButton.Some? ==> seat.ptrFocus == Some(target)
      requires forall p :: p in seat.buttonsDown ==> p in buttonsBefore || (heldButton.Some? && p == (Some(target), heldButton.value))
      modifies seat`cursor, seat`pointed, seat`framed, seat`buttonsDown, seat`alive, seat`good, seat`throws
      ensures !threw ==> NoButtonLeft()
      ensures seat.Aged(threw) || (!threw && seat.throws == old(seat.throws) && seat.alive == old(seat.alive) && seat.good == old(seat.good))
      ensures old(seat.pointed) <= seat.pointed
    {
      if heldButton.Some? && seat.LiveSurface(Some(target)).Some? && seat.Lock(seat.ptrFocus) == seat.Lock(Some(target)) {
        threw := seat.SendPointerButton(heldButton.value, false);
      } else {
        threw := false;
      }
    }

    method PointerBack() returns (threw: bool)
      requires Ending() && pointerBorrowed
      modifies seat`mouse, seat`ptrFocus, seat`local, seat`cursor, seat`pointed, seat`framed, seat`alive, seat`good, seat`throws
      ensures Ending()
      ensures !threw ==> seat.mouse == mouse && (seat.ptrFocus == None || seat.ptrFocus == ptrFocus)
      ensures !threw && seat.LiveSurface(ptrFocus).Some? ==> seat.ptrFocus == ptrFocus && seat.local == pointerLocal
      ensures !threw ==> seat.framed
      ensures threw ==> seat.throws > old(seat.throws)
      ensures seat.alive <= old(seat.alive) && seat.good <= old(seat.good) && seat.throws >= old(seat.throws)
      ensures old(seat.pointed) <= seat.pointed
    {
      threw := seat.SendPointerFrame();
      if threw { return; }
      threw := seat.SetPointerFocus(seat.LiveSurface(ptrFocus), pointerLocal);
      if threw { return; }
      if seat.LiveSurface(ptrFocus).Some? {
        threw := seat.SendPointerMotion(pointerLocal);
        if threw { return; }
      }
      threw := seat.SendPointerFrame();
      if threw { return; }
      threw := seat.SetMouse(mouse);
    }

    method RestorePointer() returns (threw: bool)
      requires Ending() && pointerBorrowed
      requires heldButton.Some? ==> seat.ptrFocus == Some(target)
      requires forall p :: p in seat.buttonsDown ==> p in buttonsBefore || (heldButton.Some? && p == (Some(target), heldButton.value))
      modifies seat`mouse, seat`ptrFocus, seat`local, seat`cursor, seat`pointed, seat`framed, seat`buttonsDown, seat`alive, seat`good, seat`throws
      ensures Ending()
      ensures !threw ==> seat.mouse == mouse && (seat.ptrFocus == None || seat.ptrFocus == ptrFocus) && NoButtonLeft()
      ensures !threw && seat.LiveSurface(ptrFocus).Some? ==> seat.ptrFocus == ptrFocus && seat.local == pointerLocal
      ensures !threw ==> seat.framed
      ensures threw ==> seat.throws > old(seat.throws)
      ensures seat.alive <= old(seat.alive) && seat.good <= old(seat.good) && seat.throws >= old(seat.throws)
      ensures old(seat.pointed) <= seat.pointed
    {
      threw := ReleaseHeldButton();
      if threw { return; }
      threw := PointerBack();
    }

    /** A surface object whose client resource is gone. */
    ghost predicate HalfDead(s: Option<Surface>)
      reads seat
    {
      seat.Lock(s) != seat.LiveSurface(s)
    }

    method GiveBack() returns (threw: bool)
      requires Active()
      modifies seat`keyboard, seat`kbFocus, seat`mods, seat`keymaps, seat`seated, seat`keysDown, seat`mouse,
               seat`ptrFocus, seat`local, seat`cursor, seat`pointed, seat`framed, seat`buttonsDown, seat`faulted, seat`alive, seat`good, seat`throws
      ensures Ending()
      ensures !threw ==> seat.keyboard == keyboard && (seat.kbFocus == None || seat.kbFocus == kbFocus)
      ensures !threw ==> seat.mouse == mouse && (seat.ptrFocus == None || seat.ptrFocus == ptrFocus)
      ensures !threw && seat.LiveSurface(kbFocus).Some? ==> seat.kbFocus == kbFocus
      ensures !threw && seat.LiveSurface(ptrFocus).Some? ==> seat.ptrFocus == ptrFocus
      ensures !threw && !seat.faulted ==> CleanedUp()
      ensures old(seat.faulted) ==> seat.faulted
      ensures seat.throws == old(seat.throws) ==> !threw && seat.faulted == old(seat.faulted)
      ensures seat.alive <= old(seat.alive) && seat.good <= old(seat.good) && seat.throws >= old(seat.throws)
      ensures old(seat.pointed) <= seat.pointed && (!pointerBorrowed ==> seat.pointed == old(seat.pointed))
      ensures !pointerBorrowed ==> seat.cursor == old(seat.cursor)
      ensures if pointerBorrowed then threw || seat.framed else seat.framed == old(seat.framed)
    {
      threw := false;
      if keyboardBorrowed {
        threw := RestoreKeyboard();
        if threw { return; }
      }
      if pointerBorrowed { threw := RestorePointer(); }
    }

    /** Runs at most once, never throws: afterwards either everything is given back or the
        fault is set. The fault is set only if a call threw, the cursor moved, or a focused
        surface's object outlived its client resource. */
    method Restore()
      requires !restored ==> Active()
      modifies `restored, seat`keyboard, seat`kbFocus, seat`mods, seat`keymaps, seat`seated, seat`keysDown, seat`mouse,
               seat`ptrFocus, seat`local, seat`cursor, seat`pointed, seat`framed, seat`buttonsDown, seat`faulted, seat`alive, seat`good, seat`throws
      ensures restored
      ensures !old(restored) ==> seat.Inv() && (seat.faulted || GivenBack())
      ensures old(seat.faulted) ==> seat.faulted
      ensures seat.faulted && !old(seat.faulted) ==>
        seat.throws > old(seat.throws) || seat.cursor != cursor || HalfDead(kbFocus) || HalfDead(ptrFocus)
      ensures seat.alive <= old(seat.alive) && seat.good <= old(seat.good) && seat.throws >= old(seat.throws)
      ensures old(restored) ==> unchanged(seat)
      ensures old(seat.pointed) <= seat.pointed && (!pointerBorrowed ==> seat.pointed == old(seat.pointed))
      ensures !pointerBorrowed ==> seat.cursor == old(seat.cursor)
      ensures if pointerBorrowed then old(restored) || seat.faulted || seat.framed else seat.framed == old(seat.framed)
      ensures !old(restored) && !seat.faulted ==> seat.keyboard == keyboard && seat.mouse == mouse && seat.cursor == cursor
      ensures !old(restored) && !seat.faulted && kbFocus.Some? && kbFocus.value in seat.alive && kbFocus.value in seat.good ==>
        seat.kbFocus == kbFocus && (keyboardBorrowed ==> seat.mods == mods)
      ensures !old(restored) && !seat.faulted && seat.kbFocus.Some? && seat.kbFocus.value in seat.alive ==> seat.kbFocus == kbFocus
      ensures !old(restored) && !seat.faulted && ptrFocus.Some? && ptrFocus.value in seat.alive && ptrFocus.value in seat.good ==>
        seat.ptrFocus == ptrFocus && (pointerBorrowed ==> seat.local == pointerLocal)
      ensures !old(restored) && !seat.faulted && seat.ptrFocus.Some? && seat.ptrFocus.value in seat.alive ==> seat.ptrFocus == ptrFocus
      ensures !old(restored) && !seat.faulted && target in seat.alive && target in seat.good ==> forall c ::
        && ((Some(target), c) in seat.keysDown ==> (Some(target), c) in keysBefore)
        && ((Some(target), c) in seat.buttonsDown ==> (Some(target), c) in buttonsBefore)
      ensures !old(restored) && !seat.faulted ==>
        && (forall r :: r in seat.keymaps ==> seat.keymaps[r].Device?)
        && forall r :: r in textResources ==> keyboard.Some? && r in seat.keymaps && seat.keymaps[r] == keyboard.value
      ensures seat.faulted && !old(seat.faulted) && seat.throws == old(seat.throws) ==>
        || seat.cursor != cursor
        || (kbFocus.Some? && kbFocus.value in seat.alive && kbFocus.value !in seat.good)
        || (ptrFocus.Some? && ptrFocus.value in seat.alive && ptrFocus.value !in seat.good)
      ensures seat.Later()
    {
      if restored { return; }
      restored := true;
      var threw := GiveBack();
      if threw || seat.keyboard != keyboard || seat.mouse != mouse || seat.Lock(seat.kbFocus) != seat.LiveSurface(kbFocus)
        || seat.Lock(seat.ptrFocus) != seat.LiveSurface(ptrFocus) || seat.cursor != cursor {
        seat.faulted := true;
      }
    }
  }
}
