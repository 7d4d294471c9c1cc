/** Text as key presses: which text is accepted, the private keymap made for each chunk of
    it, and what a client reads back from the presses through that keymap. */
module TextInput {
  import opened Common

  /** A decoded character of valid UTF-8 is a Unicode scalar value. */
  type Rune = bv32

  /** Evdev codes of the printable key positions, one per character of a chunk. */
  const TEXT_KEY_CODES: seq<nat> :=
    [2, 3, 4, 5, 6, 7, 8, 9, 10, 11, 12, 13, 16, 17, 18, 19]
    + [20, 21, 22, 23, 24, 25, 26, 27, 30, 31, 32, 33, 34, 35, 36, 37]
    + [38, 39, 40, 41, 43, 44, 45, 46, 47, 48, 49, 50, 51, 52, 53, 57]
  const CHUNK := 48

  predicate IsScalar(r: Rune) {
    r <= 0x10ffff && !(0xd800 <= r <= 0xdfff)
  }

  predicate RefusedControl(r: Rune) {
    (r < 32 && r != 10 && r != 9) || 0x7f <= r <= 0x9f
  }

  /** The broker's check of a text, given as decoded. */
  method ValidateText(validUtf8: bool, runes: seq<Rune>) returns (ok: bool)
    ensures ok == (validUtf8 && forall r :: r in runes ==> !RefusedControl(r))
    ensures ok <==> validUtf8 && forall r :: r in runes ==> r == 9 || r == 10 || 32 <= r < 0x7f || r > 0x9f
  {
    if !validUtf8 { return false; }
    for i := 0 to |runes|
      invariant forall j :: 0 <= j < i ==> !RefusedControl(runes[j])
    {
      if (runes[i] < 32 && runes[i] != 10 && runes[i] != 9) || (runes[i] >= 0x7f && runes[i] <= 0x9f) {
        assert RefusedControl(runes[i]);
        return false;
      }
    }
    return true;
  }

  // ----------------------------------------------------------------- keysyms

  /** The keysym of a scalar; None where the guard throws. */
  function TextKeysym(scalar: bv32): Option<bv32> {
    if scalar == 10 then Some(0xff0d)
    else if scalar == 9 then Some(0xff09)
    else if scalar < 32 || 0x7f <= scalar <= 0x9f || scalar > 0x10ffff || 0xd800 <= scalar <= 0xdfff then None
    else Some(if scalar <= 0xff then scalar else 0x0100_0000 | scalar)
  }

  /** What a client makes of a keysym: Return and Tab, Latin-1 as it is, and the Unicode
      range above it offset by 0x01000000. */
  function CharacterOf(keysym: bv32): Option<bv32> {
    if keysym == 0xff0d then Some(10)
    else if keysym == 0xff09 then Some(9)
    else if 0x20 <= keysym <= 0x7e || 0xa0 <= keysym <= 0xff then Some(keysym)
    else if 0x0100_0100 <= keysym <= 0x0110_ffff then Some(keysym - 0x0100_0000)
    else None
  }

  /** The guard has a keysym for exactly the characters the broker lets through. */
  lemma SameCharacters(r: Rune)
    ensures TextKeysym(r).Some? <==> IsScalar(r) && !RefusedControl(r)
  {
  }

  lemma KeysymRoundTrip(scalar: bv32)
    requires TextKeysym(scalar).Some?
    ensures CharacterOf(TextKeysym(scalar).value) == Some(scalar)
  {
    if 0xff < scalar <= 0x10ffff { AboveLatin1(scalar); }
  }

  lemma AboveLatin1(scalar: bv32)
    requires TextKeysym(scalar).Some? && 0xff < scalar <= 0x10ffff
    ensures CharacterOf(TextKeysym(scalar).value) == Some(scalar)
  {
    OrIsPlus(scalar);
    var keysym := TextKeysym(scalar).value;
    assert keysym == 0x0100_0000 + scalar;
    assert 0x0100_0100 <= keysym <= 0x0110_ffff;
    assert keysym - 0x0100_0000 == scalar;
  }

  lemma OrIsPlus(x: bv32)
    requires x <= 0x10ffff
    ensures 0x0100_0000 | x == 0x0100_0000 + x
  {
  }

  // ----------------------------------------------------------------- keymaps

  /** The entries of a generated keymap: which keycode each name stands for, and which
      keysym each named key gives. Names are numbered. */
  datatype Keymap = Keymap(codes: seq<(nat, nat)>, symbols: seq<(nat, bv32)>)

  predicate Acceptable(scalars: seq<bv32>) {
    1 <= |scalars| <= CHUNK && forall s :: s in scalars ==> TextKeysym(s).Some?
  }

  function KeymapOf(scalars: seq<bv32>): Keymap
    requires Acceptable(scalars)
  {
    Keymap(seq(|scalars|, i requires 0 <= i < |scalars| => (i, TEXT_KEY_CODES[i] + 8)),
           seq(|scalars|, i requires 0 <= i < |scalars| => (i, TextKeysym(scalars[i]).value)))
  }

  method CodeEntries(positions: seq<nat>, n: nat) returns (codes: seq<(nat, nat)>)
    requires n <= |positions|
    ensures |codes| == n && forall i :: 0 <= i < n ==> codes[i] == (i, positions[i] + 8)
  {
    codes := [];
    for i := 0 to n
      invariant |codes| == i && forall j :: 0 <= j < i ==> codes[j] == (j, positions[j] + 8)
    {
      codes := codes + [(i, positions[i] + 8)];
    }
  }

  method SymbolEntries(scalars: seq<bv32>) returns (symbols: seq<(nat, bv32)>)
    requires forall s :: s in scalars ==> TextKeysym(s).Some?
    ensures |symbols| == |scalars|
    ensures forall i :: 0 <= i < |scalars| ==> symbols[i] == (i, TextKeysym(scalars[i]).value)
  {
    symbols := [];
    for i := 0 to |scalars|
      invariant |symbols| == i && forall j :: 0 <= j < i ==> symbols[j] == (j, TextKeysym(scalars[j]).value)
    {
      symbols := symbols + [(i, TextKeysym(scalars[i]).value)];
    }
  }

  method TextKeymap(scalars: seq<bv32>) returns (keymap: Option<Keymap>)
    ensures keymap.Some? <==> Acceptable(scalars)
    ensures keymap.Some? ==> keymap.value == KeymapOf(scalars)
    ensures keymap.Some? <==>
      && 1 <= |scalars| <= 48
      && forall s :: s in scalars ==> s == 9 || s == 10 || 32 <= s < 0x7f || (0x9f < s <= 0x10ffff && !(0xd800 <= s <= 0xdfff))
    ensures keymap.Some? ==>
      && |keymap.value.codes| == |keymap.value.symbols| == |scalars|
      && forall i :: 0 <= i < |scalars| ==>
           && keymap.value.codes[i] == (i, TEXT_KEY_CODES[i] + 8) && keymap.value.symbols[i].0 == i
           && keymap.value.symbols[i].1 ==
                (if scalars[i] == 10 then 0xff0d else if scalars[i] == 9 then 0xff09
                 else if scalars[i] <= 0xff then scalars[i] else 0x0100_0000 | scalars[i])
  {
    if scalars == [] || |scalars| > CHUNK { return None; }
    for i := 0 to |scalars|
      invariant forall j :: 0 <= j < i ==> TextKeysym(scalars[j]).Some?
    {
      if TextKeysym(scalars[i]) == None {
        assert scalars[i] in scalars;
        return None;
      }
    }
    var codes := CodeEntries(TEXT_KEY_CODES, |scalars|);
    var symbols := SymbolEntries(scalars);
    return Some(Keymap(codes, symbols));
  }

  /** The name whose keycode this is, and the symbol of a name: the first entry counts. */
  function NameOf(codes: seq<(nat, nat)>, keycode: nat): Option<nat> {
    if codes == [] then None
    else if codes[0].1 == keycode then Some(codes[0].0)
    else NameOf(codes[1..], keycode)
  }

  function SymbolOf(symbols: seq<(nat, bv32)>, name: nat): Option<bv32> {
    if symbols == [] then None
    else if symbols[0].0 == name then Some(symbols[0].1)
    else SymbolOf(symbols[1..], name)
  }

  /** What a press of an evdev code types: clients add 8 to get the keycode. */
  function Typed(m: Keymap, code: nat): Option<bv32> {
    var name := NameOf(m.codes, code + 8);
    if name == None then None
    else
      var symbol := SymbolOf(m.symbols, name.value);
      if symbol == None then None else CharacterOf(symbol.value)
  }

  lemma CodesIncrease(i: nat)
    requires i + 1 < CHUNK
    ensures TEXT_KEY_CODES[i] < TEXT_KEY_CODES[i + 1]
  {
  }

  /** Only printable positions are used: not escape, backspace, tab, enter, a modifier, a
      lock, the keypad or a function key. */
  lemma PrintablePositions(i: nat)
    requires i < |TEXT_KEY_CODES|
    ensures |TEXT_KEY_CODES| == 48
    ensures var code := TEXT_KEY_CODES[i];
      2 <= code <= 13 || 16 <= code <= 27 || 30 <= code <= 41 || 43 <= code <= 53 || code == 57
  {
  }

  lemma {:induction false} IncreasingDistinct(codes: seq<nat>, i: nat, j: nat)
    requires i < j < |codes| && forall k :: 0 < k < |codes| ==> codes[k - 1] < codes[k]
    ensures codes[i] < codes[j]
    decreases j
  {
    if i < j - 1 { IncreasingDistinct(codes, i, j - 1); }
  }

  lemma CodesDistinct(i: nat, j: nat)
    requires i < j < CHUNK
    ensures TEXT_KEY_CODES[i] < TEXT_KEY_CODES[j]
  {
    forall k | 0 < k < CHUNK ensures TEXT_KEY_CODES[k - 1] < TEXT_KEY_CODES[k] { CodesIncrease(k - 1); }
    IncreasingDistinct(TEXT_KEY_CODES, i, j);
  }

  lemma {:induction false} NameFound(codes: seq<(nat, nat)>, i: nat)
    requires i < |codes| && forall j :: 0 <= j < i ==> codes[j].1 != codes[i].1
    ensures NameOf(codes, codes[i].1) == Some(codes[i].0)
  {
    if i > 0 { NameFound(codes[1..], i - 1); }
  }

  lemma {:induction false} SymbolFound(symbols: seq<(nat, bv32)>, i: nat)
    requires i < |symbols| && forall j :: 0 <= j < i ==> symbols[j].0 != symbols[i].0
    ensures SymbolOf(symbols, symbols[i].0) == Some(symbols[i].1)
  {
    if i > 0 { SymbolFound(symbols[1..], i - 1); }
  }

  lemma {:induction false} NameMissing(codes: seq<(nat, nat)>, keycode: nat)
    requires forall j :: 0 <= j < |codes| ==> codes[j].1 != keycode
    ensures NameOf(codes, keycode) == None
  {
    if codes != [] { NameMissing(codes[1..], keycode); }
  }

  /** The keymap of a chunk gives the chunk back, key position by key position, and no
      other key types anything. */
  lemma KeymapRoundTrip(scalars: seq<bv32>, code: nat)
    requires Acceptable(scalars)
    ensures forall i :: 0 <= i < |scalars| ==> Typed(KeymapOf(scalars), TEXT_KEY_CODES[i]) == Some(scalars[i])
    ensures code !in TEXT_KEY_CODES[..|scalars|] ==> Typed(KeymapOf(scalars), code) == None
  {
    var m := KeymapOf(scalars);
    forall i | 0 <= i < |scalars| ensures Typed(m, TEXT_KEY_CODES[i]) == Some(scalars[i]) {
      forall j | 0 <= j < i ensures m.codes[j].1 != m.codes[i].1 { CodesDistinct(j, i); }
      NameFound(m.codes, i);
      SymbolFound(m.symbols, i);
      KeysymRoundTrip(scalars[i]);
    }
    if code !in TEXT_KEY_CODES[..|scalars|] {
      forall j | 0 <= j < |m.codes| ensures m.codes[j].1 != code + 8 { assert TEXT_KEY_CODES[..|scalars|][j] == TEXT_KEY_CODES[j]; }
      NameMissing(m.codes, code + 8);
    }
  }

  /** Whatever text the broker accepts, the guard accepts every chunk of it. */
  lemma EveryChunkAccepted(runes: seq<Rune>, start: nat)
    requires (forall r :: r in runes ==> IsScalar(r) && !RefusedControl(r)) && start < |runes|
    ensures Acceptable(runes[start..if start + CHUNK < |runes| then start + CHUNK else |runes|])
  {
    var end := if start + CHUNK < |runes| then start + CHUNK else |runes|;
    forall s | s in runes[start..end] ensures TextKeysym(s).Some? {
      var i :| 0 <= i < end - start && runes[start..end][i] == s;
      assert runes[start + i] in runes;
      SameCharacters(s);
    }
  }
}
