/** The Wayland wire format ("Wire Format" in the Wayland protocol specification): 32-bit
    words in the machine's byte order, length-prefixed strings padded to whole words, and
    messages whose header carries the object, the size and the opcode. */
module Wayland {
  import opened Common

  type Byte = x: int | 0 <= x < 0x100
  type Word = x: int | 0 <= x < 0x1_0000_0000
  type Short = x: int | 0 <= x < 0x1_0000

  datatype Order = Little | Big

  function Swap(b: seq<Byte>): seq<Byte>
    requires |b| == 4
  {
    [b[3], b[2], b[1], b[0]]
  }

  function LittleBytes(v: Word): (b: seq<Byte>)
    ensures |b| == 4
  {
    [v % 0x100, v / 0x100 % 0x100, v / 0x1_0000 % 0x100, v / 0x100_0000]
  }

  function Bytes(order: Order, v: Word): (b: seq<Byte>)
    ensures |b| == 4
  {
    if order == Little then LittleBytes(v) else Swap(LittleBytes(v))
  }

  function LittleValue(b: seq<Byte>): Word
    requires |b| == 4
  {
    b[0] as int + 0x100 * b[1] as int + 0x1_0000 * b[2] as int + 0x100_0000 * b[3] as int
  }

  function Value(order: Order, b: seq<Byte>): Word
    requires |b| == 4
  {
    if order == Little then LittleValue(b) else LittleValue(Swap(b))
  }

  lemma LittleRoundTrip(v: Word)
    ensures LittleValue(LittleBytes(v)) == v
  {
    var w: int := v;
    var x, y := w / 0x100, w / 0x1_0000;
    assert y == x / 0x100 && w / 0x100_0000 == y / 0x100;
    assert w == 0x100 * x + w % 0x100 && x == 0x100 * y + x % 0x100;
    assert y == 0x100 * (y / 0x100) + y % 0x100;
  }

  lemma LittleBytesOfValue(b: seq<Byte>)
    requires |b| == 4
    ensures LittleBytes(LittleValue(b)) == b
  {
    var b0: int, b1: int, b2: int, b3: int := b[0], b[1], b[2], b[3];
    var v: int := LittleValue(b);
    assert v / 0x100 == b1 + 0x100 * b2 + 0x1_0000 * b3;
    assert v / 0x1_0000 == b2 + 0x100 * b3;
    assert v / 0x100_0000 == b3;
  }

  lemma WordRoundTrip(order: Order, v: Word, b: seq<Byte>)
    requires |b| == 4
    ensures Value(order, Bytes(order, v)) == v
    ensures Bytes(order, Value(order, b)) == b
  {
    LittleRoundTrip(v);
    LittleBytesOfValue(b);
    LittleBytesOfValue(Swap(b));
    assert Swap(Swap(LittleBytes(v))) == LittleBytes(v);
    assert Swap(Swap(b)) == b;
  }

  // ------------------------------------------------------------------ writing

  function Words(order: Order, values: seq<Word>): (b: seq<Byte>)
    ensures |b| == 4 * |values|
  {
    if values == [] then [] else Words(order, values[..|values| - 1]) + Bytes(order, values[|values| - 1])
  }

  function Padded(n: nat): (p: nat)
    ensures n <= p < n + 4 && p % 4 == 0
  {
    (n + 3) / 4 * 4
  }

  function Zeros(n: nat): (z: seq<Byte>)
    ensures |z| == n
  {
    seq(n, _ => 0)
  }

  /** The length word counts the terminator and wraps at 32 bits. */
  function WlString(order: Order, s: seq<Byte>): seq<Byte> {
    Bytes(order, (|s| + 1) % 0x1_0000_0000) + s + Zeros(Padded(|s| + 1) - |s|)
  }

  lemma StringLength(order: Order, s: seq<Byte>)
    ensures Value(order, WlString(order, s)[..4]) == (|s| + 1) % 0x1_0000_0000
  {
    var n := (|s| + 1) % 0x1_0000_0000;
    WordRoundTrip(order, n, Bytes(order, n));
    assert WlString(order, s)[..4] == Bytes(order, n);
  }

  lemma Framing(word: seq<Byte>, s: seq<Byte>, p: nat)
    requires |word| == 4 && |s| + 1 <= p < |s| + 5 && p % 4 == 0
    ensures var b := word + s + Zeros(p - |s|);
      && |b| == 4 + p && (4 + p) % 4 == 0 && b[4..4 + |s|] == s
      && forall k :: 4 + |s| <= k < 4 + p ==> b[k] == 0
  {
  }

  /** Whole words: the length, the string, and zeros, at least one and at most four. */
  lemma StringBytes(order: Order, s: seq<Byte>) returns (p: nat)
    ensures |s| + 1 <= p <= |s| + 4 && p % 4 == 0
    ensures var b := WlString(order, s);
      && |b| == 4 + p && b[4..4 + |s|] == s && Value(order, b[..4]) == (|s| + 1) % 0x1_0000_0000
      && forall k :: 4 + |s| <= k < 4 + p ==> b[k] == 0
  {
    StringLength(order, s);
    p := Padded(|s| + 1);
    Framing(Bytes(order, (|s| + 1) % 0x1_0000_0000), s, p);
  }

  datatype Message = Message(id: Word, opcode: Short, args: seq<Byte>)

  predicate Sendable(args: seq<Byte>) {
    |args| % 4 == 0 && |args| <= 65524
  }

  function Header(m: Message): Word
    requires Sendable(m.args)
  {
    (|m.args| + 8) * 0x1_0000 + m.opcode
  }

  function Encoded(order: Order, m: Message): seq<Byte>
    requires Sendable(m.args)
  {
    Bytes(order, m.id) + Bytes(order, Header(m)) + m.args
  }

  method PutWord(order: Order, b: array<Byte>, at: nat, v: Word)
    requires at + 4 <= b.Length
    modifies b
    ensures b[..] == old(b[..at]) + Bytes(order, v) + old(b[at + 4..])
  {
    var w := Bytes(order, v);
    b[at], b[at + 1], b[at + 2], b[at + 3] := w[0], w[1], w[2], w[3];
  }

  method WlWords(order: Order, values: seq<Word>) returns (b: array<Byte>)
    ensures fresh(b) && b[..] == Words(order, values)
  {
    b := new Byte[4 * |values|](_ => 0);
    for i := 0 to |values|
      invariant b[..4 * i] == Words(order, values[..i])
    {
      PutWord(order, b, 4 * i, values[i]);
      assert values[..i + 1][..i] == values[..i];
    }
    assert values[..|values|] == values;
  }

  method WriteString(order: Order, s: seq<Byte>) returns (b: array<Byte>)
    ensures fresh(b) && b[..] == WlString(order, s)
  {
    b := new Byte[4 + Padded(|s| + 1)](_ => 0);
    PutWord(order, b, 0, (|s| + 1) % 0x1_0000_0000);
    var n := b.Length;
    for i := 0 to |s|
      invariant b[..4] == Bytes(order, (|s| + 1) % 0x1_0000_0000)
      invariant b[4..4 + i] == s[..i]
      invariant forall k :: 4 + i <= k < n ==> b[k] == 0
    {
      b[4 + i] := s[i];
    }
    assert b[..] == b[..4] + b[4..4 + |s|] + b[4 + |s|..];
    assert b[4 + |s|..] == Zeros(Padded(|s| + 1) - |s|);
  }

  // ------------------------------------------------------------------ reading

  datatype Read = Refused | Got(message: Message, rest: seq<Byte>)

  /** A reader takes the header, then as many bytes as it names. */
  function ReadMessage(order: Order, stream: seq<Byte>): (read: Read)
    ensures read.Got? ==> |read.rest| < |stream|
  {
    if |stream| < 8 then Refused
    else
      var id, word := Value(order, stream[..4]), Value(order, stream[4..8]);
      var size := word / 0x1_0000;
      if id == 0 || size < 8 || size % 4 != 0 || |stream| < size then Refused
      else Got(Message(id, word % 0x1_0000, stream[8..size]), stream[size..])
  }

  /** A connection: what is still to be read, and what was written. */
  class Connection {
    const order: Order
    var input: seq<Byte>
    var output: seq<Byte>

    constructor (order: Order, input: seq<Byte>)
      ensures this.order == order && this.input == input && output == []
    {
      this.order, this.input, output := order, input, [];
    }

    /** The socket takes some front of what it is given. */
    method Write(b: seq<Byte>, room: nat) returns (n: nat)
      modifies `output
      ensures n == (if room < |b| then room else |b|) && output == old(output) + b[..n]
    {
      n := if room < |b| then room else |b|;
      output := output + b[..n];
    }

    /** Reports success exactly when the request can be sent and the whole message went out
        without an error; otherwise some front of it did, and nothing at all of one that
        cannot be sent. `room` and `failed` are what the socket does. */
    method Request(id: Word, opcode: Short, args: seq<Byte>, room: nat, failed: bool) returns (ok: bool)
      modifies `output
      ensures ok <==> |args| % 4 == 0 && |args| <= 65524 && room >= 8 + |args| && !failed
      ensures !Sendable(args) ==> output == old(output)
      ensures Sendable(args) ==> old(output) <= output <= old(output) + Encoded(order, Message(id, opcode, args))
      ensures ok ==> Sendable(args) && output == old(output) + Encoded(order, Message(id, opcode, args))
    {
      if |args| % 4 != 0 || |args| > 65524 { return false; }
      var header := WlWords(order, [id, (|args| + 8) * 0x1_0000 + opcode]);
      assert header[..] == Bytes(order, id) + Bytes(order, (|args| + 8) * 0x1_0000 + opcode) by {
        var values: seq<Word> := [id, (|args| + 8) * 0x1_0000 + opcode];
        assert values[..1] == [id] && values[..1][..0] == [];
        assert Words(order, [id]) == Words(order, []) + Bytes(order, id);
      }
      var message := header[..] + args;
      assert message == Encoded(order, Message(id, opcode, args));
      var n := Write(message, room);
      assert n == |message| ==> message[..n] == message;
      return !failed && n == |message|;
    }

    method ReadFull(n: nat) returns (ok: bool, b: seq<Byte>)
      modifies `input
      ensures ok == (|old(input)| >= n)
      ensures ok ==> b == old(input)[..n] && input == old(input)[n..]
      ensures !ok ==> input == []
    {
      if |input| < n { input := []; return false, []; }
      b := input[..n];
      input := input[n..];
      ok := true;
    }

    method ReadEvent() returns (read: Option<Message>)
      modifies `input
      ensures read.Some? <==> ReadMessage(order, old(input)).Got?
      ensures read.Some? ==> ReadMessage(order, old(input)) == Got(read.value, input)
    {
      var ok, header := ReadFull(8);
      if !ok { return None; }
      assert header[..4] == old(input)[..4] && header[4..8] == old(input)[4..8];
      var id, word := Value(order, header[..4]), Value(order, header[4..8]);
      var size := word / 0x1_0000;
      if id == 0 || size < 8 || size % 4 != 0 { return None; }
      var args;
      assert |old(input)| >= size ==> old(input)[8..][..size - 8] == old(input)[8..size] && old(input)[8..][size - 8..] == old(input)[size..];
      ok, args := ReadFull(size - 8);
      if !ok { return None; }
      return Some(Message(id, word % 0x1_0000, args));
    }
  }

  /** A string off the front of an argument list. */
  function TakeString(order: Order, args: seq<Byte>): Option<(seq<Byte>, seq<Byte>)> {
    if |args| < 4 then None
    else
      var n := Value(order, args[..4]);
      if n == 0 || Padded(n) > |args| - 4 || args[4 + n - 1] != 0 then None
      else Some((args[4..4 + n - 1], args[4 + Padded(n)..]))
  }

  // --------------------------------------------------------------- round trips

  lemma HeaderParts(m: Message)
    requires Sendable(m.args)
    ensures Header(m) / 0x1_0000 == |m.args| + 8 && Header(m) % 0x1_0000 == m.opcode
  {
  }

  lemma HeaderSlices(a: seq<Byte>, b: seq<Byte>, args: seq<Byte>, rest: seq<Byte>)
    requires |a| == 4 && |b| == 4
    ensures var stream := a + b + args + rest;
      stream[..4] == a && stream[4..8] == b && stream[8..8 + |args|] == args && stream[8 + |args|..] == rest
  {
  }

  lemma WrittenIsRead(order: Order, m: Message, rest: seq<Byte>)
    requires m.id != 0 && Sendable(m.args)
    ensures ReadMessage(order, Encoded(order, m) + rest) == Got(m, rest)
  {
    var a, b := Bytes(order, m.id), Bytes(order, Header(m));
    HeaderSlices(a, b, m.args, rest);
    WordRoundTrip(order, m.id, a);
    WordRoundTrip(order, Header(m), b);
    HeaderParts(m);
  }

  lemma FourParts(stream: seq<Byte>, size: nat)
    requires 8 <= size <= |stream|
    ensures stream == stream[..4] + stream[4..8] + stream[8..size] + stream[size..]
  {
  }

  /** The header of an accepted message is the one the writer makes for it. */
  lemma ReadHeader(order: Order, stream: seq<Byte>, m: Message, rest: seq<Byte>)
    requires ReadMessage(order, stream) == Got(m, rest)
    ensures m.id != 0 && Sendable(m.args) && |stream| >= 8 + |m.args|
    ensures Value(order, stream[..4]) == m.id && Value(order, stream[4..8]) == Header(m)
    ensures stream[8..8 + |m.args|] == m.args && stream[8 + |m.args|..] == rest
  {
  }

  lemma ReadWasWritten(order: Order, stream: seq<Byte>, m: Message, rest: seq<Byte>)
    requires ReadMessage(order, stream) == Got(m, rest)
    ensures m.id != 0 && Sendable(m.args) && stream == Encoded(order, m) + rest
  {
    ReadHeader(order, stream, m, rest);
    var a, b := stream[..4], stream[4..8];
    WordRoundTrip(order, 0, a);
    WordRoundTrip(order, 0, b);
    FourParts(stream, 8 + |m.args|);
    assert Encoded(order, m) == a + b + m.args;
  }

  /** The reader accepts exactly what the writer can have written. */
  lemma ReadsWhatIsWritten(order: Order, stream: seq<Byte>, m: Message, rest: seq<Byte>)
    ensures ReadMessage(order, stream) == Got(m, rest)
      <==> m.id != 0 && Sendable(m.args) && stream == Encoded(order, m) + rest
  {
    if ReadMessage(order, stream) == Got(m, rest) {
      ReadWasWritten(order, stream, m, rest);
    } else if m.id != 0 && Sendable(m.args) {
      WrittenIsRead(order, m, rest);
    }
  }

  /** The wire layout, byte by byte on a little-endian machine: the object, the opcode in
      the lower half of the second word and the size with the header in the upper half, and
      the arguments; the other way round within each word on a big-endian one. */
  lemma WireLayout(m: Message)
    requires Sendable(m.args)
    ensures var b := Encoded(Little, m);
      && |b| == 8 + |m.args|
      && b[0] == m.id % 256 && b[1] == m.id / 256 % 256 && b[2] == m.id / 65536 % 256 && b[3] == m.id / 16777216
      && b[4] == m.opcode % 256 && b[5] == m.opcode / 256
      && b[6] == (8 + |m.args|) % 256 && b[7] == (8 + |m.args|) / 256
      && b[8..] == m.args
    ensures var b, c := Encoded(Little, m), Encoded(Big, m);
      c == [b[3], b[2], b[1], b[0], b[7], b[6], b[5], b[4]] + m.args
  {
    var size: int, op: int := |m.args| + 8, m.opcode;
    HeaderBytes(size, op);
    assert Header(m) == size * 0x1_0000 + op;
  }

  lemma HeaderBytes(size: int, op: int)
    requires 0 <= size < 0x1_0000 && 0 <= op < 0x1_0000
    ensures var w := size * 0x1_0000 + op;
      w % 256 == op % 256 && w / 256 % 256 == op / 256 && w / 0x1_0000 % 256 == size % 256 && w / 0x100_0000 == size / 256
  {
    var w := size * 0x1_0000 + op;
    assert w / 0x1_0000 == size;
    assert w / 256 == size * 256 + op / 256;
    assert w / 0x100_0000 == size / 256;
  }

  function EncodedAll(order: Order, ms: seq<Message>): seq<Byte>
    requires forall m :: m in ms ==> Sendable(m.args)
  {
    if ms == [] then [] else Encoded(order, ms[0]) + EncodedAll(order, ms[1..])
  }

  /** Reads messages until the stream is used up. */
  function DecodedAll(order: Order, stream: seq<Byte>): Option<seq<Message>>
    decreases |stream|
  {
    if stream == [] then Some([])
    else
      match ReadMessage(order, stream)
      case Refused => None
      case Got(m, rest) =>
        var more := DecodedAll(order, rest);
        if more == None then None else Some([m] + more.value)
  }

  /** Any messages written one after the other decode to themselves. */
  lemma {:induction false} StreamRoundTrip(order: Order, ms: seq<Message>)
    requires forall m :: m in ms ==> m.id != 0 && Sendable(m.args)
    ensures DecodedAll(order, EncodedAll(order, ms)) == Some(ms)
  {
    if ms != [] {
      ReadsWhatIsWritten(order, EncodedAll(order, ms), ms[0], EncodedAll(order, ms[1..]));
      StreamRoundTrip(order, ms[1..]);
      assert ms == [ms[0]] + ms[1..];
    }
  }

  /** The reader refuses a message that was cut short. */
  lemma CutIsRefused(order: Order, m: Message, n: nat)
    requires Sendable(m.args) && n < |Encoded(order, m)|
    ensures ReadMessage(order, Encoded(order, m)[..n]) == Refused
  {
    var whole, cut := Encoded(order, m), Encoded(order, m)[..n];
    if n >= 8 {
      HeaderSlices(Bytes(order, m.id), Bytes(order, Header(m)), m.args, []);
      assert whole + [] == whole && cut[4..8] == whole[4..8];
      WordRoundTrip(order, Header(m), whole[4..8]);
      HeaderParts(m);
    }
  }

  /** After a failed request the stream is told apart from any sequence of messages. */
  lemma {:induction false} CutStreamIsRefused(order: Order, ms: seq<Message>, m: Message, n: nat)
    requires forall k :: k in ms ==> k.id != 0 && Sendable(k.args)
    requires Sendable(m.args) && 0 < n < |Encoded(order, m)|
    ensures DecodedAll(order, EncodedAll(order, ms) + Encoded(order, m)[..n]) == None
  {
    var cut := Encoded(order, m)[..n];
    if ms == [] {
      assert EncodedAll(order, ms) + cut == cut;
      CutIsRefused(order, m, n);
    } else {
      var first, more := Encoded(order, ms[0]), EncodedAll(order, ms[1..]);
      assert first + more + cut == first + (more + cut);
      WrittenIsRead(order, ms[0], more + cut);
      CutStreamIsRefused(order, ms[1..], m, n);
    }
  }

  /** What the string reader accepts: the length word, the string, a zero, and padding that
      it does not look at. */
  predicate LaidOut(order: Order, args: seq<Byte>, s: seq<Byte>, rest: seq<Byte>) {
    && |s| + 1 < 0x1_0000_0000 && |args| == 4 + Padded(|s| + 1) + |rest|
    && args[..4] == Bytes(order, |s| + 1) && args[4..4 + |s|] == s && args[4 + |s|] == 0
    && args[4 + Padded(|s| + 1)..] == rest
  }

  lemma StringLayout(order: Order, args: seq<Byte>, s: seq<Byte>, rest: seq<Byte>)
    ensures TakeString(order, args) == Some((s, rest)) <==> LaidOut(order, args, s, rest)
  {
    if TakeString(order, args) == Some((s, rest)) {
      WordRoundTrip(order, 0, args[..4]);
    } else if LaidOut(order, args, s, rest) {
      WordRoundTrip(order, |s| + 1, args[..4]);
    }
  }

  /** A written string is read back, with what follows it left over, exactly when its
      length with the terminator fits the length word. */
  lemma StringRoundTrip(order: Order, s: seq<Byte>, rest: seq<Byte>)
    ensures TakeString(order, WlString(order, s) + rest) == Some((s, rest)) <==> |s| + 1 < 0x1_0000_0000
  {
    StringLayout(order, WlString(order, s) + rest, s, rest);
    if |s| + 1 < 0x1_0000_0000 { WrittenLaidOut(order, s, rest); }
  }

  lemma WrittenLaidOut(order: Order, s: seq<Byte>, rest: seq<Byte>)
    requires |s| + 1 < 0x1_0000_0000
    ensures LaidOut(order, WlString(order, s) + rest, s, rest)
  {
    var word, zeros := Bytes(order, |s| + 1), Zeros(Padded(|s| + 1) - |s|);
    WrittenLayout(word, s, zeros, rest);
    assert WlString(order, s) == word + s + zeros by { SmallLength(order, |s| + 1); }
  }

  lemma SmallLength(order: Order, n: nat)
    requires n < 0x1_0000_0000
    ensures Bytes(order, n % 0x1_0000_0000) == Bytes(order, n)
  {
    assert n % 0x1_0000_0000 == n;
  }

  lemma WrittenLayout(word: seq<Byte>, s: seq<Byte>, zeros: seq<Byte>, rest: seq<Byte>)
    requires |word| == 4 && zeros != [] && zeros[0] == 0
    ensures var args := word + s + zeros + rest;
      && |args| == 4 + |s| + |zeros| + |rest|
      && args[..4] == word && args[4..4 + |s|] == s && args[4 + |s|] == 0 && args[4 + |s| + |zeros|..] == rest
  {
  }
}
