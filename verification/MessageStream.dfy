/** Messages on a byte stream, each behind its length as a base 128 varint of the Protocol Buffers
    encoding. Lengths go through JavaScript's 32-bit shifts, which are written out here. */
module MessageStreams {
  import opened Arithmetic

  type byte = x: int | 0 <= x < 256

  const TWO31 := 0x8000_0000
  const TWO32 := 0x1_0000_0000

  /** What a number becomes as an operand of a shift. */
  function ToInt32(x: int): int {
    if x % TWO32 < TWO31 then x % TWO32 else x % TWO32 - TWO32
  }

  function Pow2(k: nat): nat {
    if k == 0 then 1 else 2 * Pow2(k - 1)
  }

  function ShiftLeft(x: int, k: nat): int {
    ToInt32(ToInt32(x) * Pow2(k % 32))
  }

  /** `x >> 7`; the division rounds down, as the shift does. */
  function ShiftRight7(x: int): int {
    ToInt32(x) / 128
  }

  // ---------------------------------------------------------------- encoding

  /** The bytes that announce a message of this length. */
  function LengthBytes(length: int): seq<byte>
    decreases if length > 127 then length else 0
  {
    if length > 127 then
      ShiftIsLess(length);
      [128 + length % 128] + LengthBytes(ShiftRight7(length))
    else [length % 256]
  }

  lemma ShiftIsLess(length: int)
    requires length > 127
    ensures ShiftRight7(length) < length
  {
  }

  function Encode(message: seq<byte>): seq<byte> {
    LengthBytes(|message|) + message
  }

  function EncodeAll(messages: seq<seq<byte>>): seq<byte> {
    if messages == [] then [] else Encode(messages[0]) + EncodeAll(messages[1..])
  }

  class DelimitingStream {
    constructor () {}

    method Transform(chunk: seq<byte>) returns (pushed: seq<byte>)
      ensures pushed == Encode(chunk)
    {
      hide ShiftRight7;
      var length := |chunk|;
      var lengthBytes: seq<byte> := [];
      while length > 127
        invariant lengthBytes + LengthBytes(length) == LengthBytes(|chunk|)
        decreases if length > 127 then length else 0
      {
        ShiftIsLess(length);
        assert lengthBytes + ([128 + length % 128] + LengthBytes(ShiftRight7(length)))
            == (lengthBytes + [128 + length % 128]) + LengthBytes(ShiftRight7(length));
        lengthBytes := lengthBytes + [128 + length % 128];
        length := ShiftRight7(length);
      }
      lengthBytes := lengthBytes + [length % 256];
      return lengthBytes + chunk;
    }
  }

  // ---------------------------------------------------------------- decoding

  /** Up to an index that counts from the end when it is negative. */
  function UpTo(s: seq<byte>, n: int): seq<byte>
    requires n <= |s|
  {
    if n >= 0 then s[..n] else if |s| + n >= 0 then s[..|s| + n] else []
  }

  function From(s: seq<byte>, n: int): (r: seq<byte>)
    requires n <= |s|
    ensures |r| <= |s|
  {
    if n >= 0 then s[n..] else if |s| + n >= 0 then s[|s| + n..] else s
  }

  /** A message and what stays behind it are the bytes that were there, whatever the length. */
  lemma CutsInTwo(s: seq<byte>, n: int)
    requires n <= |s|
    ensures UpTo(s, n) + From(s, n) == s
    ensures |UpTo(s, n)| == if n >= 0 then n else if -n <= |s| then |s| + n else 0
  {
  }

  datatype Decoder = Decoder(length: int, lengthIndex: nat, readingLength: bool, buffer: seq<byte>)

  const EMPTY := Decoder(0, 0, true, [])

  datatype Decoded = Decoded(decoder: Decoder, messages: seq<seq<byte>>)

  /** Whether the loop has something to do. */
  predicate Ready(d: Decoder) {
    d.buffer != [] && (d.readingLength || d.length <= |d.buffer|)
  }

  function TakeByte(d: Decoder): Decoder
    requires Ready(d) && d.readingLength
  {
    var b := d.buffer[0];
    Decoder(d.length + ShiftLeft(b % 128, 7 * d.lengthIndex), if b >= 128 then d.lengthIndex + 1 else 0, b >= 128, d.buffer[1..])
  }

  function TakeMessage(d: Decoder): Decoder
    requires Ready(d) && !d.readingLength
  {
    Decoder(0, d.lengthIndex, true, From(d.buffer, d.length))
  }

  /** Everything the decoder can do with the bytes it has. */
  function Drain(d: Decoder): Decoded
    decreases |d.buffer|, d.readingLength == false
  {
    if !Ready(d) then Decoded(d, [])
    else if d.readingLength then Drain(TakeByte(d))
    else
      var rest := Drain(TakeMessage(d));
      Decoded(rest.decoder, [UpTo(d.buffer, d.length)] + rest.messages)
  }

  lemma DrainStep(d: Decoder)
    ensures !Ready(d) ==> Drain(d) == Decoded(d, [])
    ensures Ready(d) && d.readingLength ==> Drain(d) == Drain(TakeByte(d))
    ensures Ready(d) && !d.readingLength ==>
      Drain(d) == Decoded(Drain(TakeMessage(d)).decoder, [UpTo(d.buffer, d.length)] + Drain(TakeMessage(d)).messages)
  {
  }

  function Fed(d: Decoder, chunk: seq<byte>): Decoder {
    d.(buffer := d.buffer + chunk)
  }

  class DelimitedStream {
    var length: int
    var lengthIndex: nat
    var readingLength: bool
    var buffer: seq<byte>

    ghost function View(): Decoder
      reads this
    {
      Decoder(length, lengthIndex, readingLength, buffer)
    }

    constructor ()
      ensures View() == EMPTY
    {
      length, lengthIndex, readingLength, buffer := 0, 0, true, [];
    }

    method Transform(chunk: seq<byte>) returns (pushed: seq<seq<byte>>)
      modifies this
      ensures Decoded(View(), pushed) == Drain(Fed(old(View()), chunk))
    {
      hide ShiftLeft, UpTo, From, Drain;
      buffer := buffer + chunk;
      pushed := [];
      assert pushed + Drain(View()).messages == Drain(View()).messages;
      while buffer != []
        invariant Decoded(Drain(View()).decoder, pushed + Drain(View()).messages) == Drain(Fed(old(View()), chunk))
        decreases |buffer|, readingLength == false
      {
        ghost var d := View();
        DrainStep(d);
        if readingLength {
          var b := buffer[0];
          length := length + ShiftLeft(b % 128, 7 * lengthIndex);
          if b >= 128 {
            lengthIndex := lengthIndex + 1;
            readingLength := true;
          } else {
            lengthIndex := 0;
            readingLength := false;
          }
          buffer := buffer[1..];
          assert View() == TakeByte(d);
        } else if length <= |buffer| {
          var message := UpTo(buffer, length);
          assert (pushed + [message]) + Drain(TakeMessage(d)).messages == pushed + ([message] + Drain(TakeMessage(d)).messages);
          pushed := pushed + [message];
          buffer := From(buffer, length);
          length := 0;
          readingLength := true;
          assert View() == TakeMessage(d);
        } else {
          break;
        }
      }
      DrainStep(View());
      assert pushed + [] == pushed;
    }
  }

  // ---------------------------------------------------------------- chunks do not matter

  /** A negative length cuts a message off from the end of the bytes that happen to be there. */
  predicate CutsFromEnd(d: Decoder) {
    !d.readingLength && d.length < 0 && |d.buffer| > -d.length
  }

  /** On its way through these bytes, the decoder never cuts a message off from their end. */
  ghost predicate Orderly(d: Decoder)
    decreases |d.buffer|, d.readingLength == false
  {
    && !CutsFromEnd(d)
    && (Ready(d) ==> if d.readingLength then Orderly(TakeByte(d)) else Orderly(TakeMessage(d)))
  }

  /** What can be done with some bytes is done the same way when more follow. */
  lemma StepWithMore(d: Decoder, chunk: seq<byte>)
    requires Ready(d) && !CutsFromEnd(Fed(d, chunk))
    ensures Ready(Fed(d, chunk))
    ensures d.readingLength ==> TakeByte(Fed(d, chunk)) == Fed(TakeByte(d), chunk)
    ensures !d.readingLength ==> TakeMessage(Fed(d, chunk)) == Fed(TakeMessage(d), chunk)
    ensures !d.readingLength ==> UpTo(Fed(d, chunk).buffer, d.length) == UpTo(d.buffer, d.length)
  {
    hide ShiftLeft;
    if d.readingLength {
      assert (d.buffer + chunk)[1..] == d.buffer[1..] + chunk;
    } else if d.length >= 0 {
      assert (d.buffer + chunk)[d.length..] == d.buffer[d.length..] + chunk;
    }
  }

  lemma {:induction false} DrainMore(d: Decoder, chunk: seq<byte>)
    requires Orderly(Fed(d, chunk))
    ensures var first := Drain(d);
      var second := Drain(Fed(first.decoder, chunk));
      && Orderly(Fed(first.decoder, chunk)) && !Ready(first.decoder)
      && Drain(Fed(d, chunk)) == Decoded(second.decoder, first.messages + second.messages)
    decreases |d.buffer|, d.readingLength == false
  {
    hide TakeByte, TakeMessage, UpTo, From;
    if !Ready(d) {
      assert [] + Drain(Fed(d, chunk)).messages == Drain(Fed(d, chunk)).messages;
    } else if d.readingLength {
      StepWithMore(d, chunk);
      StepIsSmaller(d);
      DrainMore(TakeByte(d), chunk);
    } else {
      StepWithMore(d, chunk);
      StepIsSmaller(d);
      DrainMore(TakeMessage(d), chunk);
    }
  }

  lemma StepIsSmaller(d: Decoder)
    requires Ready(d)
    ensures d.readingLength ==> |TakeByte(d).buffer| < |d.buffer|
    ensures !d.readingLength ==> |TakeMessage(d).buffer| <= |d.buffer| && TakeMessage(d).readingLength
    ensures !d.readingLength && d.length >= 0 ==> |TakeMessage(d).buffer| == |d.buffer| - d.length
  {
  }

  function Concat(chunks: seq<seq<byte>>): seq<byte> {
    if chunks == [] then [] else chunks[0] + Concat(chunks[1..])
  }

  /** One chunk after the other. */
  function FeedAll(d: Decoder, chunks: seq<seq<byte>>): Decoded
    decreases |chunks|
  {
    if chunks == [] then Decoded(d, [])
    else
      var first := Drain(Fed(d, chunks[0]));
      var rest := FeedAll(first.decoder, chunks[1..]);
      Decoded(rest.decoder, first.messages + rest.messages)
  }

  /** However the bytes are cut into chunks, the messages are those of all the bytes at once. */
  lemma {:induction false} ChunksDoNotMatter(d: Decoder, chunks: seq<seq<byte>>)
    requires !Ready(d) && Orderly(Fed(d, Concat(chunks)))
    ensures FeedAll(d, chunks) == Drain(Fed(d, Concat(chunks)))
    decreases |chunks|
  {
    if chunks == [] {
      assert Fed(d, []) == d;
    } else {
      var more := Concat(chunks[1..]);
      assert Fed(Fed(d, chunks[0]), more) == Fed(d, Concat(chunks)) by {
        assert (d.buffer + chunks[0]) + more == d.buffer + (chunks[0] + more);
      }
      DrainMore(Fed(d, chunks[0]), more);
      ChunksDoNotMatter(Drain(Fed(d, chunks[0])).decoder, chunks[1..]);
    }
  }

  // ---------------------------------------------------------------- when they do

  /** The decoder with only the first `n` of its bytes. */
  function Short(d: Decoder, n: nat): Decoder
    requires n <= |d.buffer|
  {
    d.(buffer := d.buffer[..n])
  }

  /** Where a message is cut off from the end, one byte more or less makes another message of it: with
      the first `n` bytes alone it is empty. */
  lemma {:induction false} FirstDifference(d: Decoder) returns (n: nat, k: nat)
    requires !Orderly(d)
    ensures 0 < n <= |d.buffer| && (!d.readingLength && d.length >= 0 ==> d.length < n)
    ensures k < |Drain(Short(d, n)).messages| && Drain(Short(d, n)).messages[k] == []
    ensures k < |Drain(d).messages| && Drain(d).messages[k] != []
    decreases |d.buffer|, d.readingLength == false
  {
    hide TakeByte, TakeMessage, UpTo, From;
    if CutsFromEnd(d) {
      n, k := 1, 0;
      CutIsNotEmpty(d);
    } else if d.readingLength {
      StepIsSmaller(d);
      n, k := FirstDifference(TakeByte(d));
      n := n + 1;
      ShortByte(d, n);
    } else {
      StepIsSmaller(d);
      n, k := FirstDifference(TakeMessage(d));
      if d.length >= 0 {
        n := n + d.length;
      }
      ShortMessage(d, n);
      k := k + 1;
    }
  }

  lemma CutIsNotEmpty(d: Decoder)
    requires CutsFromEnd(d)
    ensures Drain(d).messages != [] && Drain(d).messages[0] != []
    ensures Drain(Short(d, 1)).messages != [] && Drain(Short(d, 1)).messages[0] == []
  {
    hide Drain;
    DrainStep(d);
    DrainStep(Short(d, 1));
  }

  lemma ShortByte(d: Decoder, n: nat)
    requires Ready(d) && d.readingLength && 0 < n <= |d.buffer|
    ensures |TakeByte(d).buffer| == |d.buffer| - 1 && TakeByte(Short(d, n)) == Short(TakeByte(d), n - 1)
    ensures Drain(Short(d, n)) == Drain(Short(TakeByte(d), n - 1)) && Drain(d) == Drain(TakeByte(d))
  {
    hide ShiftLeft, Drain;
    DrainStep(d);
    DrainStep(Short(d, n));
    assert d.buffer[..n][1..] == d.buffer[1..][..n - 1];
  }

  lemma ShortMessage(d: Decoder, n: nat)
    requires Ready(d) && !d.readingLength && !CutsFromEnd(d) && 0 < n <= |d.buffer| && d.length <= n
    ensures |TakeMessage(d).buffer| == |d.buffer| - if d.length >= 0 then d.length else 0
    ensures var m := if d.length >= 0 then n - d.length else n;
      Drain(Short(d, n)).messages == [UpTo(d.buffer, d.length)] + Drain(Short(TakeMessage(d), m)).messages
    ensures Drain(d).messages == [UpTo(d.buffer, d.length)] + Drain(TakeMessage(d)).messages
  {
    hide Drain;
    DrainStep(d);
    DrainStep(Short(d, n));
    if d.length >= 0 {
      assert d.buffer[..n][d.length..] == d.buffer[d.length..][..n - d.length];
      assert d.buffer[..n][..d.length] == d.buffer[..d.length];
      assert TakeMessage(Short(d, n)) == Short(TakeMessage(d), n - d.length);
    } else {
      assert TakeMessage(Short(d, n)) == Short(TakeMessage(d), n);
    }
  }

  /** Otherwise there are two chunks that make other messages of the same bytes. */
  lemma SomeChunksMatter(d: Decoder, bytes: seq<byte>) returns (chunks: seq<seq<byte>>)
    requires !Ready(d) && !Orderly(Fed(d, bytes))
    ensures Concat(chunks) == bytes && FeedAll(d, chunks).messages != Drain(Fed(d, bytes)).messages
  {
    hide Drain, TakeByte, TakeMessage;
    var n, k := FirstDifference(Fed(d, bytes));
    var m := n - |d.buffer|;
    chunks := [bytes[..m], bytes[m..]];
    TwoChunks(d, bytes[..m], bytes[m..]);
    assert bytes[..m] + bytes[m..] == bytes;
    assert Short(Fed(d, bytes), n) == Fed(d, bytes[..m]);
  }

  lemma TwoChunks(d: Decoder, a: seq<byte>, b: seq<byte>)
    ensures Concat([a, b]) == a + b
    ensures Drain(Fed(d, a)).messages <= FeedAll(d, [a, b]).messages
  {
    hide Drain;
    assert [a, b][1..] == [b] && [b][1..] == [];
    assert Concat([b]) == b + Concat([]) == b;
  }

  /** The messages are independent of the chunks if and only if no message is cut off from the end. */
  lemma ChunksDoNotMatterIff(d: Decoder, bytes: seq<byte>)
    requires !Ready(d)
    ensures Orderly(Fed(d, bytes)) <==> forall chunks | Concat(chunks) == bytes :: FeedAll(d, chunks) == Drain(Fed(d, bytes))
  {
    if Orderly(Fed(d, bytes)) {
      forall chunks | Concat(chunks) == bytes
        ensures FeedAll(d, chunks) == Drain(Fed(d, bytes))
      {
        ChunksDoNotMatter(d, chunks);
      }
    } else {
      var chunks := SomeChunksMatter(d, bytes);
    }
  }

  // ---------------------------------------------------------------- decoding undoes encoding

  function Pow128(i: nat): nat {
    if i == 0 then 1 else 128 * Pow128(i - 1)
  }

  lemma SevenBits(k: nat)
    ensures Pow2(k + 7) == 128 * Pow2(k)
  {
    assert Pow2(k + 7) == 2 * Pow2(k + 6) == 4 * Pow2(k + 5) == 8 * Pow2(k + 4);
    assert Pow2(k + 4) == 2 * Pow2(k + 3) == 4 * Pow2(k + 2) == 8 * Pow2(k + 1);
  }

  lemma {:induction false} Pow2IsPow128(i: nat)
    ensures Pow2(7 * i) == Pow128(i)
  {
    if i > 0 {
      Pow2IsPow128(i - 1);
      SevenBits(7 * (i - 1));
    }
  }

  lemma ShiftIsProduct(x: nat, i: nat)
    requires i <= 4 && x < 128 && x * Pow128(i) < TWO31
    ensures ShiftLeft(x, 7 * i) == x * Pow128(i)
  {
    hide Pow2, Pow128;
    Pow2IsPow128(i);
    assert 7 * i % 32 == 7 * i && ToInt32(x) == x;
    assert x * Pow128(i) >= 0;
  }

  lemma SmallIndex(n: nat, i: nat)
    requires n >= 128 && n * Pow128(i) < TWO31 && i <= 4
    ensures i < 4
  {
    FourDigits();
  }

  lemma FourDigits()
    ensures Pow128(4) == 268435456
  {
    assert Pow128(2) == 16384;
  }

  lemma DigitSum(n: nat, p: nat)
    ensures n * p == (n / 128) * (128 * p) + (n % 128) * p
    ensures (n % 128) * p <= n * p
  {
    DivMod(n, 128);
    var q, r := n / 128, n % 128;
    assert (q * 128 + r) * p == (q * 128) * p + r * p;
    assert (q * 128) * p == q * (128 * p);
    assert q * (128 * p) >= 0;
  }

  lemma OneByte(before: int, i: nat, b: byte, rest: seq<byte>)
    ensures var d, e := Decoder(before, i, true, [b] + rest),
                        Decoder(before + ShiftLeft(b % 128, 7 * i), if b >= 128 then i + 1 else 0, b >= 128, rest);
      Drain(d) == Drain(e) && Orderly(d) == Orderly(e)
  {
    hide ShiftLeft;
    assert TakeByte(Decoder(before, i, true, [b] + rest)).buffer == rest;
  }

  lemma LengthUnfolds(n: nat)
    ensures n > 127 ==> LengthBytes(n) == [128 + n % 128] + LengthBytes(ShiftRight7(n))
    ensures n <= 127 ==> LengthBytes(n) == [n]
  {
    hide ShiftRight7;
  }

  lemma Regroup(a: seq<byte>, b: seq<byte>, c: seq<byte>)
    ensures (a + b) + c == a + (b + c)
  {
  }

  lemma FirstByte(n: nat, rest: seq<byte>)
    ensures n > 127 ==> LengthBytes(n) + rest == [128 + n % 128] + (LengthBytes(ShiftRight7(n)) + rest)
    ensures n <= 127 ==> LengthBytes(n) + rest == [n] + rest
  {
    hide ShiftRight7, LengthBytes;
    LengthUnfolds(n);
    if n > 127 {
      Regroup([128 + n % 128], LengthBytes(ShiftRight7(n)), rest);
    }
  }

  /** The digits of a length, from the `i`-th on, add up to it. */
  lemma {:induction false} LengthIsRead(n: nat, i: nat, before: nat, rest: seq<byte>)
    requires i <= 4 && n * Pow128(i) < TWO31
    ensures Drain(Decoder(before, i, true, LengthBytes(n) + rest)) == Drain(Decoder(before + n * Pow128(i), 0, false, rest))
    ensures Orderly(Decoder(before, i, true, LengthBytes(n) + rest)) <==> Orderly(Decoder(before + n * Pow128(i), 0, false, rest))
    decreases n
  {
    hide Drain, Orderly, ShiftLeft, LengthBytes, ShiftRight7;
    FirstByte(n, rest);
    if n > 127 {
      OneByte(before, i, 128 + n % 128, LengthBytes(ShiftRight7(n)) + rest);
      SmallIndex(n, i);
      MulAtLeast(Pow128(i), n) by { Pow128IsPositive(i); }
      SmallShift(n);
      DigitSum(n, Pow128(i));
      ShiftIsProduct(n % 128, i);
      LengthIsRead(n / 128, i + 1, before + (n % 128) * Pow128(i), rest);
    } else {
      OneByte(before, i, n, rest);
      ShiftIsProduct(n, i);
    }
  }

  lemma {:induction false} Pow128IsPositive(i: nat)
    ensures Pow128(i) >= 1
  {
    if i > 0 {
      Pow128IsPositive(i - 1);
    }
  }

  lemma SmallShift(n: nat)
    requires n < TWO31
    ensures ShiftRight7(n) == n / 128
  {
  }

  predicate Sendable(message: seq<byte>) {
    0 < |message| < TWO31
  }

  lemma MessageIsRead(message: seq<byte>, rest: seq<byte>)
    requires Sendable(message)
    ensures var after := Drain(Fed(EMPTY, rest));
      Drain(Fed(EMPTY, Encode(message) + rest)) == Decoded(after.decoder, [message] + after.messages)
    ensures Orderly(Fed(EMPTY, rest)) ==> Orderly(Fed(EMPTY, Encode(message) + rest))
  {
    hide LengthBytes, Drain, Orderly, TakeByte, ToInt32, ShiftLeft;
    assert Encode(message) + rest == LengthBytes(|message|) + (message + rest);
    assert Fed(EMPTY, Encode(message) + rest) == Decoder(0, 0, true, LengthBytes(|message|) + (message + rest));
    assert |message| * Pow128(0) == |message|;
    LengthIsRead(|message|, 0, 0, message + rest);
    assert (message + rest)[0] == message[0];
    WholeMessage(message, rest);
  }

  lemma WholeMessage(message: seq<byte>, rest: seq<byte>)
    ensures var d, after := Decoder(|message|, 0, false, message + rest), Drain(Fed(EMPTY, rest));
      && (message + rest != [] ==> Drain(d) == Decoded(after.decoder, [message] + after.messages))
      && (message + rest != [] && Orderly(Fed(EMPTY, rest)) ==> Orderly(d))
  {
    var d := Decoder(|message|, 0, false, message + rest);
    if message + rest != [] {
      assert TakeMessage(d) == Fed(EMPTY, rest);
      assert UpTo(d.buffer, d.length) == message;
    }
  }

  /** Before its last byte has come, a message is not emitted. */
  lemma PartIsKept(message: seq<byte>, part: seq<byte>)
    requires Sendable(message) && part < Encode(message)
    ensures Drain(Fed(EMPTY, part)).messages == [] && Orderly(Fed(EMPTY, part))
  {
    var n := |message|;
    assert Fed(EMPTY, part) == Decoder(0, 0, true, part);
    if |part| < |LengthBytes(n)| {
      assert part == LengthBytes(n)[..|part|];
      assert n * Pow128(0) == n;
      PartOfLengthIsKept(n, 0, 0, part);
    } else {
      var body := part[|LengthBytes(n)|..];
      assert part == LengthBytes(n) + body;
      assert n * Pow128(0) == n;
      LengthIsRead(n, 0, 0, body);
    }
  }

  lemma {:induction false} PartOfLengthIsKept(n: nat, i: nat, before: int, part: seq<byte>)
    requires part < LengthBytes(n) && n < TWO31
    ensures Drain(Decoder(before, i, true, part)).messages == [] && Orderly(Decoder(before, i, true, part))
    decreases n
  {
    if part != [] {
      assert n > 127 && ShiftRight7(n) == n / 128;
      assert LengthBytes(n)[0] == 128 + n % 128 && LengthBytes(n)[1..] == LengthBytes(n / 128);
      var d := Decoder(before, i, true, part);
      assert TakeByte(d).readingLength && TakeByte(d).buffer == part[1..];
      PartOfLengthIsKept(n / 128, i + 1, TakeByte(d).length, part[1..]);
    }
  }

  /** The bytes of some messages, and of a part of the next one. */
  lemma {:induction false} BytesAreDecoded(messages: seq<seq<byte>>, part: seq<byte>)
    requires forall m | m in messages :: Sendable(m)
    requires Drain(Fed(EMPTY, part)).messages == [] && Orderly(Fed(EMPTY, part))
    ensures Drain(Fed(EMPTY, EncodeAll(messages) + part)).messages == messages
    ensures Orderly(Fed(EMPTY, EncodeAll(messages) + part))
  {
    hide Drain, Orderly, Encode, Fed;
    if messages == [] {
      assert [] + part == part;
    } else {
      BytesAreDecoded(messages[1..], part);
      MessageIsRead(messages[0], EncodeAll(messages[1..]) + part);
      Regroup(Encode(messages[0]), EncodeAll(messages[1..]), part);
    }
  }

  /** Decoding undoes encoding, whatever the chunks: as soon as the last byte of a message has come in,
      it has been emitted, and nothing else has. */
  lemma StreamIsDecoded(messages: seq<seq<byte>>, next: seq<byte>, part: seq<byte>, chunks: seq<seq<byte>>)
    requires Sendable(next) && forall m | m in messages :: Sendable(m)
    requires part < Encode(next) && Concat(chunks) == EncodeAll(messages) + part
    ensures FeedAll(EMPTY, chunks).messages == messages
  {
    PartIsKept(next, part);
    BytesAreDecoded(messages, part);
    ChunksDoNotMatter(EMPTY, chunks);
  }

  /** A length can come out negative: five bytes announce a message of length -1. */
  lemma MinusOneIsRead(rest: seq<byte>)
    ensures Drain(Fed(EMPTY, [255, 255, 255, 255, 15] + rest)) == Drain(Decoder(-1, 0, false, rest))
  {
    hide Pow2, Drain, Orderly;
    Pow2IsPow128(0); Pow2IsPow128(1); Pow2IsPow128(2); Pow2IsPow128(3); Pow2IsPow128(4);
    assert Pow128(1) == 128 && Pow128(2) == 16384 && Pow128(3) == 2097152;
    FourDigits();
    assert ShiftLeft(127, 0) == 127 && ShiftLeft(127, 7) == 16256 && ShiftLeft(127, 14) == 2080768 && ShiftLeft(127, 21) == 266338304;
    assert ShiftLeft(15, 28) == -268435456;
    assert [] + ([255, 255, 255, 255, 15] + rest) == [255] + ([255] + ([255] + ([255] + ([15] + rest))));
    OneByte(0, 0, 255, [255] + ([255] + ([255] + ([15] + rest))));
    OneByte(127, 1, 255, [255] + ([255] + ([15] + rest)));
    OneByte(16383, 2, 255, [255] + ([15] + rest));
    OneByte(2097151, 3, 255, [15] + rest);
    OneByte(268435455, 4, 15, rest);
  }

  lemma FirstMessage(rest: seq<byte>)
    requires rest != []
    ensures var all := Drain(Decoder(-1, 0, false, rest)).messages;
      all != [] && all[0] == rest[..|rest| - 1]
  {
    hide TakeMessage, TakeByte;
  }

  /** Then the chunks do matter: what follows is cut from its end, wherever that happens to be. */
  lemma NegativeLengthDependsOnChunks(x: byte, y: byte)
    ensures var minusOne: seq<byte> := [255, 255, 255, 255, 15];
      var together, apart := Drain(Fed(EMPTY, minusOne + [x, y])).messages, FeedAll(EMPTY, [minusOne + [x], [y]]).messages;
      together != [] && together[0] == [x] && apart != [] && apart[0] == []
  {
    hide Drain, Fed;
    MinusOneIsRead([x, y]);
    MinusOneIsRead([x]);
    FirstMessage([x, y]);
    FirstMessage([x]);
  }

  /** From 2^31 on the announced length is wrong. */
  lemma TooLongIsMisread()
    ensures LengthBytes(TWO31) == [128, 0] == [128] + LengthBytes(0)
  {
  }
}
