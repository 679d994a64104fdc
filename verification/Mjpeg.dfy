/** The decoder of a motion JPEG stream: headers with a length, an empty line, a picture, and so on. */
module Mjpeg {
  import opened Wrappers

  type byte = x: int | 0 <= x < 256

  const MAX_HEADERS := 16384
  const MAX_FRAME := 8 * 1024 * 1024

  const CRLF: seq<byte> := [13, 10]
  const SEPARATOR: seq<byte> := [13, 10, 13, 10]

  // ---------------------------------------------------------------- headers

  predicate StartsWith(s: seq<byte>, t: seq<byte>) {
    |t| <= |s| && s[..|t|] == t
  }

  /** Where a pattern first stands. */
  function IndexOf(s: seq<byte>, t: seq<byte>): (r: Option<nat>)
    ensures r.Some? ==> r.value + |t| <= |s| && s[r.value..r.value + |t|] == t
    decreases |s|
  {
    if StartsWith(s, t) then Some(0)
    else if s == [] then None
    else match IndexOf(s[1..], t)
      case None => None
      case Some(i) => Some(i + 1)
  }

  /** The text as ASCII: the eighth bit is dropped. */
  function Ascii(b: byte): byte {
    b % 128
  }

  predicate IsSpace(b: byte) {
    9 <= b <= 13 || b == 32
  }

  predicate IsDigit(b: byte) {
    48 <= b <= 57
  }

  function Lower(b: byte): byte {
    if 65 <= b <= 90 then b + 32 else b
  }

  function SkipSpaces(s: seq<byte>): (r: seq<byte>)
    ensures |r| <= |s|
  {
    if s != [] && IsSpace(s[0]) then SkipSpaces(s[1..]) else s
  }

  function DigitsOf(s: seq<byte>): seq<byte> {
    if s != [] && IsDigit(s[0]) then [s[0]] + DigitsOf(s[1..]) else []
  }

  lemma {:induction false} DigitsAreFirst(s: seq<byte>)
    ensures DigitsOf(s) <= s
  {
    if s != [] && IsDigit(s[0]) {
      DigitsAreFirst(s[1..]);
    }
  }

  function ValueOf(digits: seq<byte>): nat
    requires forall i | 0 <= i < |digits| :: IsDigit(digits[i])
  {
    if digits == [] then 0
    else
      assert IsDigit(digits[|digits| - 1]);
      10 * ValueOf(digits[..|digits| - 1]) + (digits[|digits| - 1] as int - 48)
  }

  /** Blank up to an end of line, or up to the end. */
  predicate EndsLine(s: seq<byte>) {
    s == [] || StartsWith(s, CRLF) || (IsSpace(s[0]) && EndsLine(s[1..]))
  }

  /** "content-length:" */
  const FIELD: seq<byte> := [99, 111, 110, 116, 101, 110, 116, 45, 108, 101, 110, 103, 116, 104, 58]

  function LowerAll(s: seq<byte>): seq<byte> {
    seq(|s|, i requires 0 <= i < |s| => Lower(s[i]))
  }

  /** The number of a field that begins here. */
  function LengthHere(s: seq<byte>): (r: Option<seq<byte>>)
    ensures r.Some? ==> forall i | 0 <= i < |r.value| :: IsDigit(r.value[i])
  {
    if |FIELD| <= |s| && LowerAll(s[..|FIELD|]) == FIELD then
      var value := SkipSpaces(s[|FIELD|..]);
      DigitsAreFirst(value);
      AllDigits(value);
      var digits := DigitsOf(value);
      if digits != [] && EndsLine(value[|digits|..]) then Some(digits) else None
    else None
  }

  lemma AllDigits(s: seq<byte>)
    ensures forall i | 0 <= i < |DigitsOf(s)| :: IsDigit(DigitsOf(s)[i])
  {
  }

  /** The first such field that begins a line. */
  function FindLength(s: seq<byte>, atStart: bool): Option<nat>
    decreases |s|
  {
    if atStart && LengthHere(s).Some? then Some(ValueOf(LengthHere(s).value))
    else if s == [] then None
    else if StartsWith(s, CRLF) && LengthHere(s[2..]).Some? then Some(ValueOf(LengthHere(s[2..]).value))
    else FindLength(s[1..], false)
  }

  function ContentLength(headers: seq<byte>): Option<nat> {
    FindLength(seq(|headers|, i requires 0 <= i < |headers| => Ascii(headers[i])), true)
  }

  // ---------------------------------------------------------------- which headers give a length

  lemma FieldIsContentLength()
    ensures |FIELD| == |"content-length:"| && forall i | 0 <= i < |FIELD| :: FIELD[i] == "content-length:"[i] as int
  {
  }

  lemma SpacesAndDigits(b: byte)
    ensures IsSpace(b) <==> b in {9, 10, 11, 12, 13, 32}
    ensures IsDigit(b) <==> (b as char) in "0123456789"
    ensures Lower(b) == if (b as char) in "ABCDEFGHIJKLMNOPQRSTUVWXYZ" then b + 32 else b
  {
    assert "0123456789"[0] == '0' && "0123456789"[9] == '9';
  }

  /** A number in decimal digits. */
  function Decimal(n: nat): (s: seq<byte>)
    ensures s != [] && forall i | 0 <= i < |s| :: IsDigit(s[i])
  {
    if n < 10 then [48 + n] else Decimal(n / 10) + [48 + n % 10]
  }

  lemma {:induction false} DecimalIsRead(n: nat)
    ensures ValueOf(Decimal(n)) == n
  {
    if n >= 10 {
      DecimalIsRead(n / 10);
      assert Decimal(n)[..|Decimal(n)| - 1] == Decimal(n / 10);
    }
  }

  predicate AllSpaces(s: seq<byte>) {
    forall i | 0 <= i < |s| :: IsSpace(s[i])
  }

  predicate AllAreDigits(s: seq<byte>) {
    forall i | 0 <= i < |s| :: IsDigit(s[i])
  }

  /** A field as it is written: its name in any case, space, digits, space, and the end of the line. */
  ghost predicate IsField(s: seq<byte>, name: seq<byte>, before: seq<byte>, digits: seq<byte>, after: seq<byte>,
                          rest: seq<byte>) {
    && s == name + (before + (digits + (after + rest)))
    && LowerAll(name) == FIELD && AllSpaces(before) && digits != [] && AllAreDigits(digits) && AllSpaces(after)
    && (rest == [] || StartsWith(rest, CRLF))
  }

  lemma {:induction false} SpacesAreSkipped(spaces: seq<byte>, rest: seq<byte>)
    requires AllSpaces(spaces) && rest != [] && !IsSpace(rest[0])
    ensures SkipSpaces(spaces + rest) == rest
  {
    if spaces == [] {
      assert spaces + rest == rest;
    } else {
      assert (spaces + rest)[1..] == spaces[1..] + rest;
      SpacesAreSkipped(spaces[1..], rest);
    }
  }

  lemma {:induction false} DigitsAreTaken(digits: seq<byte>, rest: seq<byte>)
    requires AllAreDigits(digits) && (rest == [] || !IsDigit(rest[0]))
    ensures DigitsOf(digits + rest) == digits
  {
    if digits == [] {
      assert digits + rest == rest;
    } else {
      assert (digits + rest)[1..] == digits[1..] + rest;
      DigitsAreTaken(digits[1..], rest);
    }
  }

  lemma {:induction false} LineEnds(spaces: seq<byte>, rest: seq<byte>)
    requires AllSpaces(spaces) && (rest == [] || StartsWith(rest, CRLF))
    ensures EndsLine(spaces + rest)
  {
    if spaces == [] {
      assert spaces + rest == rest;
    } else {
      assert (spaces + rest)[1..] == spaces[1..] + rest;
      LineEnds(spaces[1..], rest);
    }
  }

  /** A field that is written in one of these ways is read ... */
  lemma FieldIsRead(s: seq<byte>, name: seq<byte>, before: seq<byte>, digits: seq<byte>, after: seq<byte>,
                    rest: seq<byte>)
    requires IsField(s, name, before, digits, after, rest)
    ensures LengthHere(s) == Some(digits)
  {
    var value, tail := before + (digits + (after + rest)), after + rest;
    assert s[..|FIELD|] == name && s[|FIELD|..] == value;
    SpacesAreSkipped(before, digits + tail);
    assert tail != [] ==> IsSpace(tail[0]);
    DigitsAreTaken(digits, tail);
    assert (digits + tail)[|digits|..] == tail;
    LineEnds(after, rest);
  }

  /** ... and nothing else is. */
  lemma ReadIsField(s: seq<byte>) returns (name: seq<byte>, before: seq<byte>, after: seq<byte>, rest: seq<byte>)
    requires LengthHere(s).Some?
    ensures IsField(s, name, before, LengthHere(s).value, after, rest)
  {
    name := s[..|FIELD|];
    var value := s[|FIELD|..];
    before := Skipped(value);
    DigitsAreFirst(SkipSpaces(value));
    var digits, tail := DigitsOf(SkipSpaces(value)), SkipSpaces(value)[|DigitsOf(SkipSpaces(value))|..];
    var n := EndOfLine(tail);
    after, rest := tail[..n], tail[n..];
    assert after + rest == tail && digits + tail == SkipSpaces(value) && name + value == s;
  }

  lemma {:induction false} Skipped(s: seq<byte>) returns (spaces: seq<byte>)
    ensures AllSpaces(spaces) && s == spaces + SkipSpaces(s)
  {
    spaces := [];
    if s != [] && IsSpace(s[0]) {
      var more := Skipped(s[1..]);
      spaces := [s[0]] + more;
      assert s == [s[0]] + s[1..];
    }
  }

  lemma {:induction false} EndOfLine(s: seq<byte>) returns (n: nat)
    requires EndsLine(s)
    ensures n <= |s| && (n == |s| || StartsWith(s[n..], CRLF))
    ensures forall i | 0 <= i < n :: IsSpace(s[i])
    decreases |s|
  {
    hide StartsWith, IsSpace;
    if s == [] || StartsWith(s, CRLF) {
      n := 0;
      assert s[0..] == s;
    } else {
      var m := EndOfLine(s[1..]);
      n := m + 1;
      assert s[n..] == s[1..][m..];
      assert forall i | 0 < i < n :: s[i] == s[1..][i - 1];
    }
  }

  predicate BeginsLine(s: seq<byte>, i: nat)
    requires i <= |s|
  {
    i == 0 || (i >= 2 && s[i - 2] == 13 && s[i - 1] == 10)
  }

  /** The length is that of the first field that begins a line, or there is none. */
  ghost predicate GivesLength(s: seq<byte>, n: Option<nat>) {
    if n.None? then forall i: nat | i <= |s| && BeginsLine(s, i) :: LengthHere(s[i..]).None?
    else exists i: nat ::
      && i <= |s| && BeginsLine(s, i) && LengthHere(s[i..]).Some? && ValueOf(LengthHere(s[i..]).value) == n.value
      && forall j: nat | j < i && BeginsLine(s, j) :: LengthHere(s[j..]).None?
  }

  lemma LengthIsThatOfFirstField(headers: seq<byte>)
    ensures var text: seq<byte> := seq(|headers|, i requires 0 <= i < |headers| => headers[i] % 128);
      GivesLength(text, ContentLength(headers))
  {
    var text: seq<byte> := seq(|headers|, i requires 0 <= i < |headers| => headers[i] % 128);
    assert text == seq(|headers|, i requires 0 <= i < |headers| => Ascii(headers[i]));
    FirstFieldFrom(text, 0);
    assert text[0..] == text;
  }

  lemma {:induction false} FirstFieldFrom(s: seq<byte>, from: nat)
    requires from <= |s|
    requires from > 0 ==> forall j: nat | j <= from + 1 && j <= |s| && BeginsLine(s, j) :: LengthHere(s[j..]).None?
    ensures GivesLength(s, FindLength(s[from..], from == 0))
    decreases |s| - from
  {
    hide LengthHere;
    var rest := s[from..];
    if from == 0 && LengthHere(rest).Some? {
      assert s[0..] == rest && BeginsLine(s, 0);
    } else if rest == [] {
      assert from == |s|;
    } else if StartsWith(rest, CRLF) && LengthHere(rest[2..]).Some? {
      assert s[from] == rest[0] && s[from + 1] == rest[1] && rest[2..] == s[from + 2..];
      assert BeginsLine(s, from + 2) && s[0..] == s;
    } else {
      assert rest[1..] == s[from + 1..] && s[0..] == s;
      if from + 2 <= |s| && BeginsLine(s, from + 2) {
        assert rest[..2] == CRLF && rest[2..] == s[from + 2..];
      }
      FirstFieldFrom(s, from + 1);
    }
  }

  // ---------------------------------------------------------------- what the decoder does

  datatype Decoder = Decoder(buffer: seq<byte>, length: nat)

  const START := Decoder([], 0)

  datatype Error = HeadersTooLong | InvalidLength | InvalidImage

  datatype Fed = Fed(frames: seq<seq<byte>>, decoder: Decoder) | Failed(error: Error)

  function SkipLines(s: seq<byte>): (r: seq<byte>)
    ensures |r| <= |s|
  {
    if StartsWith(s, CRLF) then SkipLines(s[2..]) else s
  }

  predicate IsImage(s: seq<byte>) {
    |s| >= 4 && s[0] == 0xff && s[1] == 0xd8 && s[|s| - 2] == 0xff && s[|s| - 1] == 0xd9
  }

  predicate IsLength(n: Option<nat>) {
    n.Some? && 4 <= n.value <= MAX_FRAME
  }

  function Prepend(frames: seq<seq<byte>>, f: Fed): Fed {
    match f
    case Fed(more, d) => Fed(frames + more, d)
    case Failed(e) => f
  }

  /** Everything the decoder can do with the bytes it has. */
  function Drain(d: Decoder): Fed
    decreases |d.buffer|, d.length == 0
  {
    if d.length == 0 then
      var s := SkipLines(d.buffer);
      match IndexOf(s, SEPARATOR)
      case None => if |s| > MAX_HEADERS then Failed(HeadersTooLong) else Fed([], Decoder(s, 0))
      case Some(end) =>
        var n := ContentLength(s[..end]);
        if !IsLength(n) then Failed(InvalidLength) else Drain(Decoder(s[end + 4..], n.value))
    else if |d.buffer| < d.length then Fed([], d)
    else if !IsImage(d.buffer[..d.length]) then Failed(InvalidImage)
    else Prepend([d.buffer[..d.length]], Drain(Decoder(d.buffer[d.length..], 0)))
  }

  class MjpegDecoder {
    var buffer: seq<byte>
    var length: nat

    ghost function View(): Decoder
      reads this
    {
      Decoder(buffer, length)
    }

    constructor ()
      ensures View() == START
    {
      buffer, length := [], 0;
    }

    /** The frames that are complete now; an error ends the stream. */
    method Feed(chunk: seq<byte>) returns (frames: seq<seq<byte>>, error: Option<Error>)
      modifies this
      ensures var d := Drain(Decoder(old(buffer) + chunk, old(length)));
        if error.Some? then d == Failed(error.value) else d == Fed(frames, View())
      ensures error.None? && old(length) <= MAX_FRAME ==> length <= MAX_FRAME && |buffer| < MAX_FRAME
    {
      hide Drain, ContentLength, IndexOf;
      buffer := buffer + chunk;
      frames := [];
      ghost var all := Drain(View());
      assert Prepend(frames, Drain(View())) == all;
      while buffer != []
        invariant all == Prepend(frames, Drain(View()))
        decreases |buffer|, length == 0
      {
        DrainStep(View());
        if length == 0 {
          SkipBlankLines();
          var end := IndexOf(buffer, SEPARATOR);
          if end.None? {
            if |buffer| > MAX_HEADERS {
              return [], Some(HeadersTooLong);
            }
            break;
          }
          var n := ContentLength(buffer[..end.value]);
          if !IsLength(n) {
            return [], Some(InvalidLength);
          }
          length := n.value;
          buffer := buffer[end.value + 4..];
          DrainStep(View());
        }
        if |buffer| < length {
          break;
        }
        var frame := buffer[..length];
        if !IsImage(frame) {
          return [], Some(InvalidImage);
        }
        assert Prepend(frames, Drain(View())) == Prepend(frames + [frame], Drain(Decoder(buffer[length..], 0))) by {
          PrependTwice(frames, [frame], Drain(Decoder(buffer[length..], 0)));
        }
        frames := frames + [frame];
        buffer := buffer[length..];
        length := 0;
      }
      DrainStep(View());
      error := None;
      if old(length) <= MAX_FRAME {
        LittleIsKept(Decoder(old(buffer) + chunk, old(length)));
      }
    }

    method SkipBlankLines()
      modifies `buffer
      ensures buffer == SkipLines(old(buffer))
    {
      while |buffer| >= 2 && buffer[0] == 13 && buffer[1] == 10
        invariant SkipLines(buffer) == SkipLines(old(buffer))
        decreases |buffer|
      {
        assert buffer[..2] == CRLF;
        buffer := buffer[2..];
      }
    }
  }

  lemma PrependTwice(a: seq<seq<byte>>, b: seq<seq<byte>>, f: Fed)
    ensures Prepend(a, Prepend(b, f)) == Prepend(a + b, f)
  {
    if f.Fed? {
      assert a + (b + f.frames) == (a + b) + f.frames;
    }
  }

  /** One round of the loop, and what it leaves to do. */
  lemma DrainStep(d: Decoder)
    ensures d.length == 0 ==>
      var s := SkipLines(d.buffer);
      var end := IndexOf(s, SEPARATOR);
      if end.None? then Drain(d) == if |s| > MAX_HEADERS then Failed(HeadersTooLong) else Fed([], Decoder(s, 0))
      else
        var n := ContentLength(s[..end.value]);
        Drain(d) == if !IsLength(n) then Failed(InvalidLength) else Drain(Decoder(s[end.value + 4..], n.value))
    ensures d.length > 0 && |d.buffer| < d.length ==> Drain(d) == Fed([], d)
    ensures d.length > 0 && |d.buffer| >= d.length ==>
      Drain(d) == if !IsImage(d.buffer[..d.length]) then Failed(InvalidImage)
                  else Prepend([d.buffer[..d.length]], Drain(Decoder(d.buffer[d.length..], 0)))
    ensures d.length == 0 && d.buffer == [] ==> Drain(d) == Fed([], d)
  {
    hide ContentLength;
  }

  // ---------------------------------------------------------------- chunks do not matter

  lemma {:induction false} SkipMore(s: seq<byte>, more: seq<byte>)
    ensures SkipLines(s + more) == SkipLines(SkipLines(s) + more)
    decreases |s|
  {
    if StartsWith(s, CRLF) {
      assert (s + more)[..2] == s[..2] && (s + more)[2..] == s[2..] + more;
      SkipMore(s[2..], more);
    }
  }

  lemma PrefixMore(s: seq<byte>, t: seq<byte>, more: seq<byte>)
    requires |t| <= |s|
    ensures StartsWith(s + more, t) == StartsWith(s, t)
  {
    assert (s + more)[..|t|] == s[..|t|];
  }

  /** A pattern that is there stays where it first is. */
  lemma {:induction false} IndexOfMore(s: seq<byte>, t: seq<byte>, more: seq<byte>)
    requires t != [] && IndexOf(s, t).Some?
    ensures IndexOf(s + more, t) == IndexOf(s, t)
    decreases |s|
  {
    hide StartsWith;
    PrefixMore(s, t, more);
    if !StartsWith(s, t) {
      IndexOfMore(s[1..], t, more);
      assert (s + more)[1..] == s[1..] + more;
    }
  }

  lemma SkipsAll(s: seq<byte>)
    ensures !StartsWith(SkipLines(s), CRLF)
  {
  }

  /** What was done with some bytes is not done otherwise when more follow. */
  lemma {:induction false} DrainMore(d: Decoder, more: seq<byte>)
    requires Drain(d).Fed?
    ensures var f := Drain(d);
      Drain(d.(buffer := d.buffer + more)) == Prepend(f.frames, Drain(f.decoder.(buffer := f.decoder.buffer + more)))
    decreases |d.buffer|, d.length == 0
  {
    hide Drain, ContentLength, IsImage, StartsWith;
    var e := d.(buffer := d.buffer + more);
    DrainStep(d);
    DrainStep(e);
    if d.length == 0 {
      var s := SkipLines(d.buffer);
      var end := IndexOf(s, SEPARATOR);
      SkipMore(d.buffer, more);
      if end.None? {
        var g := Decoder(s + more, 0);
        DrainStep(g);
        NothingBefore(Drain(g));
      } else {
        IndexOfMore(s, SEPARATOR, more);
        NothingToSkip(d.buffer, more);
        assert (s + more)[..end.value] == s[..end.value] && (s + more)[end.value + 4..] == s[end.value + 4..] + more;
        DrainMore(Decoder(s[end.value + 4..], ContentLength(s[..end.value]).value), more);
      }
    } else if |d.buffer| < d.length {
      NothingBefore(Drain(e));
    } else {
      var rest := Decoder(d.buffer[d.length..], 0);
      assert e.buffer[..d.length] == d.buffer[..d.length] && e.buffer[d.length..] == rest.buffer + more;
      DrainMore(rest, more);
      var f := Drain(rest);
      PrependTwice([d.buffer[..d.length]], f.frames, Drain(f.decoder.(buffer := f.decoder.buffer + more)));
    }
  }

  lemma NothingBefore(f: Fed)
    ensures Prepend([], f) == f
  {
    if f.Fed? {
      assert [] + f.frames == f.frames;
    }
  }

  /** Behind the blank lines there is none left, unless a carriage return stands alone at the end. */
  lemma NothingToSkip(s: seq<byte>, more: seq<byte>)
    requires IndexOf(SkipLines(s), SEPARATOR).Some?
    ensures SkipLines(SkipLines(s) + more) == SkipLines(s) + more
  {
    var r := SkipLines(s);
    SkipsAll(s);
    assert |r| >= 4;
    assert (r + more)[..2] == r[..2];
  }

  function Concat(chunks: seq<seq<byte>>): seq<byte> {
    if chunks == [] then [] else chunks[0] + Concat(chunks[1..])
  }

  /** One chunk after the other, until one fails. */
  function FeedAll(d: Decoder, chunks: seq<seq<byte>>): Fed
    decreases |chunks|
  {
    if chunks == [] then Fed([], d)
    else
      match Drain(d.(buffer := d.buffer + chunks[0]))
      case Failed(e) => Failed(e)
      case Fed(frames, d') => Prepend(frames, FeedAll(d', chunks[1..]))
  }

  /** The decoder has done all it can. */
  predicate Rests(d: Decoder) {
    Drain(d) == Fed([], d)
  }

  lemma {:induction false} DrainRests(d: Decoder)
    requires Drain(d).Fed?
    ensures Rests(Drain(d).decoder)
    decreases |d.buffer|, d.length == 0
  {
    hide Drain, ContentLength, IsImage, StartsWith;
    DrainStep(d);
    if d.length == 0 {
      var s := SkipLines(d.buffer);
      var end := IndexOf(s, SEPARATOR);
      if end.None? {
        SkipsAll(d.buffer);
        SkipNothing(s);
        DrainStep(Decoder(s, 0));
      } else {
        DrainRests(Decoder(s[end.value + 4..], ContentLength(s[..end.value]).value));
      }
    } else if |d.buffer| >= d.length {
      DrainRests(Decoder(d.buffer[d.length..], 0));
    }
  }

  lemma SkipNothing(s: seq<byte>)
    requires !StartsWith(s, CRLF)
    ensures SkipLines(s) == s
  {
  }

  /** However the bytes are cut: as long as no chunk fails, the frames are those of all bytes at once. */
  lemma {:induction false} ChunksDoNotMatter(d: Decoder, chunks: seq<seq<byte>>)
    requires Rests(d) && FeedAll(d, chunks).Fed?
    ensures FeedAll(d, chunks) == Drain(d.(buffer := d.buffer + Concat(chunks)))
    decreases |chunks|
  {
    hide Drain;
    if chunks == [] {
      assert d.buffer + [] == d.buffer;
    } else {
      var e, more := d.(buffer := d.buffer + chunks[0]), Concat(chunks[1..]);
      assert d.buffer + Concat(chunks) == e.buffer + more;
      DrainRests(e);
      DrainMore(e, more);
      ChunksDoNotMatter(Drain(e).decoder, chunks[1..]);
    }
  }

  /** What is kept for later is less than a frame, or headers within their limit. */
  lemma {:induction false} LittleIsKept(d: Decoder)
    requires Drain(d).Fed? && d.length <= MAX_FRAME
    ensures var e := Drain(d).decoder;
      |e.buffer| < MAX_FRAME && e.length <= MAX_FRAME && (e.length > 0 ==> |e.buffer| < e.length) && (e.length == 0 ==> |e.buffer| <= MAX_HEADERS)
    decreases |d.buffer|, d.length == 0
  {
    hide Drain, ContentLength, IsImage, StartsWith;
    DrainStep(d);
    if d.length == 0 {
      var s := SkipLines(d.buffer);
      var end := IndexOf(s, SEPARATOR);
      if end.Some? {
        LittleIsKept(Decoder(s[end.value + 4..], ContentLength(s[..end.value]).value));
      }
    } else if |d.buffer| >= d.length {
      LittleIsKept(Decoder(d.buffer[d.length..], 0));
    }
  }

  // ---------------------------------------------------------------- what is handed out, and what fails

  /** Whatever is handed out is a picture of 4 bytes to 8 MiB, with the marks of its beginning and its end. */
  lemma {:induction false} FramesArePictures(d: Decoder, k: nat)
    requires Drain(d).Fed? && k < |Drain(d).frames| && (d.length == 0 || 4 <= d.length <= 8388608)
    ensures var f := Drain(d).frames[k];
      && 4 <= |f| <= 8388608
      && f[0] == 255 && f[1] == 216 && f[|f| - 2] == 255 && f[|f| - 1] == 217
    decreases |d.buffer|, d.length == 0, k
  {
    hide Drain, ContentLength, IndexOf, SkipLines;
    DrainStep(d);
    if d.length == 0 {
      var s := SkipLines(d.buffer);
      var end := IndexOf(s, SEPARATOR).value;
      FramesArePictures(Decoder(s[end + 4..], ContentLength(s[..end]).value), k);
    } else if k > 0 {
      FramesArePictures(Decoder(d.buffer[d.length..], 0), k - 1);
    }
  }

  /** Headers without an end fail as soon as there are more than 16384 bytes of them. */
  lemma EndlessHeaders(blanks: nat, headers: seq<byte>)
    requires IndexOf(headers, SEPARATOR).None? && !StartsWith(headers, CRLF)
    ensures Drain(Decoder(Blanks(blanks) + headers, 0)) ==
      if |headers| > 16384 then Failed(HeadersTooLong) else Fed([], Decoder(headers, 0))
  {
    hide Drain;
    BlanksAreSkipped(blanks, headers);
    SkipNothing(headers);
    DrainStep(Decoder(Blanks(blanks) + headers, 0));
  }

  /** Headers that end fail exactly if they give no length, or one below 4 or above 8 MiB; and the bytes behind them
      fail exactly if there are enough of them and they do not begin and end as a picture does. */
  lemma HeadersThenBody(blanks: nat, headers: seq<byte>, body: seq<byte>)
    requires IndexOf(headers + SEPARATOR, SEPARATOR) == Some(|headers|) && !StartsWith(headers + SEPARATOR, CRLF)
    ensures var f, n := Drain(Decoder(Blanks(blanks) + (headers + SEPARATOR + body), 0)), ContentLength(headers);
      if n.None? || n.value < 4 || n.value > 8388608 then f == Failed(InvalidLength)
      else if |body| < n.value then f == Fed([], Decoder(body, n.value))
      else if body[0] == 255 && body[1] == 216 && body[n.value - 2] == 255 && body[n.value - 1] == 217 then
        f == Prepend([body[..n.value]], Drain(Decoder(body[n.value..], 0)))
      else f == Failed(InvalidImage)
  {
    hide Drain, ContentLength, SkipLines, IndexOf;
    var head := headers + SEPARATOR;
    BlanksAreSkipped(blanks, head + body);
    assert (head + body)[..2] == head[..2];
    SkipNothing(head + body);
    IndexOfMore(head, SEPARATOR, body);
    assert (head + body)[..|headers|] == headers && (head + body)[|headers| + 4..] == body;
    DrainStep(Decoder(Blanks(blanks) + (head + body), 0));
    if IsLength(ContentLength(headers)) {
      DrainStep(Decoder(body, ContentLength(headers).value));
    }
  }

  // ---------------------------------------------------------------- well-formed streams

  /** A picture as it is sent: blank lines left over from the last one, headers, an empty line, the image. */
  datatype Part = Part(blanks: nat, headers: seq<byte>, image: seq<byte>)

  predicate IsPart(p: Part) {
    && IndexOf(p.headers + SEPARATOR, SEPARATOR) == Some(|p.headers|)
    && !StartsWith(p.headers + SEPARATOR, CRLF)
    && |p.headers| + |SEPARATOR| <= MAX_HEADERS
    && IsImage(p.image) && |p.image| <= MAX_FRAME && ContentLength(p.headers) == Some(|p.image|)
  }

  function Blanks(n: nat): seq<byte> {
    if n == 0 then [] else CRLF + Blanks(n - 1)
  }

  function Encode(p: Part): seq<byte> {
    Blanks(p.blanks) + (p.headers + SEPARATOR) + p.image
  }

  function EncodeAll(parts: seq<Part>): seq<byte> {
    if parts == [] then [] else Encode(parts[0]) + EncodeAll(parts[1..])
  }

  function Images(parts: seq<Part>): seq<seq<byte>> {
    if parts == [] then [] else [parts[0].image] + Images(parts[1..])
  }

  lemma {:induction false} BlanksAreSkipped(n: nat, s: seq<byte>)
    ensures SkipLines(Blanks(n) + s) == SkipLines(s)
  {
    if n == 0 {
      assert Blanks(0) + s == s;
    } else {
      assert Blanks(n) + s == CRLF + (Blanks(n - 1) + s);
      assert (CRLF + (Blanks(n - 1) + s))[..2] == CRLF;
      BlanksAreSkipped(n - 1, s);
    }
  }

  lemma PartIsRead(p: Part, rest: seq<byte>)
    requires IsPart(p)
    ensures Drain(Decoder(Encode(p) + rest, 0)) == Prepend([p.image], Drain(Decoder(rest, 0)))
  {
    hide Drain, ContentLength, IsImage, SkipLines, IndexOf;
    var head, tail := p.headers + SEPARATOR, p.image + rest;
    assert Encode(p) + rest == Blanks(p.blanks) + (head + tail);
    BlanksAreSkipped(p.blanks, head + tail);
    assert (head + tail)[..2] == head[..2];
    SkipNothing(head + tail);
    IndexOfMore(head, SEPARATOR, tail);
    assert (head + tail)[..|p.headers|] == p.headers && (head + tail)[|p.headers| + 4..] == tail;
    DrainStep(Decoder(Encode(p) + rest, 0));
    var d := Decoder(tail, |p.image|);
    ImagesAreLong(p.image);
    assert tail[..|p.image|] == p.image && tail[|p.image|..] == rest;
    DrainStep(d);
  }

  lemma ImagesAreLong(s: seq<byte>)
    requires IsImage(s)
    ensures |s| >= 4
  {
  }

  /** A pattern that first stands at the end is not in anything shorter. */
  lemma {:induction false} NotYetThere(s: seq<byte>, t: seq<byte>, part: seq<byte>)
    requires t != [] && part <= s && part != s && |t| <= |s| && IndexOf(s, t) == Some(|s| - |t|)
    ensures IndexOf(part, t).None?
    decreases |s|
  {
    if IndexOf(part, t).Some? {
      var more := s[|part|..];
      assert part + more == s;
      IndexOfMore(part, t, more);
      assert false;
    }
  }

  /** Before its last byte has come a picture is not handed out, and nothing fails. */
  lemma PartIsKept(p: Part, part: seq<byte>)
    requires IsPart(p) && part < Encode(p)
    ensures Drain(Decoder(part, 0)).Fed? && Drain(Decoder(part, 0)).frames == []
  {
    hide Drain, ContentLength, IsImage, SkipLines, IndexOf, StartsWith, Blanks;
    var head, blanks := p.headers + SEPARATOR, Blanks(p.blanks);
    if |part| < |blanks| {
      assert part == blanks[..|part|];
      BlanksAlone(p.blanks, part);
    } else if |part| < |blanks| + |head| {
      var h := part[|blanks|..];
      assert part == blanks + h && h == head[..|h|];
      HeadersAlone(p, h);
    } else {
      var body := part[|blanks| + |head|..];
      assert part == blanks + (head + body) && |body| < |p.image|;
      BodyAlone(p, body);
    }
  }

  lemma {:induction false} BlanksAlone(n: nat, part: seq<byte>)
    requires part <= Blanks(n)
    ensures Drain(Decoder(part, 0)).Fed? && Drain(Decoder(part, 0)).frames == []
  {
    hide Drain;
    HalfLine(n, part);
    DrainStep(Decoder(part, 0));
  }

  lemma {:induction false} HalfLine(n: nat, part: seq<byte>)
    requires part <= Blanks(n)
    ensures |SkipLines(part)| <= 1
    decreases n
  {
    if n > 0 && |part| >= 2 {
      assert part[..2] == CRLF && part[2..] <= Blanks(n - 1);
      HalfLine(n - 1, part[2..]);
    }
  }

  lemma HeadersAlone(p: Part, h: seq<byte>)
    requires IsPart(p) && h <= p.headers + SEPARATOR && |h| < |p.headers + SEPARATOR|
    ensures var d := Decoder(Blanks(p.blanks) + h, 0);
      Drain(d).Fed? && Drain(d).frames == []
  {
    hide Drain, ContentLength, IsImage, IndexOf;
    BlanksAreSkipped(p.blanks, h);
    if |h| >= 2 {
      assert h[..2] == (p.headers + SEPARATOR)[..2];
    }
    SkipNothing(h);
    NotYetThere(p.headers + SEPARATOR, SEPARATOR, h);
    DrainStep(Decoder(Blanks(p.blanks) + h, 0));
  }

  lemma BodyAlone(p: Part, body: seq<byte>)
    requires IsPart(p) && |body| < |p.image|
    ensures var d := Decoder(Blanks(p.blanks) + (p.headers + SEPARATOR + body), 0);
      Drain(d).Fed? && Drain(d).frames == []
  {
    hide Drain, ContentLength, IsImage, SkipLines, IndexOf;
    var head := p.headers + SEPARATOR;
    BlanksAreSkipped(p.blanks, head + body);
    assert (head + body)[..2] == head[..2];
    SkipNothing(head + body);
    IndexOfMore(head, SEPARATOR, body);
    assert (head + body)[..|p.headers|] == p.headers && (head + body)[|p.headers| + 4..] == body;
    ImagesAreLong(p.image);
    DrainStep(Decoder(Blanks(p.blanks) + (head + body), 0));
    DrainStep(Decoder(body, |p.image|));
  }

  lemma {:induction false} PartsAreRead(parts: seq<Part>, rest: seq<byte>)
    requires forall p | p in parts :: IsPart(p)
    requires Drain(Decoder(rest, 0)).Fed? && Drain(Decoder(rest, 0)).frames == []
    ensures var f := Drain(Decoder(EncodeAll(parts) + rest, 0));
      f.Fed? && f.frames == Images(parts)
  {
    hide Drain, IsPart;
    if parts == [] {
      assert EncodeAll(parts) + rest == rest;
    } else {
      PartsAreRead(parts[1..], rest);
      PartIsRead(parts[0], EncodeAll(parts[1..]) + rest);
      assert EncodeAll(parts) + rest == Encode(parts[0]) + (EncodeAll(parts[1..]) + rest);
    }
  }

  /** Every beginning of a well-formed stream is some whole pictures and a part of the next. */
  lemma {:induction false} EveryPrefixIsFine(parts: seq<Part>, s: seq<byte>)
    requires (forall p | p in parts :: IsPart(p)) && s <= EncodeAll(parts)
    ensures Drain(Decoder(s, 0)).Fed?
    decreases |parts|
  {
    hide Drain, IsPart, Encode;
    if parts == [] {
      DrainStep(Decoder(s, 0));
    } else if |s| < |Encode(parts[0])| {
      assert s < Encode(parts[0]);
      PartIsKept(parts[0], s);
    } else {
      var rest := s[|Encode(parts[0])|..];
      assert s == Encode(parts[0]) + rest && rest <= EncodeAll(parts[1..]);
      EveryPrefixIsFine(parts[1..], rest);
      PartIsRead(parts[0], rest);
    }
  }

  lemma {:induction false} FeedAllIsFine(parts: seq<Part>, d: Decoder, before: seq<byte>, chunks: seq<seq<byte>>)
    requires (forall p | p in parts :: IsPart(p)) && before + Concat(chunks) <= EncodeAll(parts)
    requires Drain(Decoder(before, 0)).Fed? && d == Drain(Decoder(before, 0)).decoder
    ensures FeedAll(d, chunks).Fed?
    decreases |chunks|
  {
    hide Drain, IsPart, EncodeAll;
    if chunks != [] {
      var now := before + chunks[0];
      assert before + Concat(chunks) == now + Concat(chunks[1..]);
      EveryPrefixIsFine(parts, now);
      DrainMore(Decoder(before, 0), chunks[0]);
      FeedAllIsFine(parts, Drain(Decoder(now, 0)).decoder, now, chunks[1..]);
    }
  }

  /** A well-formed stream is decoded whatever the chunks: as soon as the last byte of a picture has come
      in, exactly the pictures so far have been handed out. */
  lemma StreamIsDecoded(parts: seq<Part>, next: Part, part: seq<byte>, chunks: seq<seq<byte>>)
    requires IsPart(next) && forall p | p in parts :: IsPart(p)
    requires part < Encode(next) && Concat(chunks) == EncodeAll(parts) + part
    ensures var f := FeedAll(START, chunks);
      f.Fed? && f.frames == Images(parts)
  {
    hide Drain, IsPart, Encode;
    PartIsKept(next, part);
    PartsAreRead(parts, part);
    LongerStream(parts, next, part);
    DrainStep(START);
    assert [] + Concat(chunks) == Concat(chunks);
    FeedAllIsFine(parts + [next], START, [], chunks);
    ChunksDoNotMatter(START, chunks);
  }

  lemma LongerStream(parts: seq<Part>, next: Part, part: seq<byte>)
    requires part <= Encode(next)
    ensures EncodeAll(parts) + part <= EncodeAll(parts + [next])
  {
    hide EncodeAll, Encode;
    OneMorePart(parts, next);
  }

  lemma {:induction false} OneMorePart(parts: seq<Part>, next: Part)
    ensures EncodeAll(parts + [next]) == EncodeAll(parts) + Encode(next)
  {
    hide Encode;
    if parts == [] {
      assert parts + [next] == [next];
    } else {
      assert (parts + [next])[1..] == parts[1..] + [next];
      OneMorePart(parts[1..], next);
    }
  }
}
