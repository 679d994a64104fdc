/** A public key in the struct that adb keeps: word count, n0inv, modulus, rr and exponent, all little
    endian. The two numbers beside modulus and exponent are what Montgomery multiplication needs. */
module AdbKeys {
  import opened Wrappers
  import opened Arithmetic

  type byte = x: int | 0 <= x < 256

  const R32 := 0x1_0000_0000

  function Pow(b: nat, e: nat): nat {
    if e == 0 then 1 else b * Pow(b, e - 1)
  }

  lemma {:induction false} PowIsPositive(b: nat, e: nat)
    requires b > 0
    ensures Pow(b, e) > 0
  {
    if e > 0 {
      PowIsPositive(b, e - 1);
      MulAtLeast(b, Pow(b, e - 1));
    }
  }

  lemma {:induction false} PowSum(b: nat, d: nat, e: nat)
    ensures Pow(b, d + e) == Pow(b, d) * Pow(b, e)
  {
    if d > 0 {
      PowSum(b, d - 1, e);
      assert b * (Pow(b, d - 1) * Pow(b, e)) == (b * Pow(b, d - 1)) * Pow(b, e);
    }
  }

  lemma {:induction false} PowOfPow(b: nat, d: nat, e: nat)
    ensures Pow(Pow(b, d), e) == Pow(b, d * e)
  {
    if e > 0 {
      PowOfPow(b, d, e - 1);
      PowSum(b, d, d * (e - 1));
      assert d + d * (e - 1) == d * e;
    } else {
      assert d * e == 0;
    }
  }

  lemma {:induction false} PowGrows(b: nat, d: nat, e: nat)
    requires b > 0 && d <= e
    ensures Pow(b, d) <= Pow(b, e)
  {
    PowSum(b, e - d, d);
    PowIsPositive(b, e - d);
    PowIsPositive(b, d);
    MulAtLeast(Pow(b, e - d), Pow(b, d));
  }

  // ---------------------------------------------------------------- Newton's iteration

  /** The remainder that takes the sign of the dividend. */
  function Rem(x: int, n: int): int
    requires n > 0
  {
    if x >= 0 then x % n else -((-x) % n)
  }

  /** Adding the modulus to such a remainder and reducing again gives the residue. */
  lemma RemIsResidue(x: int, n: int)
    requires n > 0
    ensures Rem(Rem(x, n) + n, n) == x % n
  {
    if x < 0 {
      DivMod(-x, n);
      var q, r := (-x) / n, (-x) % n;
      assert x == (-q) * n - r by {
        assert (-q) * n == -(q * n);
      }
      if r == 0 {
        DivModIs(x, -q, 0, n);
        DivModIs(n, 1, 0, n);
      } else {
        assert (-q - 1) * n == (-q) * n - n;
        DivModIs(x, -q - 1, n - r, n);
        DivModIs(n - r, 0, n - r, n);
      }
    } else {
      ModPlusMultiple(x % n, 1, n);
      DivMod(x, n);
      DivModIs(x % n, 0, x % n, n);
    }
  }

  /** `x` is `1` up to a multiple of `m`. */
  ghost predicate OneModulo(x: int, m: int) {
    exists t: int :: 1 - x == t * m
  }

  /** One step squares the error: what was right modulo m is right modulo m squared. */
  lemma NewtonSquaresTheError(n: int, inv: int, m: int)
    requires OneModulo(n * inv, m)
    ensures OneModulo(n * (inv * (2 - n * inv)), m * m)
  {
    var t :| 1 - n * inv == t * m;
    var x := n * inv;
    assert n * (inv * (2 - x)) == x * (2 - x);
    assert 1 - x * (2 - x) == (1 - x) * (1 - x);
    assert (t * m) * (t * m) == (t * t) * (m * m);
    assert 1 - n * (inv * (2 - n * inv)) == (t * t) * (m * m);
  }

  /** Reducing the approximation loses nothing, as long as the modulus divides. */
  lemma ReducedIsAsGood(n: int, inv: int, m: int, r: int, s: int)
    requires OneModulo(n * inv, m) && r > 0 && r == s * m
    ensures OneModulo(n * (inv % r), m)
  {
    var t :| 1 - n * inv == t * m;
    DivMod(inv, r);
    var q := inv / r;
    assert n * inv == n * (q * r) + n * (inv % r);
    assert n * (q * r) == (n * q * s) * m;
    assert 1 - n * (inv % r) == t * m + (n * q * s) * m == (t + n * q * s) * m;
  }

  /** The numbers of correct bits double: 1, 2, 4, 8, 16, 32. */
  function Good(i: nat): int
    requires i <= 5
  {
    if i == 0 then 2 else Good(i - 1) * Good(i - 1)
  }

  lemma GoodDivides(i: nat)
    requires i <= 5
    ensures Good(5) == R32 && Good(i) > 0 && R32 == (R32 / Good(i)) * Good(i)
  {
    assert Good(1) == 4 && Good(2) == 16 && Good(3) == 256 && Good(4) == 65536 && Good(5) == R32;
  }

  /** The inverse of an odd number modulo 2^32, in five steps. */
  method Invert(n0: nat) returns (inv: nat)
    ensures inv < R32
    ensures n0 % 2 == 1 ==> OneModulo(n0 * inv, R32)
  {
    inv := 1;
    if n0 % 2 == 1 {
      assert 1 - n0 * 1 == (-(n0 / 2)) * 2;
    }
    for i := 0 to 5
      invariant inv < R32
      invariant n0 % 2 == 1 ==> OneModulo(n0 * inv, Good(i))
    {
      GoodDivides(i + 1);
      RemIsResidue(inv * (2 - n0 * inv), R32);
      if n0 % 2 == 1 {
        NewtonSquaresTheError(n0, inv, Good(i));
        ReducedIsAsGood(n0, inv * (2 - n0 * inv), Good(i + 1), R32, R32 / Good(i + 1));
      }
      inv := Rem(Rem(inv * (2 - n0 * inv), R32) + R32, R32);
    }
    GoodDivides(5);
  }

  /** n0inv is -1/n modulo 2^32: for odd moduli, and for no other. */
  method ComputeN0Inv(n: nat) returns (n0inv: nat)
    ensures n0inv < R32
    ensures (n * n0inv + 1) % R32 == 0 <==> n % 2 == 1
  {
    var n0 := n % R32;
    var inv := Invert(n0);
    n0inv := (R32 - inv) % R32;
    SameParity(n);
    if n % 2 == 1 {
      NegatedInverse(n, n0, inv, n0inv);
    } else {
      EvenHasNone(n, n0inv);
    }
  }

  lemma SameParity(n: nat)
    ensures n % R32 % 2 == n % 2
  {
    DivMod(n, R32);
    DivMod(n % R32, 2);
    var q, r := n / R32, n % R32;
    assert n == (q * (R32 / 2) + r / 2) * 2 + r % 2;
    DivModIs(n, q * (R32 / 2) + r / 2, r % 2, 2);
  }

  lemma OneIsNotZero(x: int)
    requires OneModulo(x, R32)
    ensures x != 0
  {
    var t :| 1 - x == t * R32;
    DivModIs(1 - x, t, 0, R32);
    DivModIs(1, 0, 1, R32);
  }

  lemma NegatedInverse(n: nat, n0: nat, inv: nat, n0inv: nat)
    requires n0 == n % R32 && inv < R32 && n0inv == (R32 - inv) % R32 && OneModulo(n0 * inv, R32)
    ensures (n * n0inv + 1) % R32 == 0
  {
    OneIsNotZero(n0 * inv);
    DivModIs(R32 - inv, 0, R32 - inv, R32);
    var t :| 1 - n0 * inv == t * R32;
    DivMod(n, R32);
    NegatedProduct(n, n / R32, n0, inv, t);
    DivModIs(n * n0inv + 1, n - n / R32 * inv + t, 0, R32);
  }

  lemma NegatedProduct(n: int, q: int, n0: int, inv: int, t: int)
    requires n == q * R32 + n0 && 1 - n0 * inv == t * R32
    ensures n * (R32 - inv) + 1 == (n - q * inv + t) * R32
  {
    assert n * inv == (q * inv) * R32 + n0 * inv;
  }

  lemma EvenHasNone(n: nat, x: nat)
    requires n % 2 == 0
    ensures (n * x + 1) % R32 != 0
  {
    DivMod(n, 2);
    assert n * x == (n / 2 * x) * 2 by {
      assert (n / 2) * 2 * x == (n / 2 * x) * 2;
    }
    DivModIs(n * x + 1, n / 2 * x, 1, 2);
    SameParity(n * x + 1);
  }

  // ---------------------------------------------------------------- little endian

  function ReadLittleEndian(s: seq<byte>): nat {
    if s == [] then 0 else s[0] + 256 * ReadLittleEndian(s[1..])
  }

  /** What is left of a value after its first bytes. */
  function Rest(value: nat, n: nat): nat {
    if n == 0 then value else Rest(value / 256, n - 1)
  }

  lemma {:induction false} RestNext(value: nat, n: nat)
    ensures Rest(value, n + 1) == Rest(value, n) / 256
  {
    if n > 0 {
      RestNext(value / 256, n - 1);
    }
  }

  function LittleEndian(value: nat, length: nat): (s: seq<byte>)
    ensures |s| == length
  {
    if length == 0 then [] else [value % 256] + LittleEndian(value / 256, length - 1)
  }

  lemma {:induction false} LittleEndianNext(value: nat, n: nat)
    ensures LittleEndian(value, n + 1) == LittleEndian(value, n) + [Rest(value, n) % 256]
  {
    if n > 0 {
      LittleEndianNext(value / 256, n - 1);
    }
  }

  /** Whatever fits is read back as it was written. */
  lemma {:induction false} LittleEndianRoundTrip(value: nat, length: nat)
    requires value < Pow(256, length)
    ensures ReadLittleEndian(LittleEndian(value, length)) == value
  {
    if length > 0 {
      DivMod(value, 256);
      LittleEndianRoundTrip(value / 256, length - 1);
      assert LittleEndian(value, length)[1..] == LittleEndian(value / 256, length - 1);
    }
  }

  /** The bytes of the buffer from `offset` on become those of the value; the others stay. */
  method WriteLittleEndian(buffer: array<byte>, offset: nat, value: nat, length: nat)
    requires offset + length <= buffer.Length
    modifies buffer
    ensures buffer[offset..offset + length] == LittleEndian(value, length)
    ensures forall k | 0 <= k < buffer.Length && !(offset <= k < offset + length) :: buffer[k] == old(buffer[k])
  {
    var rest := value;
    for i := 0 to length
      invariant rest == Rest(value, i)
      invariant forall k | 0 <= k < buffer.Length && !(offset <= k < offset + i) :: buffer[k] == old(buffer[k])
      invariant buffer[offset..offset + i] == LittleEndian(value, i)
    {
      LittleEndianNext(value, i);
      RestNext(value, i);
      buffer[offset + i] := rest % 256;
      assert buffer[offset..offset + i + 1] == buffer[offset..offset + i] + [buffer[offset + i]];
      rest := rest / 256;
    }
  }

  // ---------------------------------------------------------------- the struct

  function BitLength(n: nat): nat {
    if n == 0 then 0 else 1 + BitLength(n / 2)
  }

  lemma {:induction false} BitLengthBounds(n: nat)
    ensures n < Pow(2, BitLength(n))
    ensures n > 0 ==> Pow(2, BitLength(n) - 1) <= n
  {
    if n > 0 {
      BitLengthBounds(n / 2);
      DivMod(n, 2);
    }
  }

  /** The number of 32-bit words of a modulus: as few as hold it. */
  function Words(n: nat): nat {
    (BitLength(n) + 31) / 32
  }

  lemma WordsHold(n: nat)
    ensures n < Pow(256, 4 * Words(n))
  {
    BitLengthBounds(n);
    assert BitLength(n) <= 32 * Words(n) == 8 * (4 * Words(n));
    PowGrows(2, BitLength(n), 8 * (4 * Words(n)));
    PowOfPow(2, 8, 4 * Words(n));
    assert Pow(2, 8) == 256;
  }

  /** ... and no fewer would. */
  lemma FewerWordsDoNot(n: nat, words: nat)
    requires n > 0 && words < Words(n)
    ensures Pow(256, 4 * words) <= n
  {
    BitLengthBounds(n);
    PowGrows(2, 8 * (4 * words), BitLength(n) - 1);
    PowOfPow(2, 8, 4 * words);
    assert Pow(2, 8) == 256;
  }

  datatype Key = Key(words: nat, n0inv: nat, n: nat, rr: nat, e: nat)

  /** The struct as adb's parser reads it. */
  function Parse(s: seq<byte>): Option<Key> {
    if |s| < 8 then None
    else
      var words := ReadLittleEndian(s[..4]);
      var len := 4 * words;
      if |s| != 12 + 2 * len then None
      else Some(Key(words, ReadLittleEndian(s[4..8]), ReadLittleEndian(s[8..8 + len]),
                    ReadLittleEndian(s[8 + len..8 + 2 * len]), ReadLittleEndian(s[8 + 2 * len..])))
  }

  /** 2^(32 words) squared, modulo n: what turns a number into its Montgomery form. */
  function MontgomerySquare(n: nat): nat
    requires n > 0
  {
    Pow(2, 64 * Words(n)) % n
  }

  lemma MontgomerySquareIsSquare(n: nat)
    requires n > 0
    ensures MontgomerySquare(n) == (Pow(2, 32 * Words(n)) * Pow(2, 32 * Words(n))) % n
  {
    PowSum(2, 32 * Words(n), 32 * Words(n));
  }

  /** The struct of a key; none if the modulus is 0 or a number exceeds its field. */
  method EncodePublicKey(n: nat, e: nat) returns (struct: Option<seq<byte>>)
    ensures struct.Some? <==> n > 0 && e < R32 && Words(n) < R32
    ensures struct.Some? ==> Parse(struct.value).Some?
    ensures struct.Some? ==>
      var key := Parse(struct.value).value;
      && key.words == Words(n) && key.n == n && key.e == e
      && key.rr == MontgomerySquare(n)
      && key.n0inv < R32 && ((n * key.n0inv + 1) % R32 == 0 <==> n % 2 == 1)
  {
    hide LittleEndian, ReadLittleEndian, Parse, Pow, Words;
    var words := Words(n);
    var len := 4 * words;
    var n0inv := ComputeN0Inv(n);
    if n == 0 || words >= R32 || e >= R32 {
      return None;
    }
    var rr := Pow(2, 64 * words) % n;
    var buffer := new byte[12 + 2 * len](_ => 0);
    WriteLittleEndian(buffer, 0, words, 4);
    WriteLittleEndian(buffer, 4, n0inv, 4);
    WriteLittleEndian(buffer, 8, n, len);
    WriteLittleEndian(buffer, 8 + len, rr, len);
    WriteLittleEndian(buffer, 8 + 2 * len, e, 4);
    assert buffer[..][..4] == LittleEndian(words, 4) && buffer[..][4..8] == LittleEndian(n0inv, 4);
    assert buffer[..][8..8 + len] == LittleEndian(n, len) && buffer[..][8 + len..8 + 2 * len] == LittleEndian(rr, len);
    assert buffer[..][8 + 2 * len..] == LittleEndian(e, 4);
    WordsHold(n);
    StructRoundTrip(buffer[..], Key(words, n0inv, n, rr, e));
    return Some(buffer[..]);
  }

  lemma StructRoundTrip(s: seq<byte>, k: Key)
    requires k.words < R32 && k.n0inv < R32 && k.e < R32
    requires k.n < Pow(256, 4 * k.words) && k.rr < Pow(256, 4 * k.words)
    requires |s| == 12 + 8 * k.words && s[..4] == LittleEndian(k.words, 4) && s[4..8] == LittleEndian(k.n0inv, 4)
    requires s[8..8 + 4 * k.words] == LittleEndian(k.n, 4 * k.words)
    requires s[8 + 4 * k.words..8 + 8 * k.words] == LittleEndian(k.rr, 4 * k.words)
    requires s[8 + 8 * k.words..] == LittleEndian(k.e, 4)
    ensures Parse(s) == Some(k)
  {
    hide LittleEndian, ReadLittleEndian, Pow;
    FourBytes();
    LittleEndianRoundTrip(k.words, 4);
    LittleEndianRoundTrip(k.n0inv, 4);
    LittleEndianRoundTrip(k.n, 4 * k.words);
    LittleEndianRoundTrip(k.rr, 4 * k.words);
    LittleEndianRoundTrip(k.e, 4);
  }

  lemma FourBytes()
    ensures Pow(256, 4) == R32
  {
  }
}
