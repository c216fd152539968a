/** Bytes, fixed-width big-endian integers and hexadecimal text, as the Merkle code
    writes them into hash buffers and proof elements. */
module Hex {
  import opened Wrappers

  type byte = x: int | 0 <= x < 256
  type Bytes = seq<byte>
  type Digest = d: Bytes | |d| == 32 witness seq(32, _ => 0)

  // ---------------------------------------------------------------- hexadecimal

  /** The lower-case digit of a value below sixteen. */
  function Digit(n: int): (c: char)
    requires 0 <= n < 16
    ensures IsLowerDigit(c) && Nibble(c) == Some(n)
  {
    if n < 10 then '0' + n as char else 'a' + (n - 10) as char
  }

  predicate IsLowerDigit(c: char) {
    '0' <= c <= '9' || 'a' <= c <= 'f'
  }

  /** The value of one hexadecimal digit; either case is accepted when decoding. */
  function Nibble(c: char): (r: Option<int>)
    ensures r.Some? ==> 0 <= r.value < 16
  {
    if '0' <= c <= '9' then Some(c as int - '0' as int)
    else if 'a' <= c <= 'f' then Some(c as int - 'a' as int + 10)
    else if 'A' <= c <= 'F' then Some(c as int - 'A' as int + 10)
    else None
  }

  function EncodeToString(b: Bytes): (s: string)
    ensures |s| == 2 * |b|
  {
    if b == [] then "" else [Digit(b[0] / 16), Digit(b[0] % 16)] + EncodeToString(b[1..])
  }

  /** Fails on an odd length and on any character that is not a hexadecimal digit. */
  function DecodeString(s: string): (r: Option<Bytes>)
    ensures r.Some? ==> 2 * |r.value| == |s|
  {
    if s == "" then Some([])
    else if |s| == 1 then None
    else
      match (Nibble(s[0]), Nibble(s[1]), DecodeString(s[2..]))
      case (Some(hi), Some(lo), Some(rest)) => Some([16 * hi + lo] + rest)
      case _ => None
  }

  function DecodeHash32(s: string): Option<Digest> {
    match DecodeString(s)
    case Some(b) => if |b| == 32 then Some(b) else None
    case None => None
  }

  predicate IsLowerHex(s: string) {
    forall i :: 0 <= i < |s| ==> IsLowerDigit(s[i])
  }

  /** A payment hash as the store keeps it: 64 lower-case hexadecimal digits. */
  predicate IsPaymentHash(s: string) {
    |s| == 64 && IsLowerHex(s)
  }

  lemma {:induction false} DecodeEncode(b: Bytes)
    ensures DecodeString(EncodeToString(b)) == Some(b)
  {
    if b != [] {
      var s := EncodeToString(b);
      assert s[0] == Digit(b[0] / 16) && s[1] == Digit(b[0] % 16);
      assert s[2..] == EncodeToString(b[1..]);
      DecodeEncode(b[1..]);
      assert [b[0]] + b[1..] == b;
    }
  }

  const DIGITS := "0123456789abcdef"

  /** Each byte is written as its high digit, then its low one. */
  lemma {:induction false} EncodedDigits(b: Bytes, i: nat)
    requires i < |b|
    ensures EncodeToString(b)[2 * i] == DIGITS[b[i] / 16] && EncodeToString(b)[2 * i + 1] == DIGITS[b[i] % 16]
  {
    DigitIs(b[0] / 16);
    DigitIs(b[0] % 16);
    if i > 0 {
      EncodedDigits(b[1..], i - 1);
    }
  }

  lemma DigitIs(n: int)
    requires 0 <= n < 16
    ensures Digit(n) == DIGITS[n]
  {}

  const CAPITALS := "0123456789ABCDEF"

  predicate StandsFor(c: char, v: int) {
    0 <= v < 16 && (c == DIGITS[v] || c == CAPITALS[v])
  }

  lemma NibbleIs(c: char, v: int)
    ensures Nibble(c) == Some(v) <==> StandsFor(c, v)
  {}

  predicate IsHexDigit(c: char) {
    '0' <= c <= '9' || 'a' <= c <= 'f' || 'A' <= c <= 'F'
  }

  predicate AllDigits(s: string) { forall i :: 0 <= i < |s| ==> IsHexDigit(s[i]) }

  lemma DigitsFromTwo(s: string)
    requires |s| >= 2
    ensures AllDigits(s) <==> IsHexDigit(s[0]) && IsHexDigit(s[1]) && AllDigits(s[2..])
  {
    var rest := s[2..];
    if IsHexDigit(s[0]) && IsHexDigit(s[1]) && AllDigits(rest) {
      forall i | 0 <= i < |s| ensures IsHexDigit(s[i]) {
        if i >= 2 {
          assert s[i] == rest[i - 2];
        }
      }
    }
  }

  /** Text decodes exactly when it is of even length and all digits, of either case. */
  lemma {:induction false} DecodesIff(s: string)
    ensures DecodeString(s).Some? <==> |s| % 2 == 0 && AllDigits(s)
  {
    if |s| >= 2 {
      DecodesIff(s[2..]);
      DigitsFromTwo(s);
    }
  }

  /** Each byte is read from its high digit and its low one. */
  lemma {:induction false} DecodedDigits(s: string, i: nat, hi: int, lo: int)
    requires DecodeString(s).Some? && 2 * i + 1 < |s| && StandsFor(s[2 * i], hi) && StandsFor(s[2 * i + 1], lo)
    ensures DecodeString(s).value[i] == 16 * hi + lo
  {
    if i == 0 {
      NibbleIs(s[0], hi);
      NibbleIs(s[1], lo);
    } else {
      DecodedDigits(s[2..], i - 1, hi, lo);
    }
  }

  lemma {:induction false} EncodedIsLowerHex(b: Bytes)
    ensures IsLowerHex(EncodeToString(b))
  {
    if b != [] {
      EncodedIsLowerHex(b[1..]);
    }
  }

  /** On lower-case text decoding loses nothing: encoding gives the text back. */
  lemma {:induction false} EncodeDecode(s: string)
    requires IsLowerHex(s) && |s| % 2 == 0
    ensures DecodeString(s).Some? && EncodeToString(DecodeString(s).value) == s
  {
    if s != "" {
      EncodeDecode(s[2..]);
      var hi, lo, rest := Nibble(s[0]).value, Nibble(s[1]).value, DecodeString(s[2..]).value;
      var d := [16 * hi + lo] + rest;
      assert DecodeString(s) == Some(d);
      assert d[1..] == rest && d[0] / 16 == hi && d[0] % 16 == lo;
      assert Digit(hi) == s[0] && Digit(lo) == s[1];
      assert s == [s[0], s[1]] + s[2..];
    }
  }

  /** Every stored payment hash decodes to 32 bytes, and two different ones differ. */
  lemma PaymentHashDecodes(s: string)
    requires IsPaymentHash(s)
    ensures DecodeHash32(s).Some? && EncodeToString(DecodeHash32(s).value) == s
  {
    EncodeDecode(s);
  }

  // ---------------------------------------------------------------- big-endian integers

  predicate IsUint64(n: nat) { n < 0x1_0000_0000_0000_0000 }

  function Capacity(width: nat): (c: nat)
    ensures c > 0
  {
    if width == 0 then 1 else 256 * Capacity(width - 1)
  }

  lemma EightBytesHoldUint64()
    ensures Capacity(8) == 0x1_0000_0000_0000_0000
  {
    assert Capacity(4) == 0x1_0000_0000;
  }

  /** Overwrites a buffer with the low bytes of `n`, most significant first. */
  function PutBigEndian(buf: Bytes, n: nat): (b: Bytes)
    ensures |b| == |buf|
  {
    if buf == [] then [] else PutBigEndian(buf[..|buf| - 1], n / 256) + [n % 256]
  }

  /** Dividing twice is dividing by the product. */
  lemma DivideTwice(n: nat, c: nat)
    requires c > 0
    ensures n / 256 / c == n / (256 * c)
  {
    var q, t := n / 256 / c, n / (256 * c);
    assert n / 256 == q * c + n / 256 % c;
    assert n == 256 * (q * c) + 256 * (n / 256 % c) + n % 256;
    assert 256 * (q * c) == q * (256 * c);
    assert 0 <= 256 * (n / 256 % c) + n % 256 < 256 * c;
    QuotientIs(n, 256 * c, q, 256 * (n / 256 % c) + n % 256);
  }

  lemma {:induction false} MultiplesApart(t: nat, q: nat, d: nat)
    requires t < q
    ensures t * d + d <= q * d
    decreases q
  {
    assert q * d == (q - 1) * d + d;
    if t < q - 1 {
      MultiplesApart(t, q - 1, d);
    }
  }

  lemma QuotientIs(n: nat, d: nat, q: nat, r: nat)
    requires 0 <= r < d && n == q * d + r
    ensures n / d == q
  {
    var t := n / d;
    assert n == t * d + n % d;
    if t < q {
      MultiplesApart(t, q, d);
    } else if t > q {
      MultiplesApart(q, t, d);
    }
  }

  /** The byte at each place of a big-endian number. */
  lemma {:induction false} BigEndianByte(buf: Bytes, n: nat, i: nat)
    requires i < |buf|
    ensures PutBigEndian(buf, n)[i] == n / Capacity(|buf| - 1 - i) % 256
  {
    if i < |buf| - 1 {
      BigEndianByte(buf[..|buf| - 1], n / 256, i);
      DivideTwice(n, Capacity(|buf| - 2 - i));
    }
  }

  lemma {:induction false} PutBigEndianInjective(buf: Bytes, m: nat, n: nat)
    requires m < Capacity(|buf|) && n < Capacity(|buf|)
    requires PutBigEndian(buf, m) == PutBigEndian(buf, n)
    ensures m == n
  {
    if buf != [] {
      var front, w := buf[..|buf| - 1], |buf| - 1;
      var a, b := PutBigEndian(buf, m), PutBigEndian(buf, n);
      assert a[w] == m % 256 && b[w] == n % 256;
      assert a[..w] == PutBigEndian(front, m / 256) && b[..w] == PutBigEndian(front, n / 256);
      PutBigEndianInjective(front, m / 256, n / 256);
    }
  }
}
