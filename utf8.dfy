/**
 * UTF-8 as the Rust standard library applies it at the three places the MLS
 * client crosses between text and bytes: `str::as_bytes` (encoding),
 * `String::from_utf8` (strict decoding, with its `Utf8Error`) and
 * `String::from_utf8_lossy` (each maximal ill-formed subpart becomes one
 * U+FFFD). Dafny's `char` is a Unicode scalar value, as Rust's is.
 */
module Utf8 {
  import opened Wrappers

  type Byte = b: int | 0 <= b < 0x100
  type Bytes = seq<Byte>

  const Replacement: char := '�'

  predicate IsContinuation(b: Byte) {
    0x80 <= b < 0xC0
  }

  /** Number of bytes in the encoding of `c`. */
  function Width(c: char): (w: nat)
    ensures 1 <= w <= 4
  {
    var cp := c as int;
    if cp < 0x80 then 1 else if cp < 0x800 then 2 else if cp < 0x10000 then 3 else 4
  }

  function EncodeChar(c: char): (b: Bytes)
    ensures |b| == Width(c)
  {
    var cp := c as int;
    if cp < 0x80 then [cp]
    else if cp < 0x800 then [0xC0 + cp / 64, 0x80 + cp % 64]
    else if cp < 0x10000 then [0xE0 + cp / 64 / 64, 0x80 + cp / 64 % 64, 0x80 + cp % 64]
    else [0xF0 + cp / 64 / 64 / 64, 0x80 + cp / 64 / 64 % 64, 0x80 + cp / 64 % 64, 0x80 + cp % 64]
  }

  /** `str::as_bytes`: the UTF-8 encoding of a string. */
  function Encode(s: string): Bytes {
    if s == [] then [] else EncodeChar(s[0]) + Encode(s[1..])
  }

  /**
   * What the head of a non-empty byte sequence holds: one well-formed scalar
   * value of the given width, or an ill-formed sequence whose maximal valid
   * prefix has `length` bytes; `truncated` when the input ended before a byte
   * that rules the sequence out was seen.
   */
  datatype Scan = Scalar(c: char, width: nat) | IllFormed(length: nat, truncated: bool)

  /** Second byte accepted after lead byte `b0` of a three-byte sequence. */
  predicate SecondOfThree(b0: Byte, b1: Byte) {
    if b0 == 0xE0 then 0xA0 <= b1 < 0xC0
    else if b0 == 0xED then 0x80 <= b1 < 0xA0
    else IsContinuation(b1)
  }

  /** Second byte accepted after lead byte `b0` of a four-byte sequence. */
  predicate SecondOfFour(b0: Byte, b1: Byte) {
    if b0 == 0xF0 then 0x90 <= b1 < 0xC0
    else if b0 == 0xF4 then 0x80 <= b1 < 0x90
    else IsContinuation(b1)
  }

  function ScanHead(b: Bytes): (r: Scan)
    requires |b| > 0
    ensures r.Scalar? ==> 1 <= r.width <= |b| && r.width <= 4
    ensures r.IllFormed? ==> 1 <= r.length <= |b| && r.length <= 3
  {
    var b0 := b[0];
    if b0 < 0x80 then Scalar(b0 as char, 1)
    else if 0xC2 <= b0 < 0xE0 then
      if |b| < 2 then IllFormed(1, true)
      else if !IsContinuation(b[1]) then IllFormed(1, false)
      else Scalar(((b0 as int - 0xC0) * 64 + (b[1] as int - 0x80)) as char, 2)
    else if 0xE0 <= b0 < 0xF0 then
      if |b| < 2 then IllFormed(1, true)
      else if !SecondOfThree(b0, b[1]) then IllFormed(1, false)
      else if |b| < 3 then IllFormed(2, true)
      else if !IsContinuation(b[2]) then IllFormed(2, false)
      else Scalar(((b0 as int - 0xE0) * 4096 + (b[1] as int - 0x80) * 64 + (b[2] as int - 0x80)) as char, 3)
    else if 0xF0 <= b0 < 0xF5 then
      if |b| < 2 then IllFormed(1, true)
      else if !SecondOfFour(b0, b[1]) then IllFormed(1, false)
      else if |b| < 3 then IllFormed(2, true)
      else if !IsContinuation(b[2]) then IllFormed(2, false)
      else if |b| < 4 then IllFormed(3, true)
      else if !IsContinuation(b[3]) then IllFormed(3, false)
      else Scalar(((b0 as int - 0xF0) * 262144 + (b[1] as int - 0x80) * 4096 + (b[2] as int - 0x80) * 64 + (b[3] as int - 0x80)) as char, 4)
    else IllFormed(1, false)
  }

  /** Rust's `Utf8Error`: bytes verified before the fault, and the fault's length (None: input ended). */
  datatype Utf8Error = Utf8Error(validUpTo: nat, errorLen: Option<nat>)

  /** `String::from_utf8` / `str::from_utf8`. */
  function Decode(b: Bytes): Result<string, Utf8Error> {
    if b == [] then Success([])
    else
      match ScanHead(b)
      case Scalar(c, w) =>
        (match Decode(b[w..])
         case Success(s) => Success([c] + s)
         case Failure(e) => Failure(e.(validUpTo := e.validUpTo + w)))
      case IllFormed(n, truncated) =>
        Failure(Utf8Error(0, if truncated then None else Some(n)))
  }

  /** `String::from_utf8_lossy`. */
  function DecodeLossy(b: Bytes): string {
    if b == [] then []
    else
      match ScanHead(b)
      case Scalar(c, w) => [c] + DecodeLossy(b[w..])
      case IllFormed(n, _) => [Replacement] + DecodeLossy(b[n..])
  }

  function DigitChar(d: nat): char
    requires d < 10
  {
    "0123456789"[d]
  }

  /** Decimal rendering of a natural number, as `{}` formats an integer. */
  function NatText(n: nat): string {
    if n < 10 then [DigitChar(n)] else NatText(n / 10) + [DigitChar(n % 10)]
  }

  /** The `Display` text of a `Utf8Error`. */
  function ErrorText(e: Utf8Error): string {
    match e.errorLen
    case Some(len) =>
      "invalid utf-8 sequence of " + NatText(len) + " bytes from index " + NatText(e.validUpTo)
    case None =>
      "incomplete utf-8 byte sequence from index " + NatText(e.validUpTo)
  }

  // ---------------------------------------------------------------------------
  // Properties

  /** The head of an encoded character scans back as that character. */
  lemma ScanEncodeChar(c: char, rest: Bytes)
    ensures ScanHead(EncodeChar(c) + rest) == Scalar(c, Width(c))
  {
    var cp := c as int;
    var b := EncodeChar(c) + rest;
    if cp < 0x80 {
    } else if cp < 0x800 {
      assert b[0] == 0xC0 + cp / 64 && b[1] == 0x80 + cp % 64;
      assert (b[0] as int - 0xC0) * 64 + (b[1] as int - 0x80) == cp;
    } else if cp < 0x10000 {
      var q := cp / 64;
      assert b[0] == 0xE0 + q / 64 && b[1] == 0x80 + q % 64 && b[2] == 0x80 + cp % 64;
      assert q == (q / 64) * 64 + q % 64;
      assert (b[0] as int - 0xE0) * 4096 + (b[1] as int - 0x80) * 64 + (b[2] as int - 0x80) == cp;
      assert SecondOfThree(b[0], b[1]);
    } else {
      var q := cp / 64;
      var q2 := q / 64;
      assert b[0] == 0xF0 + q2 / 64 && b[1] == 0x80 + q2 % 64 && b[2] == 0x80 + q % 64 && b[3] == 0x80 + cp % 64;
      assert q == q2 * 64 + q % 64;
      assert q2 == (q2 / 64) * 64 + q2 % 64;
      assert (b[0] as int - 0xF0) * 262144 + (b[1] as int - 0x80) * 4096 + (b[2] as int - 0x80) * 64 + (b[3] as int - 0x80) == cp;
      assert SecondOfFour(b[0], b[1]);
    }
  }

  /** A scanned scalar is exactly the encoding of the character it yields. */
  lemma ScanIsEncoding(b: Bytes)
    requires |b| > 0 && ScanHead(b).Scalar?
    ensures Width(ScanHead(b).c) == ScanHead(b).width
    ensures b[..ScanHead(b).width] == EncodeChar(ScanHead(b).c)
  {
    if b[0] >= 0x80 {
      if b[0] < 0xE0 {
        ScanIsEncodingTwo(b);
      } else if b[0] < 0xF0 {
        ScanIsEncodingThree(b);
      } else {
        ScanIsEncodingFour(b);
      }
    }
  }

  lemma ScanIsEncodingTwo(b: Bytes)
    requires |b| > 0 && ScanHead(b).Scalar? && 0x80 <= b[0] < 0xE0
    ensures Width(ScanHead(b).c) == ScanHead(b).width
    ensures b[..ScanHead(b).width] == EncodeChar(ScanHead(b).c)
  {
    var cp := ScanHead(b).c as int;
    assert cp == (b[0] as int - 0xC0) * 64 + (b[1] as int - 0x80);
    assert cp / 64 == b[0] - 0xC0 && cp % 64 == b[1] - 0x80;
  }

  lemma ScanIsEncodingThree(b: Bytes)
    requires |b| > 0 && ScanHead(b).Scalar? && 0xE0 <= b[0] < 0xF0
    ensures Width(ScanHead(b).c) == ScanHead(b).width
    ensures b[..ScanHead(b).width] == EncodeChar(ScanHead(b).c)
  {
    var cp := ScanHead(b).c as int;
    var q := (b[0] as int - 0xE0) * 64 + (b[1] as int - 0x80);
    assert cp == q * 64 + (b[2] as int - 0x80);
    assert cp / 64 == q && cp % 64 == b[2] - 0x80;
    assert q / 64 == b[0] - 0xE0 && q % 64 == b[1] - 0x80;
  }

  lemma ScanIsEncodingFour(b: Bytes)
    requires |b| > 0 && ScanHead(b).Scalar? && 0xF0 <= b[0]
    ensures Width(ScanHead(b).c) == ScanHead(b).width
    ensures b[..ScanHead(b).width] == EncodeChar(ScanHead(b).c)
  {
    var cp := ScanHead(b).c as int;
    var q2 := (b[0] as int - 0xF0) * 64 + (b[1] as int - 0x80);
    var q := q2 * 64 + (b[2] as int - 0x80);
    assert cp == q * 64 + (b[3] as int - 0x80);
    assert cp / 64 == q && cp % 64 == b[3] - 0x80;
    assert q / 64 == q2 && q % 64 == b[2] - 0x80;
    assert q2 / 64 == b[0] - 0xF0 && q2 % 64 == b[1] - 0x80;
  }

  /** Strict decoding inverts encoding. */
  lemma {:induction false} DecodeEncode(s: string)
    ensures Decode(Encode(s)) == Success(s)
  {
    if s != [] {
      var b := Encode(s);
      ScanEncodeChar(s[0], Encode(s[1..]));
      assert b[Width(s[0])..] == Encode(s[1..]);
      DecodeEncode(s[1..]);
      assert [s[0]] + s[1..] == s;
    }
  }

  /** Lossy decoding of an encoded string gives the string back. */
  lemma {:induction false} DecodeLossyEncode(s: string)
    ensures DecodeLossy(Encode(s)) == s
  {
    if s != [] {
      var b := Encode(s);
      ScanEncodeChar(s[0], Encode(s[1..]));
      assert b[Width(s[0])..] == Encode(s[1..]);
      DecodeLossyEncode(s[1..]);
      assert [s[0]] + s[1..] == s;
    }
  }

  /** On well-formed input the lossy decoder agrees with the strict one. */
  lemma {:induction false} DecodeLossyAgrees(b: Bytes)
    requires Decode(b).Success?
    ensures DecodeLossy(b) == Decode(b).value
  {
    if b != [] {
      var w := ScanHead(b).width;
      DecodeLossyAgrees(b[w..]);
    }
  }

  /** One step of a successful strict decoding: a scalar, then the decoding of the rest. */
  lemma DecodeStep(b: Bytes)
    requires b != [] && Decode(b).Success?
    ensures ScanHead(b).Scalar?
    ensures Decode(b[ScanHead(b).width..]).Success?
    ensures Decode(b).value == [ScanHead(b).c] + Decode(b[ScanHead(b).width..]).value
  {
  }

  /** Encoding a string that starts with `c`, whose parts encode to the two halves of `b`. */
  lemma EncodeCons(c: char, s: string, b: Bytes, w: nat)
    requires w <= |b| && b[..w] == EncodeChar(c) && b[w..] == Encode(s)
    ensures Encode([c] + s) == b
  {
    assert ([c] + s)[1..] == s;
    assert b == b[..w] + b[w..];
  }

  /** Every string that strict decoding accepts re-encodes to the same bytes. */
  lemma {:induction false} EncodeDecode(b: Bytes)
    requires Decode(b).Success?
    ensures Encode(Decode(b).value) == b
  {
    if b != [] {
      DecodeStep(b);
      var c := ScanHead(b).c;
      var w := ScanHead(b).width;
      EncodeDecode(b[w..]);
      ScanIsEncoding(b);
      EncodeCons(c, Decode(b[w..]).value, b, w);
    }
  }

  /** The scan of a head depends only on the bytes the scan consumed. */
  lemma ScanPrefix(b: Bytes, k: nat)
    requires |b| > 0 && ScanHead(b).Scalar? && ScanHead(b).width <= k <= |b|
    ensures ScanHead(b[..k]) == ScanHead(b)
  {
  }

  /**
   * A strict decoding error points at the first fault: the bytes before
   * `validUpTo` decode, and the fault lies inside the input.
   */
  lemma {:induction false} ErrorIsFirstFault(b: Bytes)
    requires Decode(b).Failure?
    ensures Decode(b).error.validUpTo < |b|
    ensures Decode(b).error.errorLen.Some? ==> Decode(b).error.validUpTo + Decode(b).error.errorLen.value <= |b|
    ensures Decode(b[..Decode(b).error.validUpTo]).Success?
  {
    var e := Decode(b).error;
    match ScanHead(b)
    case IllFormed(n, _) =>
      assert b[..0] == [];
    case Scalar(c, w) =>
      var rest := b[w..];
      ErrorIsFirstFault(rest);
      var k := e.validUpTo;
      assert k == w + Decode(rest).error.validUpTo;
      var p := b[..k];
      ScanPrefix(b, k);
      assert p[w..] == rest[..k - w];
  }
}
