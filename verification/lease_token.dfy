/** Unpadded base64url, section 5 of RFC 4648, as the lease tokens travel in it. */
module Base64Url {
  import opened Octets
  import opened Wrappers

  function Digit(v: int): char
    requires 0 <= v < 64
  {
    if v < 26 then ('A' as int + v) as char
    else if v < 52 then ('a' as int + v - 26) as char
    else if v < 62 then ('0' as int + v - 52) as char
    else if v == 62 then '-'
    else '_'
  }

  /** The value of an alphabet character, or -1. */
  function Value(c: char): (v: int)
    ensures -1 <= v < 64
  {
    if 'A' <= c <= 'Z' then c as int - 'A' as int
    else if 'a' <= c <= 'z' then c as int - 'a' as int + 26
    else if '0' <= c <= '9' then c as int - '0' as int + 52
    else if c == '-' then 62
    else if c == '_' then 63
    else -1
  }

  lemma DigitHasValue(v: int)
    requires 0 <= v < 64
    ensures Value(Digit(v)) == v && Digit(v) != '\n' && Digit(v) != '\r'
  {
  }

  function Encode(s: seq<Byte>): string {
    if s == [] then []
    else if |s| == 1 then [Digit(s[0] / 4), Digit(s[0] % 4 * 16)]
    else if |s| == 2 then [Digit(s[0] / 4), Digit(s[0] % 4 * 16 + s[1] / 16), Digit(s[1] % 16 * 4)]
    else
      [Digit(s[0] / 4), Digit(s[0] % 4 * 16 + s[1] / 16), Digit(s[1] % 16 * 4 + s[2] / 64), Digit(s[2] % 64)]
      + Encode(s[3..])
  }

  /** The decoder skips line breaks wherever they stand. */
  function Unbroken(t: string): string {
    if t == [] then []
    else if t[0] == '\n' || t[0] == '\r' then Unbroken(t[1..])
    else [t[0]] + Unbroken(t[1..])
  }

  predicate Digits(t: string, n: nat)
    requires n <= |t|
  {
    forall i | 0 <= i < n :: Value(t[i]) >= 0
  }

  /** Not strict: spare low bits of the last character are dropped. */
  function DecodeDigits(t: string): Option<seq<Byte>> {
    if t == [] then Some([])
    else if |t| == 1 then None
    else if |t| < 4 then
      if !Digits(t, |t|) then None
      else
        var a := Value(t[0]) * 4 + Value(t[1]) / 16;
        Some(if |t| == 2 then [a] else [a, Value(t[1]) % 16 * 16 + Value(t[2]) / 4])
    else if !Digits(t, 4) then None
    else
      var rest := DecodeDigits(t[4..]);
      if rest.None? then None
      else
        Some([Value(t[0]) * 4 + Value(t[1]) / 16,
              Value(t[1]) % 16 * 16 + Value(t[2]) / 4,
              Value(t[2]) % 4 * 64 + Value(t[3])] + rest.value)
  }

  function Decode(t: string): Option<seq<Byte>> {
    DecodeDigits(Unbroken(t))
  }

  lemma EncodedIsUnbroken(s: seq<Byte>)
    ensures Unbroken(Encode(s)) == Encode(s)
  {
    NoBreaks(Encode(s)) by {
      EncodedHasNoBreaks(s);
    }
  }

  lemma {:induction false} EncodedHasNoBreaks(s: seq<Byte>)
    ensures forall i | 0 <= i < |Encode(s)| :: Encode(s)[i] != '\n' && Encode(s)[i] != '\r'
  {
    if |s| >= 3 {
      EncodedHasNoBreaks(s[3..]);
    }
  }

  lemma {:induction false} NoBreaks(t: string)
    requires forall i | 0 <= i < |t| :: t[i] != '\n' && t[i] != '\r'
    ensures Unbroken(t) == t
  {
    if t != [] {
      NoBreaks(t[1..]);
    }
  }

  /** Three bytes through four characters and back. */
  lemma Quantum(a: Byte, b: Byte, c: Byte)
    ensures var t := [Digit(a / 4), Digit(a % 4 * 16 + b / 16), Digit(b % 16 * 4 + c / 64), Digit(c % 64)];
      && Digits(t, 4)
      && Value(t[0]) * 4 + Value(t[1]) / 16 == a
      && Value(t[1]) % 16 * 16 + Value(t[2]) / 4 == b
      && Value(t[2]) % 4 * 64 + Value(t[3]) == c
  {
    DigitHasValue(a / 4);
    DigitHasValue(a % 4 * 16 + b / 16);
    DigitHasValue(b % 16 * 4 + c / 64);
    DigitHasValue(c % 64);
  }

  /** A last group of one byte, or of two. */
  lemma OneLeft(a: Byte)
    ensures DecodeDigits([Digit(a / 4), Digit(a % 4 * 16)]) == Some([a])
  {
    var t := [Digit(a / 4), Digit(a % 4 * 16)];
    DigitHasValue(a / 4);
    DigitHasValue(a % 4 * 16);
    assert Digits(t, 2);
    assert Value(t[0]) * 4 + Value(t[1]) / 16 == a;
  }

  lemma TwoLeft(a: Byte, b: Byte)
    ensures DecodeDigits([Digit(a / 4), Digit(a % 4 * 16 + b / 16), Digit(b % 16 * 4)]) == Some([a, b])
  {
    var t := [Digit(a / 4), Digit(a % 4 * 16 + b / 16), Digit(b % 16 * 4)];
    DigitHasValue(a / 4);
    DigitHasValue(a % 4 * 16 + b / 16);
    DigitHasValue(b % 16 * 4);
    assert Digits(t, 3);
    assert Value(t[0]) * 4 + Value(t[1]) / 16 == a;
    assert Value(t[1]) % 16 * 16 + Value(t[2]) / 4 == b;
  }

  /** One full group in front of whatever decodes. */
  lemma FullGroup(a: Byte, b: Byte, c: Byte, t: string)
    ensures DecodeDigits([Digit(a / 4), Digit(a % 4 * 16 + b / 16), Digit(b % 16 * 4 + c / 64), Digit(c % 64)] + t)
         == if DecodeDigits(t).None? then None else Some([a, b, c] + DecodeDigits(t).value)
  {
    var head := [Digit(a / 4), Digit(a % 4 * 16 + b / 16), Digit(b % 16 * 4 + c / 64), Digit(c % 64)];
    var all := head + t;
    Quantum(a, b, c);
    assert all[0] == head[0] && all[1] == head[1] && all[2] == head[2] && all[3] == head[3];
    assert all[4..] == t;
    assert Digits(all, 4);
  }

  lemma {:induction false} DigitsRoundTrip(s: seq<Byte>)
    ensures DecodeDigits(Encode(s)) == Some(s)
  {
    if |s| == 1 {
      OneLeft(s[0]);
      assert s == [s[0]];
    } else if |s| == 2 {
      TwoLeft(s[0], s[1]);
      assert s == [s[0], s[1]];
    } else if |s| >= 3 {
      DigitsRoundTrip(s[3..]);
      FullGroup(s[0], s[1], s[2], Encode(s[3..]));
      assert s == [s[0], s[1], s[2]] + s[3..];
    }
  }

  lemma RoundTrip(s: seq<Byte>)
    ensures Decode(Encode(s)) == Some(s)
  {
    EncodedIsUnbroken(s);
    DigitsRoundTrip(s);
  }
}

/** The encoding told by its alphabet and its bits. */
module Base64Bits {
  import opened Octets
  import opened Wrappers
  import opened Base64Url

  const ALPHABET: string := "ABCDEFGHIJKLMNOPQRSTUVWXYZabcdefghijklmnopqrstuvwxyz0123456789-_"

  /** Digits are the places in the alphabet of section 5 of RFC 4648; any other character has no value. */
  lemma AlphabetIs(v: int, c: char)
    requires 0 <= v < 64
    ensures |ALPHABET| == 64 && Digit(v) == ALPHABET[v]
    ensures Value(c) == v <==> c == ALPHABET[v]
  {
    if v < 26 {
      UpperIs(v);
    } else if v < 52 {
      LowerIs(v);
    } else {
      OtherIs(v);
    }
  }

  lemma UpperIs(v: int)
    requires 0 <= v < 26
    ensures ALPHABET[v] == ('A' as int + v) as char
  {
    var letters := "ABCDEFGHIJKLMNOPQRSTUVWXYZ";
    assert ALPHABET[v] == letters[v];
  }

  lemma LowerIs(v: int)
    requires 26 <= v < 52
    ensures ALPHABET[v] == ('a' as int + v - 26) as char
  {
  }

  lemma OtherIs(v: int)
    requires 52 <= v < 64
    ensures ALPHABET[v] == if v < 62 then ('0' as int + v - 52) as char else if v == 62 then '-' else '_'
  {
  }

  /** Four digits are the 24 bits of three bytes; two digits give one byte and three give two, spare bits dropped. */
  lemma DecodeOnBits(t: string)
    ensures DecodeDigits([]) == Some([]) && (|t| == 1 ==> DecodeDigits(t) == None)
    ensures |t| == 2 ==>
              var r := DecodeDigits(t);
              if Value(t[0]) < 0 || Value(t[1]) < 0 then r == None
              else r.Some? && |r.value| == 1 && r.value[0] as int == (64 * Value(t[0]) + Value(t[1])) / 16
    ensures |t| == 3 ==>
              var r := DecodeDigits(t);
              if Value(t[0]) < 0 || Value(t[1]) < 0 || Value(t[2]) < 0 then r == None
              else r.Some? && |r.value| == 2
                   && 256 * (r.value[0] as int) + r.value[1] as int
                      == (4096 * Value(t[0]) + 64 * Value(t[1]) + Value(t[2])) / 4
    ensures |t| >= 4 ==>
              var r, rest := DecodeDigits(t), DecodeDigits(t[4..]);
              if Value(t[0]) < 0 || Value(t[1]) < 0 || Value(t[2]) < 0 || Value(t[3]) < 0 || rest.None? then r == None
              else r.Some? && |r.value| >= 3 && r.value[3..] == rest.value
                   && 65536 * (r.value[0] as int) + 256 * (r.value[1] as int) + r.value[2] as int
                      == 262144 * Value(t[0]) + 4096 * Value(t[1]) + 64 * Value(t[2]) + Value(t[3])
  {
    if 2 <= |t| < 4 {
      assert Digits(t, |t|) <==> forall i | 0 <= i < |t| :: Value(t[i]) >= 0;
    } else if |t| >= 4 {
      assert Digits(t, 4) <==> Value(t[0]) >= 0 && Value(t[1]) >= 0 && Value(t[2]) >= 0 && Value(t[3]) >= 0;
    }
  }

  /** Three bytes are the 24 bits of four digits; one byte is two digits, two are three, with zero bits after them. */
  lemma EncodeOnBits(s: seq<Byte>)
    ensures Encode([]) == []
    ensures |s| >= 3 ==>
              && |Encode(s)| >= 4 && Encode(s)[4..] == Encode(s[3..])
              && 262144 * Value(Encode(s)[0]) + 4096 * Value(Encode(s)[1]) + 64 * Value(Encode(s)[2])
                 + Value(Encode(s)[3]) == 65536 * (s[0] as int) + 256 * (s[1] as int) + s[2] as int
    ensures |s| == 2 ==>
              && |Encode(s)| == 3
              && 4096 * Value(Encode(s)[0]) + 64 * Value(Encode(s)[1]) + Value(Encode(s)[2])
                 == 1024 * (s[0] as int) + 4 * (s[1] as int)
    ensures |s| == 1 ==>
              |Encode(s)| == 2 && 64 * Value(Encode(s)[0]) + Value(Encode(s)[1]) == 16 * (s[0] as int)
  {
    if |s| == 1 {
      DigitHasValue(s[0] / 4);
      DigitHasValue(s[0] % 4 * 16);
    } else if |s| == 2 {
      DigitHasValue(s[0] / 4);
      DigitHasValue(s[0] % 4 * 16 + s[1] / 16);
      DigitHasValue(s[1] % 16 * 4);
    } else if |s| >= 3 {
      DigitHasValue(s[0] / 4);
      DigitHasValue(s[0] % 4 * 16 + s[1] / 16);
      DigitHasValue(s[1] % 16 * 4 + s[2] / 64);
      DigitHasValue(s[2] % 64);
    }
  }
}

/**
 * Lease tokens: base64url(item hash[32] || worker[8] || expiry seconds[8] || mac[16]).
 * The keyed hash and SHA-256 are parameters.
 */
module LeaseToken {
  import opened Wrappers
  import opened Clock
  import opened Base64Url
  import opened Octets

  const HASH_LEN: nat := 32
  const MAC_LEN: nat := 16
  const TOTAL_LEN: nat := 64

  const TWO64: int := 0x1_0000_0000_0000_0000

  type Int64 = x: int | -0x8000_0000_0000_0000 <= x < 0x8000_0000_0000_0000

  type Bytes = seq<Byte>

  /** HMAC-SHA256 under one secret. */
  type Mac = Bytes -> Bytes

  ghost predicate KeyedHash(mac: Mac) {
    forall m :: |mac(m)| == 32
  }

  datatype Claims = Claims(hash: Bytes, worker: Int64, expSec: Int64)

  // ----- words ---------------------------------------------------------------

  function ToWord(x: Int64): int { if x < 0 then x + TWO64 else x }

  function FromWord(u: int): Int64
    requires 0 <= u < TWO64
  {
    if u >= 0x8000_0000_0000_0000 then u - TWO64 else u
  }

  function Pow256(k: nat): int { if k == 0 then 1 else 256 * Pow256(k - 1) }

  function BigEndian(n: int, k: nat): (s: Bytes)
    requires n >= 0
    ensures |s| == k
  {
    if k == 0 then [] else BigEndian(n / 256, k - 1) + [n % 256]
  }

  function FromBigEndian(s: Bytes): (n: int)
    ensures n >= 0
  {
    if s == [] then 0 else FromBigEndian(s[..|s| - 1]) * 256 + s[|s| - 1]
  }

  lemma {:induction false} WordRoundTrip(n: int, k: nat)
    requires 0 <= n < Pow256(k)
    ensures FromBigEndian(BigEndian(n, k)) == n
  {
    if k > 0 {
      WordRoundTrip(n / 256, k - 1);
      assert BigEndian(n, k)[..k - 1] == BigEndian(n / 256, k - 1);
    }
  }

  lemma {:induction false} BytesRoundTrip(s: Bytes)
    ensures FromBigEndian(s) < Pow256(|s|)
    ensures BigEndian(FromBigEndian(s), |s|) == s
  {
    if s != [] {
      BytesRoundTrip(s[..|s| - 1]);
      assert s == s[..|s| - 1] + [s[|s| - 1]];
    }
  }

  lemma Pow256Of8()
    ensures Pow256(8) == TWO64
  {
    assert Pow256(2) == 0x1_0000;
    assert Pow256(4) == 0x1_0000_0000;
    assert Pow256(6) == 0x1_0000_0000_0000;
  }

  lemma Int64RoundTrip(x: Int64)
    ensures FromBigEndian(BigEndian(ToWord(x), 8)) == ToWord(x) < TWO64 && FromWord(ToWord(x)) == x
  {
    Pow256Of8();
    WordRoundTrip(ToWord(x), 8);
  }

  // ----- layout --------------------------------------------------------------

  function Body(c: Claims): (s: Bytes)
    ensures |s| == |c.hash| + 16
  {
    c.hash + BigEndian(ToWord(c.worker), 8) + BigEndian(ToWord(c.expSec), 8)
  }

  /** The bytes stored in lease_token. */
  ghost function RawOf(mac: Mac, c: Claims): (s: Bytes)
    requires KeyedHash(mac) && |c.hash| == HASH_LEN
    ensures |s| == TOTAL_LEN
  {
    Body(c) + mac(Body(c))[..MAC_LEN]
  }

  function ClaimsOf(raw: Bytes): Claims
    requires |raw| == TOTAL_LEN
  {
    BytesRoundTrip(raw[32..40]);
    BytesRoundTrip(raw[40..48]);
    Pow256Of8();
    Claims(raw[..32], FromWord(FromBigEndian(raw[32..40])), FromWord(FromBigEndian(raw[40..48])))
  }

  method PutUint64(buf: array<Byte>, off: nat, n: int)
    requires off + 8 <= buf.Length && 0 <= n < TWO64
    modifies buf
    ensures buf[off..off + 8] == BigEndian(n, 8)
    ensures buf[..off] == old(buf[..off]) && buf[off + 8..] == old(buf[off + 8..])
  {
    var left := n;
    var k: nat := 8;
    while k > 0
      invariant k <= 8 && 0 <= left
      invariant BigEndian(left, k) + buf[off + k..off + 8] == BigEndian(n, 8)
      invariant buf[..off] == old(buf[..off]) && buf[off + 8..] == old(buf[off + 8..])
    {
      ghost var tail := buf[off + k..off + 8];
      buf[off + k - 1] := left % 256;
      assert buf[off + k - 1..off + 8] == [left % 256] + tail;
      assert BigEndian(left, k) == BigEndian(left / 256, k - 1) + [left % 256];
      assert BigEndian(left / 256, k - 1) + ([left % 256] + tail) == BigEndian(left, k) + tail;
      left := left / 256;
      k := k - 1;
    }
  }

  /** Sign fills one buffer field by field. A hash of another length is a caller's bug and panics. */
  method Sign(mac: Mac, hash: Bytes, worker: Int64, expires: Time) returns (token: string, raw: Bytes)
    requires KeyedHash(mac) && |hash| == HASH_LEN
    requires -0x8000_0000_0000_0000 <= Unix(expires) < 0x8000_0000_0000_0000
    ensures raw == RawOf(mac, Claims(hash, worker, Unix(expires)))
    ensures token == Encode(raw)
  {
    ghost var c := Claims(hash, worker, Unix(expires));
    var buf := new Byte[64];
    for i := 0 to 32
      invariant buf[..i] == hash[..i]
    {
      buf[i] := hash[i];
    }
    PutUint64(buf, 32, ToWord(worker));
    assert buf[..32] == hash;
    PutUint64(buf, 40, ToWord(Unix(expires)));
    assert buf[..40] == hash + BigEndian(ToWord(worker), 8);
    assert buf[..48] == Body(c);
    var m := mac(buf[..48]);
    for i := 0 to 16
      invariant buf[..48] == Body(c)
      invariant m == mac(Body(c))
      invariant buf[48..48 + i] == m[..i]
    {
      buf[48 + i] := m[i];
    }
    raw := buf[..];
    assert raw == buf[..48] + buf[48..64];
    token := Encode(raw);
  }

  datatype Verdict =
    | BadEncoding | BadLength | BadSignature
    | Expired(claims: Claims)
    | Valid(claims: Claims)

  function Verify(mac: Mac, token: string, now: Time): Verdict {
    var decoded := Decode(token);
    if decoded.None? then BadEncoding
    else
      var raw := decoded.value;
      if |raw| != TOTAL_LEN then BadLength
      else if |mac(raw[..48])| < 16 || mac(raw[..48])[..16] != raw[48..] then BadSignature
      else if now > ClaimsOf(raw).expSec * SECOND then Expired(ClaimsOf(raw))
      else Valid(ClaimsOf(raw))
  }

  /** Raw: the stored form of a token string. */
  function Raw(token: string): Option<Bytes> {
    var decoded := Decode(token);
    if decoded.Some? && |decoded.value| == TOTAL_LEN then decoded else None
  }

  // ----- main results --------------------------------------------------------

  lemma ClaimsRoundTrip(mac: Mac, c: Claims)
    requires KeyedHash(mac) && |c.hash| == HASH_LEN
    ensures ClaimsOf(RawOf(mac, c)) == c
    ensures RawOf(mac, c)[..48] == Body(c) && RawOf(mac, c)[48..] == mac(Body(c))[..16]
  {
    var raw := RawOf(mac, c);
    assert raw[..32] == c.hash;
    assert raw[32..40] == BigEndian(ToWord(c.worker), 8);
    assert raw[40..48] == BigEndian(ToWord(c.expSec), 8);
    Int64RoundTrip(c.worker);
    Int64RoundTrip(c.expSec);
  }

  /** A signed token verifies, with exactly the claims signed, until its expiry second has passed. */
  lemma SignedVerifies(mac: Mac, c: Claims, now: Time)
    requires KeyedHash(mac) && |c.hash| == HASH_LEN
    ensures Verify(mac, Encode(RawOf(mac, c)), now) == if now <= c.expSec * SECOND then Valid(c) else Expired(c)
    ensures Raw(Encode(RawOf(mac, c))) == Some(RawOf(mac, c))
  {
    RoundTrip(RawOf(mac, c));
    ClaimsRoundTrip(mac, c);
  }

  /** An 8-byte word, most significant byte first. */
  lemma WordOnBytes(n: int, s: Bytes)
    requires 0 <= n < TWO64 && s == BigEndian(n, 8)
    ensures 0x100_0000_0000_0000 * (s[0] as int) + 0x1_0000_0000_0000 * (s[1] as int)
            + 0x100_0000_0000 * (s[2] as int) + 0x1_0000_0000 * (s[3] as int)
            + 0x100_0000 * (s[4] as int) + 0x1_0000 * (s[5] as int)
            + 0x100 * (s[6] as int) + s[7] as int == n
  {
    Pow256Of8();
    WordRoundTrip(n, 8);
    assert s[..7][..6] == s[..6] && s[..6][..5] == s[..5] && s[..5][..4] == s[..4];
    assert s[..4][..3] == s[..3] && s[..3][..2] == s[..2] && s[..2][..1] == s[..1] && s[..1][..0] == [];
    var a := FromBigEndian(s[..1]);
    assert FromBigEndian([]) == 0 && a == s[0];
    var b := FromBigEndian(s[..2]);
    assert b == a * 256 + s[1];
    var c := FromBigEndian(s[..3]);
    assert c == b * 256 + s[2];
    var d := FromBigEndian(s[..4]);
    assert d == c * 256 + s[3];
    var e := FromBigEndian(s[..5]);
    assert e == d * 256 + s[4];
    var f := FromBigEndian(s[..6]);
    assert f == e * 256 + s[5];
    var g := FromBigEndian(s[..7]);
    assert g == f * 256 + s[6];
    assert FromBigEndian(s) == g * 256 + s[7];
  }

  /**
   * The 64 bytes of a token: the hash, worker and expiry second as big-endian words in
   * two's complement, and the first 16 bytes of the MAC of those 48.
   */
  lemma LayoutOnBytes(mac: Mac, c: Claims, raw: Bytes, worker: int, expSec: int)
    requires KeyedHash(mac) && |c.hash| == 32 && raw == RawOf(mac, c)
    requires worker == if c.worker < 0 then c.worker + 0x1_0000_0000_0000_0000 else c.worker
    requires expSec == if c.expSec < 0 then c.expSec + 0x1_0000_0000_0000_0000 else c.expSec
    ensures |raw| == 64 && raw[..32] == c.hash && raw[48..] == mac(raw[..48])[..16]
    ensures 0x100_0000_0000_0000 * (raw[32] as int) + 0x1_0000_0000_0000 * (raw[33] as int)
            + 0x100_0000_0000 * (raw[34] as int) + 0x1_0000_0000 * (raw[35] as int)
            + 0x100_0000 * (raw[36] as int) + 0x1_0000 * (raw[37] as int)
            + 0x100 * (raw[38] as int) + raw[39] as int == worker
    ensures 0x100_0000_0000_0000 * (raw[40] as int) + 0x1_0000_0000_0000 * (raw[41] as int)
            + 0x100_0000_0000 * (raw[42] as int) + 0x1_0000_0000 * (raw[43] as int)
            + 0x100_0000 * (raw[44] as int) + 0x1_0000 * (raw[45] as int)
            + 0x100 * (raw[46] as int) + raw[47] as int == expSec
  {
    ClaimsRoundTrip(mac, c);
    assert raw[..32] == c.hash;
    assert raw[32..40] == BigEndian(worker, 8);
    assert raw[40..48] == BigEndian(expSec, 8);
    WordOnBytes(worker, raw[32..40]);
    WordOnBytes(expSec, raw[40..48]);
  }

  lemma WordBytes(s: Bytes)
    requires |s| == 8
    ensures 0 <= FromBigEndian(s) < TWO64 && BigEndian(ToWord(FromWord(FromBigEndian(s))), 8) == s
  {
    BytesRoundTrip(s);
    Pow256Of8();
  }

  /** Whatever string verifies decodes to the very bytes Sign produces for its claims. */
  lemma VerifiedIsSigned(mac: Mac, token: string, now: Time)
    requires KeyedHash(mac) && (Verify(mac, token, now).Valid? || Verify(mac, token, now).Expired?)
    ensures var c := Verify(mac, token, now).claims;
      |c.hash| == HASH_LEN && Raw(token) == Some(RawOf(mac, c))
  {
    var raw := Decode(token).value;
    var c := ClaimsOf(raw);
    WordBytes(raw[32..40]);
    WordBytes(raw[40..48]);
    assert raw[..48] == raw[..32] + raw[32..40] + raw[40..48];
    assert raw == raw[..48] + raw[48..];
  }

  /**
   * The comparison with the stored column, once Verify has passed, is a
   * comparison of claims: this is why the queues can speak of tokens as item,
   * worker and expiry second.
   */
  lemma StoredMatchIsClaimsMatch(mac: Mac, token: string, now: Time, stored: Claims)
    requires KeyedHash(mac) && |stored.hash| == HASH_LEN && Verify(mac, token, now).Valid?
    ensures Raw(token) == Some(RawOf(mac, stored)) <==> Verify(mac, token, now).claims == stored
  {
    VerifiedIsSigned(mac, token, now);
    ClaimsRoundTrip(mac, stored);
    ClaimsRoundTrip(mac, Verify(mac, token, now).claims);
  }

  // ----- task and chunk tokens -----------------------------------------------

  type Sha = Bytes -> Bytes

  const TASK_PREFIX: Bytes := [116, 97, 115, 107, 58, 0, 0, 0]

  /** "task:" in a zeroed 16-byte buffer whose second half is the id. */
  function TaskPreimage(id: Int64): Bytes {
    TASK_PREFIX + BigEndian(ToWord(id), 8)
  }

  /** VerifyTask and VerifyChunk: the embedded hash must be that of the item named in the request. */
  function VerifyItem(mac: Mac, sha: Sha, token: string, preimage: Bytes, now: Time): Option<Claims> {
    var v := Verify(mac, token, now);
    if v.Valid? && v.claims.hash == sha(preimage) then Some(v.claims) else None
  }

  /** "task:", three zero bytes and the id as a big-endian word. */
  lemma TaskPreimageOnBytes(id: Int64, s: Bytes, word: int)
    requires s == TaskPreimage(id) && word == if id < 0 then id + 0x1_0000_0000_0000_0000 else id
    ensures |s| == 16
    ensures s[0] as char == 't' && s[1] as char == 'a' && s[2] as char == 's' && s[3] as char == 'k'
              && s[4] as char == ':' && s[5] == 0 && s[6] == 0 && s[7] == 0
    ensures 0x100_0000_0000_0000 * (s[8] as int) + 0x1_0000_0000_0000 * (s[9] as int)
            + 0x100_0000_0000 * (s[10] as int) + 0x1_0000_0000 * (s[11] as int)
            + 0x100_0000 * (s[12] as int) + 0x1_0000 * (s[13] as int)
            + 0x100 * (s[14] as int) + s[15] as int == word
  {
    assert s[8..] == BigEndian(word, 8);
    WordOnBytes(word, s[8..]);
  }

  lemma TaskPreimageInjective(a: Int64, b: Int64)
    requires TaskPreimage(a) == TaskPreimage(b)
    ensures a == b
  {
    assert TaskPreimage(a)[8..] == BigEndian(ToWord(a), 8);
    assert TaskPreimage(b)[8..] == BigEndian(ToWord(b), 8);
    Int64RoundTrip(a);
    Int64RoundTrip(b);
  }

  /** Without a SHA-256 collision between the two ids, a task token opens its own task and no other. */
  lemma TaskTokenOpensItsTask(mac: Mac, sha: Sha, signed: Int64, asked: Int64, worker: Int64, expSec: Int64, now: Time)
    requires KeyedHash(mac) && (forall m :: |sha(m)| == 32)
    requires sha(TaskPreimage(signed)) == sha(TaskPreimage(asked)) ==> TaskPreimage(signed) == TaskPreimage(asked)
    ensures var token := Encode(RawOf(mac, Claims(sha(TaskPreimage(signed)), worker, expSec)));
      VerifyItem(mac, sha, token, TaskPreimage(asked), now).Some? <==> signed == asked && now <= expSec * SECOND
  {
    SignedVerifies(mac, Claims(sha(TaskPreimage(signed)), worker, expSec), now);
    if sha(TaskPreimage(signed)) == sha(TaskPreimage(asked)) {
      TaskPreimageInjective(signed, asked);
    }
  }

  /** The constant-time comparison: one accumulator, no early exit, still equality. */
  method EqualConstantTime(a: seq<bv8>, b: seq<bv8>) returns (same: bool)
    ensures same <==> a == b
  {
    if |a| != |b| {
      return false;
    }
    var v: bv8 := 0;
    for i := 0 to |a|
      invariant v == 0 <==> a[..i] == b[..i]
    {
      ghost var before := v;
      v := v | (a[i] ^ b[i]);
      OrXor(before, a[i], b[i]);
      assert a[..i + 1] == a[..i] + [a[i]] && b[..i + 1] == b[..i] + [b[i]];
    }
    assert a[..|a|] == a && b[..|b|] == b;
    same := v == 0;
  }

  lemma OrXor(v: bv8, x: bv8, y: bv8)
    ensures v | (x ^ y) == 0 <==> v == 0 && x == y
  {
  }
}
