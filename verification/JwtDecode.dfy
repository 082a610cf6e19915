/**
 The access-token payload decoder: base64url characters to octets through a
 32-bit shift buffer, then octets to UTF-16 code units.

 The references are bit strings (section 5 of RFC 4648), the UTF-8 table of
 section 3 of RFC 3629 and the surrogate pairs of section 2.1 of RFC 2781.
 */
module JwtDecode {
  type Byte = b: int | 0 <= b < 0x100
  type CodeUnit = u: int | 0 <= u < 0x1_0000
  type Scalar = c: int | 0 <= c <= 0x10FFFF && !(0xD800 <= c <= 0xDFFF)

  function ReplaceUrl(c: char): char {
    if c == '-' then '+' else if c == '_' then '/' else c
  }

  /** Position in the alphabet A-Z, a-z, 0-9, '+', '/', or -1 for a stranger. */
  function IndexOf(c: char): (i: int)
    ensures -1 <= i < 64
  {
    if 'A' <= c <= 'Z' then c as int - 'A' as int
    else if 'a' <= c <= 'z' then c as int - 'a' as int + 26
    else if '0' <= c <= '9' then c as int - '0' as int + 52
    else if c == '+' then 62
    else if c == '/' then 63
    else -1
  }

  /** The URL-safe letter of a six-bit value, table 2 in section 5 of RFC 4648. */
  function UrlLetter(v: nat): char
    requires v < 64
  {
    if v < 26 then ('A' as int + v) as char
    else if v < 52 then ('a' as int + v - 26) as char
    else if v < 62 then ('0' as int + v - 52) as char
    else if v == 62 then '-' else '_'
  }

  const UPPER := "ABCDEFGHIJKLMNOPQRSTUVWXYZ"
  const LOWER := "abcdefghijklmnopqrstuvwxyz"

  /** The alphabet of table 2 in section 5 of RFC 4648, letter by letter, and what the decoder makes of it. */
  lemma AlphabetIsStandard()
    ensures forall v: nat :: v < 26 ==> UrlLetter(v) == UPPER[v] && UrlLetter(v + 26) == LOWER[v]
    ensures forall v: nat :: v < 10 ==> UrlLetter(v + 52) == "0123456789"[v]
    ensures UrlLetter(62) == '-' && UrlLetter(63) == '_'
    ensures forall v: nat :: v < 64 ==> IndexOf(ReplaceUrl(UrlLetter(v))) == v
    ensures IndexOf('+') == 62 && IndexOf('/') == 63
    ensures forall c :: IndexOf(ReplaceUrl(c)) >= 0 && c != '+' && c != '/' ==> UrlLetter(IndexOf(ReplaceUrl(c))) == c
  {
  }

  // ------------------------------------------------------------- 32-bit arithmetic

  const TWO_32 := 0x1_0000_0000

  /** The signed 32-bit truncation every bitwise operator of the language applies. */
  function ToInt32(x: int): int {
    var m := x % TWO_32;
    if m >= 0x8000_0000 then m - TWO_32 else m
  }

  /** `(buffer << 6) | idx`: the shift leaves six zero bits for the index. */
  function PushSextet(buffer: int, idx: int): int { ToInt32(buffer * 64) + idx }

  /** `(buffer >> n) & 0xff`, with an arithmetic shift. */
  function LowByte(buffer: int, n: nat): Byte { (buffer / Pow2(n)) % 0x100 }

  function Pow2(n: nat): (p: nat)
    ensures p >= 1
  {
    if n == 0 then 1 else 2 * Pow2(n - 1)
  }

  // ------------------------------------------------------------------ bit strings

  /** The `n` low bits of `v`, most significant first. */
  function Bits(v: nat, n: nat): (bs: seq<bool>)
    ensures |bs| == n
    decreases n
  {
    if n == 0 then [] else Bits(v / 2, n - 1) + [v % 2 == 1]
  }

  function Value(bs: seq<bool>): nat {
    if bs == [] then 0 else 2 * Value(bs[..|bs| - 1]) + if bs[|bs| - 1] then 1 else 0
  }

  lemma {:induction false} ValueOfBits(v: nat, n: nat)
    requires v < Pow2(n)
    ensures Value(Bits(v, n)) == v
    decreases n
  {
    if n > 0 {
      ValueOfBits(v / 2, n - 1);
      ValueStep(Bits(v / 2, n - 1), v % 2 == 1);
    }
  }

  lemma {:induction false} ValueSplit(a: seq<bool>, b: seq<bool>)
    ensures Value(a + b) == Value(a) * Pow2(|b|) + Value(b)
    decreases |b|
  {
    if b == [] {
      assert a + b == a;
    } else {
      var last := |b| - 1;
      ValueSplit(a, b[..last]);
      ValueStep(a + b[..last], b[last]);
      ValueStep(b[..last], b[last]);
      assert (a + b[..last]) + [b[last]] == a + b && b[..last] + [b[last]] == b;
      DoubleProduct(Value(a), Pow2(last));
    }
  }

  lemma DoubleProduct(x: nat, p: nat)
    ensures 2 * (x * p) == x * (2 * p)
  {
  }

  lemma ValueStep(a: seq<bool>, bit: bool)
    ensures Value(a + [bit]) == 2 * Value(a) + if bit then 1 else 0
  {
    assert (a + [bit])[..|a|] == a;
  }

  lemma {:induction false} ValueBound(b: seq<bool>)
    ensures Value(b) < Pow2(|b|)
  {
    if b != [] { ValueBound(b[..|b| - 1]); }
  }

  lemma SmallPowers()
    ensures Pow2(0) == 1 && Pow2(2) == 4 && Pow2(4) == 16 && Pow2(6) == 64 && Pow2(8) == 256
    ensures Pow2(10) == 1024 && Pow2(12) == 4096
  {
    assert Pow2(3) == 8;
    assert Pow2(6) == 64;
    assert Pow2(9) == 512;
  }

  lemma {:induction false} BitsOfValue(bs: seq<bool>)
    ensures Bits(Value(bs), |bs|) == bs
  {
    if bs != [] { BitsOfValue(bs[..|bs| - 1]); }
  }

  /** The octets of a bit string; bits short of an octet at the end are dropped. */
  function Octets(bs: seq<bool>): seq<Byte>
    decreases |bs|
  {
    if |bs| < 8 then [] else [OctetOf(bs[..8])] + Octets(bs[8..])
  }

  function OctetOf(bs: seq<bool>): Byte
    requires |bs| == 8
  {
    SmallPowers();
    ValueBound(bs);
    Value(bs)
  }

  function BitsOfBytes(bytes: seq<Byte>): seq<bool> {
    if bytes == [] then [] else Bits(bytes[0], 8) + BitsOfBytes(bytes[1..])
  }

  /** A letter carries six bits, a stranger none. */
  function CharBits(c: char): seq<bool> {
    var idx := IndexOf(ReplaceUrl(c));
    if idx == -1 then [] else Bits(idx, 6)
  }

  /** What the characters before the first '=' carry. */
  function BitsOfText(s: string): seq<bool>
    decreases |s|
  {
    if s == [] || s[0] == '=' then [] else CharBits(s[0]) + BitsOfText(s[1..])
  }

  // ----------------------------------------------------------------- the decoder

  lemma MultipleIsFar(m: nat, d: int)
    ensures d >= 1 ==> m * d >= m
    ensures d <= -1 ==> m * d <= 0 - m
  {
    if d >= 1 { assert m * (d - 1) >= 0; }
    if d <= -1 { assert m * (-1 - d) >= 0; }
  }

  lemma ModIs(x: int, m: nat, k: int, r: int)
    requires m >= 1 && x == m * k + r && 0 <= r < m
    ensures x % m == r
  {
    var d := k - x / m;
    assert m * d == m * k - m * (x / m);
    MultipleIsFar(m, d);
  }

  /** Truncation to 32 bits never disturbs the low twelve, which are all the loop looks at. */
  lemma TruncationKeepsLowBits(x: int)
    ensures ToInt32(x) % 4096 == x % 4096
  {
    var q, m := x / TWO_32, x % TWO_32;
    var a, r := m / 4096, m % 4096;
    ModIs(x, 4096, q * 0x10_0000 + a, r);
    ModIs(m - TWO_32, 4096, a - 0x10_0000, r);
  }

  lemma PushKeepsLowBits(buffer: int, bits: nat, idx: int)
    requires bits in {0, 2, 4, 6} && 0 <= idx < 64
    ensures PushSextet(buffer, idx) % Pow2(bits + 6) == (buffer % Pow2(bits)) * 64 + idx
  {
    SmallPowers();
    TruncationKeepsLowBits(buffer * 64);
    var shifted := ToInt32(buffer * 64);
    var k := (shifted - buffer * 64) / 4096;
    SameLowBits(shifted, buffer * 64, k);
    if bits == 0 { LowBitsOfPush(shifted, buffer, 1, 64, k, idx); }
    else if bits == 2 { LowBitsOfPush(shifted, buffer, 4, 16, k, idx); }
    else if bits == 4 { LowBitsOfPush(shifted, buffer, 16, 4, k, idx); }
    else { LowBitsOfPush(shifted, buffer, 64, 1, k, idx); }
  }

  lemma SameLowBits(a: int, b: int, k: int)
    requires a % 4096 == b % 4096 && k == (a - b) / 4096
    ensures a == b + 4096 * k
  {
    ModIs(a - b, 4096, a / 4096 - b / 4096, 0);
  }

  lemma LowBitsOfPush(shifted: int, buffer: int, p: nat, cofactor: nat, k: int, idx: int)
    requires p in {1, 4, 16, 64} && p * cofactor == 64 && 0 <= idx < 64
    requires shifted == buffer * 64 + 4096 * k
    ensures (shifted + idx) % (64 * p) == (buffer % p) * 64 + idx
  {
    var q, r := buffer / p, buffer % p;
    assert buffer == p * q + r;
    assert buffer * 64 == 64 * p * q + 64 * r;
    assert 4096 * k == 64 * p * (cofactor * k);
    ModIs(shifted + idx, 64 * p, q + cofactor * k, r * 64 + idx);
  }

  lemma DivModIs(x: int, m: nat, k: int, r: int)
    requires m >= 1 && x == m * k + r && 0 <= r < m
    ensures x / m == k && x % m == r
  {
    ModIs(x, m, k, r);
    var d := k - x / m;
    assert m * d == m * k - m * (x / m);
    MultipleIsFar(m, d);
  }

  lemma TopAndRest(buffer: int, p: nat, top: nat, rest: nat)
    requires p in {1, 4, 16} && top < 256 && rest < p && buffer % (256 * p) == top * p + rest
    ensures (buffer / p) % 256 == top && buffer % p == rest
  {
    var k := buffer / (256 * p);
    assert buffer == (256 * p) * k + (top * p + rest);
    assert (256 * p) * k == p * (256 * k);
    assert p * (256 * k) + p * top == p * (256 * k + top);
    DivModIs(buffer, p, 256 * k + top, rest);
    DivModIs(256 * k + top, 256, k, top);
  }

  lemma LowByteIsTopOfTail(buffer: int, n: nat, tail: seq<bool>)
    requires n in {0, 2, 4} && |tail| == n + 8 && buffer % Pow2(n + 8) == Value(tail)
    ensures LowByte(buffer, n) == Value(tail[..8])
    ensures buffer % Pow2(n) == Value(tail[8..])
  {
    assert tail == tail[..8] + tail[8..];
    ValueSplit(tail[..8], tail[8..]);
    ValueBound(tail[..8]);
    ValueBound(tail[8..]);
    SmallPowers();
    TopAndRest(buffer, Pow2(n), Value(tail[..8]), Value(tail[8..]));
  }

  lemma OctetsCons(first: seq<bool>, rest: seq<bool>)
    requires |first| == 8
    ensures Octets(first + rest) == [OctetOf(first)] + Octets(rest)
  {
    var all := first + rest;
    assert all[..8] == first && all[8..] == rest;
  }

  lemma {:induction false} OctetsSplit(a: seq<bool>, b: seq<bool>)
    requires |a| % 8 == 0
    ensures Octets(a + b) == Octets(a) + Octets(b)
    decreases |a|
  {
    if a == [] {
      assert a + b == b;
    } else {
      assert a == a[..8] + a[8..] && a + b == a[..8] + (a[8..] + b);
      OctetsCons(a[..8], a[8..]);
      OctetsCons(a[..8], a[8..] + b);
      OctetsSplit(a[8..], b);
      assert [OctetOf(a[..8])] + (Octets(a[8..]) + Octets(b)) == ([OctetOf(a[..8])] + Octets(a[8..])) + Octets(b);
    }
  }

  lemma OctetsOfTail(tail: seq<bool>)
    requires |tail| < 16
    ensures Octets(tail) == if |tail| >= 8 then [OctetOf(tail[..8])] else []
  {
    if |tail| >= 8 {
      assert tail == tail[..8] + tail[8..];
      OctetsCons(tail[..8], tail[8..]);
    }
  }

  lemma PendingAfter(bs: seq<bool>, six: seq<bool>, pending: nat)
    requires |six| == 6 && pending == |bs| % 8
    ensures |bs + six| % 8 == if pending + 6 >= 8 then pending - 2 else pending + 6
  {
    DivModIs(|bs| + 6, 8, if pending + 6 >= 8 then |bs| / 8 + 1 else |bs| / 8, if pending + 6 >= 8 then pending - 2 else pending + 6);
  }

  /** Six more bits: either they stay pending, or they complete one octet. */
  lemma OctetsAppend(bs: seq<bool>, six: seq<bool>, pending: nat)
    requires |six| == 6 && pending == |bs| % 8
    ensures
      var tail := bs[|bs| - pending..] + six;
      Octets(bs + six) == Octets(bs) + if pending + 6 >= 8 then [OctetOf(tail[..8])] else []
  {
    var whole, rest := bs[..|bs| - pending], bs[|bs| - pending..];
    var tail := rest + six;
    assert bs == whole + rest && bs + six == whole + tail;
    OctetsSplit(whole, rest);
    OctetsSplit(whole, tail);
    assert Octets(rest) == [] && Octets(whole) + [] == Octets(whole);
    OctetsOfTail(tail);
  }

  /** `done` is what the characters before position `i` carried. */
  ghost predicate Remaining(done: seq<bool>, s: string, i: nat) {
    i <= |s| && done + BitsOfText(s[i..]) == BitsOfText(s)
  }

  lemma RemainingStep(done: seq<bool>, s: string, i: nat)
    requires i < |s| && Remaining(done, s, i)
    ensures if s[i] == '=' then done == BitsOfText(s) else Remaining(done + CharBits(s[i]), s, i + 1)
  {
    assert s[i..][1..] == s[i + 1..];
    if s[i] == '=' {
      assert done + [] == done;
    } else {
      var rest := BitsOfText(s[i + 1..]);
      assert done + (CharBits(s[i]) + rest) == (done + CharBits(s[i])) + rest;
    }
  }

  lemma CharStep(c: char)
    ensures ReplaceUrl(c) == '=' <==> c == '='
    ensures IndexOf(ReplaceUrl(c)) == -1 ==> CharBits(c) == []
    ensures IndexOf(ReplaceUrl(c)) >= 0 ==> CharBits(c) == Bits(IndexOf(ReplaceUrl(c)), 6)
  {
  }

  lemma RemainingEnds(done: seq<bool>, s: string)
    ensures Remaining([], s, 0)
    ensures Remaining(done, s, |s|) ==> done == BitsOfText(s)
  {
    assert s[0..] == s && [] + BitsOfText(s) == BitsOfText(s);
    assert s[|s|..] == "" && done + [] == done;
  }

  /** The buffer holds, in its low bits, the bits read but not yet output. */
  ghost predicate Holds(buffer: int, bits: nat, done: seq<bool>, bytes: seq<Byte>) {
    && (bits == 0 || bits == 2 || bits == 4 || bits == 6) && bits == |done| % 8 && bytes == Octets(done)
    && buffer % Pow2(bits) == Value(done[|done| - bits..])
  }

  /** A sextet that leaves the pending bits short of an octet. */
  lemma PushWaits(buffer: int, done: seq<bool>, bytes: seq<Byte>, idx: int)
    requires Holds(buffer, 0, done, bytes) && 0 <= idx < 64
    ensures Holds(PushSextet(buffer, idx), 6, done + Bits(idx, 6), bytes)
  {
    var six := Bits(idx, 6);
    SmallPowers();
    PushKeepsLowBits(buffer, 0, idx);
    ValueOfBits(idx, 6);
    OctetsAppend(done, six, 0);
    PendingAfter(done, six, 0);
    assert (done + six)[|done|..] == six;
  }

  /** A sextet that completes an octet. */
  lemma PushEmits(buffer: int, bits: nat, done: seq<bool>, bytes: seq<Byte>, idx: int)
    requires bits in {2, 4, 6} && Holds(buffer, bits, done, bytes) && 0 <= idx < 64
    ensures
      var next := PushSextet(buffer, idx);
      Holds(next, bits - 2, done + Bits(idx, 6), bytes + [LowByte(next, bits - 2)])
  {
    var six := Bits(idx, 6);
    var pending := done[|done| - bits..];
    var tail := pending + six;
    var next := PushSextet(buffer, idx);
    SmallPowers();
    PushKeepsLowBits(buffer, bits, idx);
    ValueOfBits(idx, 6);
    ValueSplit(pending, six);
    assert next % Pow2(bits + 6) == Value(tail);
    LowByteIsTopOfTail(next, bits - 2, tail);
    OctetsAppend(done, six, bits);
    PendingAfter(done, six, bits);
    assert tail[8..] == (done + six)[|done + six| - (bits - 2)..];
  }

  /** One pass of the loop on a character of the alphabet. */
  lemma PushHolds(buffer: int, bits: nat, done: seq<bool>, bytes: seq<Byte>, idx: int)
    requires Holds(buffer, bits, done, bytes) && 0 <= idx < 64
    ensures
      var next := PushSextet(buffer, idx);
      if bits + 6 >= 8 then Holds(next, bits + 6 - 8, done + Bits(idx, 6), bytes + [LowByte(next, bits + 6 - 8)])
      else Holds(next, bits + 6, done + Bits(idx, 6), bytes)
  {
    if bits == 0 { PushWaits(buffer, done, bytes, idx); } else { PushEmits(buffer, bits, done, bytes, idx); }
  }

  /** The bytes of `base64UrlDecode`: exactly the octets of the bits the text carries. */
  method DecodeBytes(input: string) returns (bytes: seq<Byte>)
    ensures bytes == Octets(BitsOfText(input))
  {
    bytes := [];
    var buffer, bits, i := 0, 0, 0;
    ghost var done: seq<bool> := [];
    RemainingEnds(done, input);
    while i < |input|
      invariant 0 <= i <= |input| && Holds(buffer, bits, done, bytes) && Remaining(done, input, i)
    {
      RemainingStep(done, input, i);
      CharStep(input[i]);
      var ch := ReplaceUrl(input[i]);
      if ch == '=' { return; }
      var idx := IndexOf(ch);
      i := i + 1;
      if idx == -1 {
        assert done + [] == done;
        continue;
      }
      PushHolds(buffer, bits, done, bytes, idx);
      done := done + CharBits(input[i - 1]);
      buffer := PushSextet(buffer, idx);
      bits := bits + 6;
      if bits >= 8 {
        bits := bits - 8;
        bytes := bytes + [LowByte(buffer, bits)];
      }
    }
    RemainingEnds(done, input);
  }

  // ----------------------------------------------------------------- the encoder

  /** Section 5 of RFC 4648: six bits to a letter, the last group filled up with zero bits. */
  function EncodeBits(bs: seq<bool>): string
    decreases |bs|
  {
    if bs == [] then ""
    else if |bs| <= 6 then [Letter(bs + Zeros(6 - |bs|))]
    else [Letter(bs[..6])] + EncodeBits(bs[6..])
  }

  function Letter(six: seq<bool>): char
    requires |six| == 6
  {
    SmallPowers();
    ValueBound(six);
    UrlLetter(Value(six))
  }

  function Zeros(n: nat): (z: seq<bool>)
    ensures |z| == n
  {
    if n == 0 then [] else [false] + Zeros(n - 1)
  }

  function Base64UrlEncode(bytes: seq<Byte>): string { EncodeBits(BitsOfBytes(bytes)) }

  lemma UrlLetterIndex(v: nat)
    requires v < 64
    ensures IndexOf(ReplaceUrl(UrlLetter(v))) == v && UrlLetter(v) != '='
  {
  }

  lemma LetterCarriesItsBits(six: seq<bool>, rest: string)
    requires |six| == 6
    ensures BitsOfText([Letter(six)] + rest) == six + BitsOfText(rest)
  {
    SmallPowers();
    ValueBound(six);
    BitsOfValue(six);
    UrlLetterIndex(Value(six));
    assert ([Letter(six)] + rest)[1..] == rest;
  }

  lemma Rejoin(bs: seq<bool>, fill: seq<bool>)
    requires |bs| >= 6
    ensures bs[..6] + (bs[6..] + fill) == bs + fill
  {
  }

  lemma LetterThen(six: seq<bool>, rest: string, padding: string)
    requires |six| == 6
    ensures BitsOfText([Letter(six)] + rest + padding) == six + BitsOfText(rest + padding)
  {
    var c := Letter(six);
    assert [c] + rest + padding == [c] + (rest + padding);
    LetterCarriesItsBits(six, rest + padding);
  }

  /** The text carries the encoded bits and fewer than six zero bits more, whatever padding follows. */
  lemma {:induction false} EncodedTextCarriesBits(bs: seq<bool>, padding: string) returns (fill: seq<bool>)
    requires padding == "" || padding[0] == '='
    ensures |fill| < 6 && BitsOfText(EncodeBits(bs) + padding) == bs + fill
    decreases |bs|
  {
    if bs == [] {
      fill := [];
      assert EncodeBits(bs) + padding == padding;
    } else if |bs| <= 6 {
      fill := Zeros(6 - |bs|);
      LetterCarriesItsBits(bs + fill, padding);
      assert (bs + fill) + [] == bs + fill;
    } else {
      fill := EncodedTextCarriesBits(bs[6..], padding);
      LetterThen(bs[..6], EncodeBits(bs[6..]), padding);
      Rejoin(bs, fill);
    }
  }

  lemma OctetOfBits(b: Byte)
    ensures OctetOf(Bits(b, 8)) == b
  {
    SmallPowers();
    ValueOfBits(b, 8);
  }

  lemma {:induction false} OctetsOfBytes(bytes: seq<Byte>, fill: seq<bool>)
    requires |fill| < 8
    ensures Octets(BitsOfBytes(bytes) + fill) == bytes
  {
    if bytes == [] {
      assert BitsOfBytes(bytes) + fill == fill;
    } else {
      var first, rest := Bits(bytes[0], 8), BitsOfBytes(bytes[1..]);
      OctetsOfBytes(bytes[1..], fill);
      OctetOfBits(bytes[0]);
      OctetsCons(first, rest + fill);
      assert first + rest + fill == first + (rest + fill);
    }
  }

  /** Characters outside the alphabet are skipped wherever they stand; only '=' ends the text. */
  lemma {:induction false} StrangersAreSkipped(a: string, c: char, b: string)
    requires c != '=' && IndexOf(ReplaceUrl(c)) == -1
    ensures BitsOfText(a + [c] + b) == BitsOfText(a + b)
    decreases |a|
  {
    if a == [] {
      assert ([] + [c] + b)[1..] == b && [] + b == b;
      assert [] + BitsOfText(b) == BitsOfText(b);
    } else {
      StrangersAreSkipped(a[1..], c, b);
      assert (a + [c] + b)[1..] == a[1..] + [c] + b && (a + b)[1..] == a[1..] + b;
    }
  }

  /** Decoding undoes encoding, with or without padding, for every byte string. */
  lemma Base64RoundTrip(bytes: seq<Byte>, padding: string)
    requires padding == "" || padding[0] == '='
    ensures Octets(BitsOfText(Base64UrlEncode(bytes) + padding)) == bytes
  {
    var fill := EncodedTextCarriesBits(BitsOfBytes(bytes), padding);
    OctetsOfBytes(bytes, fill);
  }

  // ------------------------------------------------------------------------ UTF-8

  /** Reading past the end yields nothing, which the masks turn into zero. */
  function At(bytes: seq<Byte>, i: nat): Byte { if i < |bytes| then bytes[i] else 0 }

  /** `String.fromCharCode` keeps sixteen bits. */
  function FromCharCode(x: int): CodeUnit { x % 0x1_0000 }

  function From(bytes: seq<Byte>, i: nat): seq<Byte> { if i <= |bytes| then bytes[i..] else [] }

  function Unit2(b0: Byte, b1: Byte): CodeUnit { FromCharCode((b0 % 0x20) * 0x40 + b1 % 0x40) }

  function Unit3(b0: Byte, b1: Byte, b2: Byte): CodeUnit {
    FromCharCode((b0 % 0x10) * 0x1000 + (b1 % 0x40) * 0x40 + b2 % 0x40)
  }

  /** Two units; on malformed input `c` may be negative, and the shift then rounds down. */
  function Units4(b0: Byte, b1: Byte, b2: Byte, b3: Byte): seq<CodeUnit> {
    SurrogatesOf(CodePoint4(b0, b1, b2, b3))
  }

  function CodePoint4(b0: Byte, b1: Byte, b2: Byte, b3: Byte): int {
    (b0 % 8) * 0x4_0000 + (b1 % 0x40) * 0x1000 + (b2 % 0x40) * 0x40 + b3 % 0x40
  }

  function SurrogatesOf(cp: int): seq<CodeUnit> {
    var c := cp - 0x1_0000;
    [FromCharCode(0xD800 + c / 0x400), FromCharCode(0xDC00 + c % 0x400)]
  }

  /** How many bytes a lead byte takes. */
  function Width(b0: Byte): nat {
    if b0 < 0x80 then 1 else if 0xC0 <= b0 < 0xE0 then 2 else if 0xE0 <= b0 < 0xF0 then 3 else 4
  }

  /** The code units of one step; a stray continuation byte is taken as a four-byte lead. */
  function UnitsOf(b0: Byte, b1: Byte, b2: Byte, b3: Byte): seq<CodeUnit> {
    if b0 < 0x80 then [FromCharCode(b0)]
    else if 0xC0 <= b0 < 0xE0 then [Unit2(b0, b1)]
    else if 0xE0 <= b0 < 0xF0 then [Unit3(b0, b1, b2)]
    else Units4(b0, b1, b2, b3)
  }

  /** What the decoder makes of a byte string, well-formed or not. */
  function Decoded(bs: seq<Byte>): seq<CodeUnit>
    decreases |bs|
  {
    if bs == [] then []
    else UnitsOf(bs[0], At(bs, 1), At(bs, 2), At(bs, 3)) + Decoded(From(bs, Width(bs[0])))
  }

  lemma DecodedStep(bytes: seq<Byte>, i: nat)
    requires i < |bytes|
    ensures Decoded(From(bytes, i)) ==
            UnitsOf(bytes[i], At(bytes, i + 1), At(bytes, i + 2), At(bytes, i + 3)) + Decoded(From(bytes, i + Width(bytes[i])))
  {
    var rest, w := From(bytes, i), Width(bytes[i]);
    assert rest[0] == bytes[i];
    assert At(rest, 1) == At(bytes, i + 1) && At(rest, 2) == At(bytes, i + 2) && At(rest, 3) == At(bytes, i + 3);
    assert From(rest, w) == From(bytes, i + w);
  }

  /** One pass of the loop: the units it appends and the bytes it takes, at least one. */
  method DecodeOne(bytes: seq<Byte>, start: nat) returns (units: seq<CodeUnit>, i: nat)
    requires start < |bytes|
    ensures i > start && Decoded(From(bytes, start)) == units + Decoded(From(bytes, i))
  {
    DecodedStep(bytes, start);
    i := start;
    var b0 := bytes[i];
    i := i + 1;
    if b0 < 0x80 {
      units := [FromCharCode(b0)];
    } else if b0 >= 0xC0 && b0 < 0xE0 {
      var b1 := At(bytes, i);
      i := i + 1;
      units := [Unit2(b0, b1)];
    } else if b0 >= 0xE0 && b0 < 0xF0 {
      var b1, b2 := At(bytes, i), At(bytes, i + 1);
      i := i + 2;
      units := [Unit3(b0, b1, b2)];
    } else {
      var b1, b2, b3 := At(bytes, i), At(bytes, i + 1), At(bytes, i + 2);
      i := i + 3;
      units := Units4(b0, b1, b2, b3);
    }
  }

  /** The index loop, which ends on every input, well-formed or not. */
  method Utf8Decode(bytes: seq<Byte>) returns (out: seq<CodeUnit>)
    ensures out == Decoded(bytes)
  {
    out := [];
    var i := 0;
    while i < |bytes|
      invariant 0 <= i
      invariant out + Decoded(From(bytes, i)) == Decoded(bytes)
      decreases |bytes| - i
    {
      var units, next := DecodeOne(bytes, i);
      assert out + (units + Decoded(From(bytes, next))) == (out + units) + Decoded(From(bytes, next));
      out := out + units;
      i := next;
    }
  }

  /** Section 3 of RFC 3629. */
  function Utf8Of(c: Scalar): seq<Byte> {
    if c < 0x80 then [c]
    else if c < 0x800 then [0xC0 + c / 0x40, 0x80 + c % 0x40]
    else if c < 0x1_0000 then [0xE0 + c / 0x1000, 0x80 + c / 0x40 % 0x40, 0x80 + c % 0x40]
    else [0xF0 + c / 0x4_0000, 0x80 + c / 0x1000 % 0x40, 0x80 + c / 0x40 % 0x40, 0x80 + c % 0x40]
  }

  /** Section 2.1 of RFC 2781. */
  function Utf16Of(c: Scalar): seq<CodeUnit> {
    if c < 0x1_0000 then [c]
    else
      var u := c - 0x1_0000;
      [0xD800 + u / 0x400, 0xDC00 + u % 0x400]
  }

  function Utf8Encode(text: seq<Scalar>): seq<Byte> {
    if text == [] then [] else Utf8Of(text[0]) + Utf8Encode(text[1..])
  }

  function Utf16Encode(text: seq<Scalar>): seq<CodeUnit> {
    if text == [] then [] else Utf16Of(text[0]) + Utf16Encode(text[1..])
  }

  lemma TwoByteForm(c: Scalar)
    requires 0x80 <= c < 0x800
    ensures Unit2(0xC0 + c / 0x40, 0x80 + c % 0x40) == c
  {
  }

  lemma ThreeByteForm(c: Scalar)
    requires 0x800 <= c < 0x1_0000
    ensures Unit3(0xE0 + c / 0x1000, 0x80 + c / 0x40 % 0x40, 0x80 + c % 0x40) == c
  {
    assert c / 0x40 == (c / 0x1000) * 0x40 + c / 0x40 % 0x40;
  }

  lemma FourByteForm(c: Scalar)
    requires 0x1_0000 <= c
    ensures Units4(0xF0 + c / 0x4_0000, 0x80 + c / 0x1000 % 0x40, 0x80 + c / 0x40 % 0x40, 0x80 + c % 0x40) == Utf16Of(c)
  {
    SextetsOfScalar(c);
    FourByteDigits(c / 0x4_0000, c / 0x1000 % 0x40, c / 0x40 % 0x40, c % 0x40);
    SurrogatesOfScalar(c);
  }

  lemma SurrogatesOfScalar(c: Scalar)
    requires 0x1_0000 <= c
    ensures SurrogatesOf(c) == Utf16Of(c)
  {
  }

  lemma SextetsOfScalar(c: nat)
    ensures c == (c / 0x4_0000) * 0x4_0000 + (c / 0x1000 % 0x40) * 0x1000 + (c / 0x40 % 0x40) * 0x40 + c % 0x40
  {
    var x := c / 0x40;
    var y := x / 0x40;
    assert c / 0x1000 == y by { assert c == 0x1000 * y + 0x40 * (x % 0x40) + c % 0x40; }
    assert c / 0x4_0000 == y / 0x40 by { assert c == 0x4_0000 * (y / 0x40) + 0x1000 * (y % 0x40) + 0x40 * (x % 0x40) + c % 0x40; }
  }

  lemma FourByteDigits(a: nat, b: nat, d: nat, e: nat)
    requires a < 8 && b < 0x40 && d < 0x40 && e < 0x40
    ensures CodePoint4(0xF0 + a, 0x80 + b, 0x80 + d, 0x80 + e) == a * 0x4_0000 + b * 0x1000 + d * 0x40 + e
  {
  }

  lemma ScalarDecodes(c: Scalar, rest: seq<Byte>)
    ensures Decoded(Utf8Of(c) + rest) == Utf16Of(c) + Decoded(rest)
  {
    var lead := Utf8Of(c);
    var bs := lead + rest;
    assert forall i: nat :: i < |lead| ==> At(bs, i) == lead[i];
    assert From(bs, |lead|) == rest;
    LeadWidth(c);
    ScalarUnits(c, At(bs, 1), At(bs, 2), At(bs, 3));
  }

  lemma LeadWidth(c: Scalar)
    ensures Width(Utf8Of(c)[0]) == |Utf8Of(c)|
  {
  }

  lemma ScalarUnits(c: Scalar, b1: Byte, b2: Byte, b3: Byte)
    requires |Utf8Of(c)| > 1 ==> b1 == Utf8Of(c)[1]
    requires |Utf8Of(c)| > 2 ==> b2 == Utf8Of(c)[2]
    requires |Utf8Of(c)| > 3 ==> b3 == Utf8Of(c)[3]
    ensures UnitsOf(Utf8Of(c)[0], b1, b2, b3) == Utf16Of(c)
  {
    if c < 0x80 {
    } else if c < 0x800 {
      TwoByteForm(c);
    } else if c < 0x1_0000 {
      ThreeByteForm(c);
    } else {
      FourByteForm(c);
    }
  }

  /** Decoding the UTF-8 form of any text gives its UTF-16 form, surrogate pairs included. */
  lemma {:induction false} Utf8RoundTrip(text: seq<Scalar>)
    ensures Decoded(Utf8Encode(text)) == Utf16Encode(text)
  {
    if text != [] {
      Utf8RoundTrip(text[1..]);
      ScalarDecodes(text[0], Utf8Encode(text[1..]));
    }
  }

  method Base64UrlDecode(input: string) returns (out: seq<CodeUnit>)
    ensures out == Decoded(Octets(BitsOfText(input)))
  {
    var bytes := DecodeBytes(input);
    out := Utf8Decode(bytes);
  }

  /** Malformed input: a lead byte cut off reads zeros, and a stray continuation byte is taken as a four-byte lead. */
  lemma MalformedBytes()
    ensures Decoded([0xC3]) == [0xC0] && Decoded([0xE2, 0x82]) == [0x2080]
    ensures Decoded([0x80, 0x41, 0x41, 0x41]) == [0xD7C4, 0xDC41]
    ensures Decoded([0xBF]) == [0xDEC0, 0xDC00]
  {
    assert CodePoint4(0x80, 0x41, 0x41, 0x41) == 0x1041;
    assert CodePoint4(0xBF, 0, 0, 0) == 0x1C_0000;
  }

  /** The whole decoder on the whole encoding of any text. */
  lemma PayloadRoundTrip(text: seq<Scalar>, padding: string)
    requires padding == "" || padding[0] == '='
    ensures Decoded(Octets(BitsOfText(Base64UrlEncode(Utf8Encode(text)) + padding))) == Utf16Encode(text)
  {
    Base64RoundTrip(Utf8Encode(text), padding);
    Utf8RoundTrip(text);
  }
}
