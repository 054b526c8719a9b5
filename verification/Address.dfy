/**
 IPv4 addresses and masks as text and back, the way the network options carry them: decimal
 numbers, dotted quads and prefix lengths (RFC 4632, section 3.1).
 */
module Address {
  import opened Common

  type Byte = x: int | 0 <= x < 256

  /** An address, or the nil address, which prints as `<nil>`. */
  datatype IP = NoIP | V4(a: Byte, b: Byte, c: Byte, d: Byte)

  // ---------------------------------------------------------------- decimal numbers

  function Digit(n: nat): char
    requires n < 10
  {
    '0' + n as char
  }

  predicate IsDigit(c: char) {
    '0' <= c <= '9'
  }

  function Decimal(n: nat): (s: string)
    ensures s != []
  {
    if n < 10 then [Digit(n)] else Decimal(n / 10) + [Digit(n % 10)]
  }

  predicate StartsWithDigit(s: string) {
    s != [] && IsDigit(s[0])
  }

  /** The value of the leading digits of `s` after `acc`, and how many digits there are. */
  function Leading(s: string, acc: nat): (r: (nat, nat))
    ensures r.1 <= |s|
  {
    if StartsWithDigit(s) then
      var r := Leading(s[1..], acc * 10 + (s[0] as int - '0' as int));
      (r.0, r.1 + 1)
    else (acc, 0)
  }

  /** Reading a printed number back, whatever follows it. */
  lemma {:induction false} LeadingDecimal(n: nat, rest: string)
    ensures Leading(Decimal(n) + rest, 0) == (Leading(rest, n).0, |Decimal(n)| + Leading(rest, n).1)
    decreases n
  {
    if n < 10 {
      assert (Decimal(n) + rest)[1..] == rest;
    } else {
      var d := [Digit(n % 10)];
      LeadingDecimal(n / 10, d + rest);
      assert Decimal(n / 10) + (d + rest) == Decimal(n) + rest;
      assert (d + rest)[1..] == rest;
    }
  }

  lemma {:induction false} DecimalDigits(n: nat)
    ensures forall i | 0 <= i < |Decimal(n)| :: IsDigit(Decimal(n)[i])
  {
    if n >= 10 { DecimalDigits(n / 10); }
  }

  /** Go's limit for numbers inside addresses. */
  const BIG := 0xFFFFFF

  /** dtoi: the number at the start of `s` and the rest; no digits or too large a number is an error. */
  function Dtoi(s: string): Option<(nat, string)> {
    var r := Leading(s, 0);
    if r.1 == 0 || r.0 >= BIG then None else Some((r.0, s[r.1..]))
  }

  lemma DtoiDecimal(n: nat, rest: string)
    requires n < BIG && !StartsWithDigit(rest)
    ensures Dtoi(Decimal(n) + rest) == Some((n, rest))
  {
    LeadingDecimal(n, rest);
    assert (Decimal(n) + rest)[|Decimal(n)|..] == rest;
  }

  /** strconv.Atoi: an optional sign and nothing but digits, within 64 bits. */
  function Atoi(s: string): Option<int> {
    var t := if s != [] && (s[0] == '-' || s[0] == '+') then s[1..] else s;
    var r := Leading(t, 0);
    if r.1 == 0 || r.1 != |t| then None
    else
      var n: int := r.0;
      var v := if s[0] == '-' then 0 - n else n;
      if -0x8000_0000_0000_0000 <= v < 0x8000_0000_0000_0000 then Some(v) else None
  }

  lemma AtoiDecimal(n: nat)
    requires n < 0x8000_0000_0000_0000
    ensures Atoi(Decimal(n)) == Some(n)
  {
    DecimalDigits(n);
    LeadingDecimal(n, []);
    assert Decimal(n) + [] == Decimal(n);
  }

  /** `%d` of an integer. */
  function IntText(v: int): string {
    if v < 0 then ['-'] + Decimal(-v) else Decimal(v)
  }

  /** Every number of 64 bits is read back from its text. */
  lemma AtoiIntText(v: int)
    requires -0x8000_0000_0000_0000 <= v < 0x8000_0000_0000_0000
    ensures Atoi(IntText(v)) == Some(v)
  {
    if v >= 0 {
      AtoiDecimal(v);
    } else {
      LeadingDecimal(-v, []);
      assert Decimal(-v) + [] == Decimal(-v);
      assert IntText(v)[1..] == Decimal(-v);
    }
  }

  // ---------------------------------------------------------------- dotted quads

  function IPText(ip: IP): string {
    match ip
    case NoIP => "<nil>"
    case V4(a, b, c, d) => Decimal(a) + ['.'] + (Decimal(b) + ['.'] + (Decimal(c) + ['.'] + Decimal(d)))
  }

  /** One octet, and the dot after it unless it is the last. */
  function ParseOctet(s: string, last: bool): Option<(Byte, string)> {
    var n := Dtoi(s);
    if n.None? || n.value.0 > 255 then None
    else if last then Some((n.value.0, n.value.1))
    else if n.value.1 == [] || n.value.1[0] != '.' then None
    else Some((n.value.0, n.value.1[1..]))
  }

  function ParseIPv4(s: string): IP {
    var a := ParseOctet(s, false);
    if a.None? then NoIP else
      var b := ParseOctet(a.value.1, false);
      if b.None? then NoIP else
        var c := ParseOctet(b.value.1, false);
        if c.None? then NoIP else
          var d := ParseOctet(c.value.1, true);
          if d.None? || d.value.1 != [] then NoIP
          else V4(a.value.0, b.value.0, c.value.0, d.value.0)
  }

  /** net.ParseIP: the first dot or colon decides the family; IPv6 is not part of this model. */
  function ParseIP(s: string): IP {
    if FirstMark(s) == '.' then ParseIPv4(s) else NoIP
  }

  function FirstMark(s: string): char {
    if s == [] then ' '
    else if s[0] == '.' || s[0] == ':' then s[0]
    else FirstMark(s[1..])
  }

  lemma ParseOctetText(v: Byte, rest: string)
    ensures ParseOctet(Decimal(v) + ['.'] + rest, false) == Some((v, rest))
    ensures ParseOctet(Decimal(v), true) == Some((v, []))
  {
    assert Decimal(v) + ['.'] + rest == Decimal(v) + (['.'] + rest);
    DtoiDecimal(v, ['.'] + rest);
    assert (['.'] + rest)[1..] == rest;
    DtoiDecimal(v, []);
    assert Decimal(v) + [] == Decimal(v);
  }

  lemma {:induction false} FirstMarkText(p: string, rest: string)
    requires forall i | 0 <= i < |p| :: IsDigit(p[i])
    ensures FirstMark(p + ['.'] + rest) == '.'
  {
    var s := p + ['.'] + rest;
    if p != [] {
      assert s[1..] == p[1..] + ['.'] + rest;
      FirstMarkText(p[1..], rest);
    }
  }

  /** Every IPv4 address is read back from its text, and the nil address never parses. */
  lemma IPRoundTrip(ip: IP)
    ensures ParseIP(IPText(ip)) == ip
    ensures ip != NoIP ==> ParseIPv4(IPText(ip)) == ip
  {
    match ip
    case NoIP =>
      assert FirstMark("<nil>") == ' ' by { assert FirstMark("nil>") == ' '; }
    case V4(a, b, c, d) =>
      var t2 := Decimal(c) + ['.'] + Decimal(d);
      var t1 := Decimal(b) + ['.'] + t2;
      ParseOctetText(a, t1);
      ParseOctetText(b, t2);
      ParseOctetText(c, Decimal(d));
      ParseOctetText(d, []);
      DecimalDigits(a);
      FirstMarkText(Decimal(a), t1);
  }

  // ---------------------------------------------------------------- masks

  /** The ones at the top of a byte, or -1 when a one follows a zero. */
  function Ones(v: Byte): (n: int)
    ensures -1 <= n <= 8
    decreases v
  {
    OnesAux(v, 8)
  }

  /** A byte shifted left by one. */
  function Shl(v: Byte): Byte {
    if v >= 128 then v * 2 - 256 else v * 2
  }

  /** As the loop that shifts the byte left while its top bit is set; at most `left` more rounds. */
  function OnesAux(v: Byte, left: nat): (n: int)
    ensures -1 <= n <= left
    decreases left
  {
    if v >= 128 && left > 0 then
      var n := OnesAux(Shl(v), left - 1);
      if n < 0 then -1 else n + 1
    else if v == 0 then 0
    else -1
  }

  /** The length of the prefix of ones, or -1 when the mask is not ones followed by zeros. */
  function MaskLength(m: seq<Byte>): (n: int)
    ensures -1 <= n <= 8 * |m|
  {
    if m == [] then 0
    else if m[0] == 255 then
      var n := MaskLength(m[1..]);
      if n < 0 then -1 else n + 8
    else
      var n := Ones(m[0]);
      if n < 0 || exists i :: 1 <= i < |m| && m[i] != 0 then -1 else n
  }

  /** net.IPMask.Size: the prefix length and the number of bits, both 0 for a mask that has none. */
  function Size(m: seq<Byte>): (nat, nat) {
    var n := MaskLength(m);
    if n < 0 then (0, 0) else (n, 8 * |m|)
  }

  const POW2: seq<int> := [1, 2, 4, 8, 16, 32, 64, 128, 256]

  /** net.CIDRMask for `width` bytes. */
  function PrefixMask(ones: nat, width: nat): (m: seq<Byte>)
    ensures |m| == width
    decreases width
  {
    if width == 0 then []
    else if ones >= 8 then [255] + PrefixMask(ones - 8, width - 1)
    else [256 - POW2[8 - ones]] + PrefixMask(0, width - 1)
  }

  /** Bit `i` of a byte, counted from the top. */
  predicate BitOf(v: Byte, i: nat)
    requires i < 8
    decreases i
  {
    if i == 0 then v >= 128 else BitOf(Shl(v), i - 1)
  }

  /** Bit `i` of a mask, counted from the top. */
  predicate Bit(m: seq<Byte>, i: nat)
    requires i < 8 * |m|
  {
    BitOf(m[i / 8], i % 8)
  }

  /** The mask selects exactly the first `n` bits. */
  ghost predicate IsPrefix(m: seq<Byte>, n: nat) {
    forall i | 0 <= i < 8 * |m| :: Bit(m, i) <==> i < n
  }

  function PrefixByte(k: nat): Byte
    requires k <= 8
  {
    256 - POW2[8 - k]
  }

  lemma Pow2Doubles(i: nat)
    requires i < 8
    ensures POW2[i + 1] == 2 * POW2[i]
  {
  }

  /** A byte whose first `j` bits are `k` ones and then zeros lies close above the prefix byte. */
  lemma {:induction false} TopBits(v: Byte, j: nat, k: nat)
    requires k <= j <= 8 && forall i | 0 <= i < j :: BitOf(v, i) <==> i < k
    ensures PrefixByte(k) <= v < PrefixByte(k) + POW2[8 - j]
    decreases j
  {
    if j > 0 {
      var l := if k > 0 then k - 1 else 0;
      assert BitOf(v, 0) <==> v >= 128;
      forall i | 0 <= i < j - 1 ensures BitOf(Shl(v), i) <==> i < l { assert BitOf(v, i + 1) <==> i + 1 < k; }
      TopBits(Shl(v), j - 1, l);
      if k > 0 { Pow2Doubles(8 - k); }
      Pow2Doubles(8 - j);
    }
  }

  lemma {:induction false} PrefixByteHasBits(k: nat, i: nat)
    requires k <= 8 && i < 8
    ensures BitOf(PrefixByte(k), i) <==> i < k
    decreases i
  {
    if i > 0 {
      var l := if k > 0 then k - 1 else 0;
      if k > 0 { Pow2Doubles(8 - k); }
      assert Shl(PrefixByte(k)) == PrefixByte(l);
      PrefixByteHasBits(l, i - 1);
    }
  }

  ghost predicate HeadIsPrefix(v: Byte, k: nat) {
    forall i | 0 <= i < 8 :: BitOf(v, i) <==> i < k
  }

  lemma PrefixByteBits(v: Byte, k: nat)
    requires k <= 8
    ensures v == PrefixByte(k) <==> HeadIsPrefix(v, k)
  {
    if HeadIsPrefix(v, k) { TopBits(v, 8, k); }
    forall i | 0 <= i < 8 ensures BitOf(PrefixByte(k), i) <==> i < k { PrefixByteHasBits(k, i); }
    assert HeadIsPrefix(PrefixByte(k), k);
  }

  lemma {:induction false} OnesOfPrefixByte(k: nat, left: nat)
    requires k <= left <= 8
    ensures OnesAux(PrefixByte(k), left) == k
    decreases left
  {
    if k > 0 {
      Pow2Doubles(8 - k);
      assert Shl(PrefixByte(k)) == PrefixByte(k - 1);
      OnesOfPrefixByte(k - 1, left - 1);
    }
  }

  lemma {:induction false} OnesMeansPrefixByte(v: Byte, left: nat)
    requires left <= 8 && OnesAux(v, left) >= 0
    ensures v == PrefixByte(OnesAux(v, left))
    decreases left
  {
    if v >= 128 && left > 0 {
      var n := OnesAux(Shl(v), left - 1);
      OnesMeansPrefixByte(Shl(v), left - 1);
      Pow2Doubles(7 - n);
    }
  }

  lemma {:induction false} ZeroMask(m: seq<Byte>)
    ensures m == PrefixMask(0, |m|) <==> forall i | 0 <= i < |m| :: m[i] == 0
  {
    if m != [] {
      ZeroMask(m[1..]);
      assert m == [m[0]] + m[1..];
      assert forall i | 1 <= i < |m| :: m[i] == m[1..][i - 1];
    }
  }

  /** Size recognises exactly the masks that CIDRMask makes, and gives their prefix length. */
  lemma {:induction false} MaskLengthIsInverse(m: seq<Byte>, n: nat)
    requires n <= 8 * |m|
    ensures MaskLength(m) == n <==> m == PrefixMask(n, |m|)
    decreases |m|
  {
    if m != [] {
      var t := m[1..];
      assert m == [m[0]] + t;
      if m[0] == 255 && n >= 8 {
        MaskLengthIsInverse(t, n - 8);
      } else if m[0] == 255 {
        assert PrefixMask(n, |m|)[0] == PrefixByte(n);
      } else if n >= 8 {
        assert PrefixMask(n, |m|)[0] == 255;
        if Ones(m[0]) == 8 { OnesMeansPrefixByte(m[0], 8); }
      } else {
        ZeroMask(t);
        assert forall i | 1 <= i < |m| :: m[i] == t[i - 1];
        OnesOfPrefixByte(n, 8);
        if Ones(m[0]) >= 0 { OnesMeansPrefixByte(m[0], 8); }
        assert PrefixMask(n, |m|) == [PrefixByte(n)] + PrefixMask(0, |t|);
      }
    }
  }

  lemma BitOfTail(m: seq<Byte>, i: nat)
    requires 8 <= i < 8 * |m|
    ensures Bit(m, i) == Bit(m[1..], i - 8)
  {
    assert (i - 8) / 8 == i / 8 - 1 && (i - 8) % 8 == i % 8;
  }

  lemma BitOfHead(m: seq<Byte>, i: nat)
    requires i < 8 <= 8 * |m|
    ensures Bit(m, i) == BitOf(m[0], i)
  {
  }

  lemma PrefixParts(m: seq<Byte>, n: nat, k: nat)
    requires m != [] && n <= 8 * |m| && k == (if n >= 8 then 8 else n) && IsPrefix(m, n)
    ensures HeadIsPrefix(m[0], k) && IsPrefix(m[1..], n - k)
  {
    forall i | 0 <= i < 8 ensures BitOf(m[0], i) <==> i < k { BitOfHead(m, i); }
    forall i | 0 <= i < 8 * |m[1..]| ensures Bit(m[1..], i) <==> i < n - k {
      BitOfTail(m, i + 8);
      assert Bit(m, i + 8) <==> i + 8 < n;
    }
  }

  lemma PrefixJoins(m: seq<Byte>, n: nat, k: nat)
    requires m != [] && n <= 8 * |m| && k == (if n >= 8 then 8 else n)
    requires HeadIsPrefix(m[0], k) && IsPrefix(m[1..], n - k)
    ensures IsPrefix(m, n)
  {
    forall i | 0 <= i < 8 * |m| ensures Bit(m, i) <==> i < n {
      if i >= 8 {
        BitOfTail(m, i);
        assert Bit(m[1..], i - 8) <==> i - 8 < n - k;
      } else {
        BitOfHead(m, i);
        assert BitOf(m[0], i) <==> i < k;
      }
    }
  }

  lemma {:induction false} PrefixMaskBits(m: seq<Byte>, n: nat)
    requires n <= 8 * |m|
    ensures m == PrefixMask(n, |m|) <==> IsPrefix(m, n)
    decreases |m|
  {
    if m != [] {
      var t := m[1..];
      var k := if n >= 8 then 8 else n;
      PrefixByteBits(m[0], k);
      PrefixMaskBits(t, n - k);
      if IsPrefix(m, n) { PrefixParts(m, n, k); }
      if HeadIsPrefix(m[0], k) && IsPrefix(t, n - k) { PrefixJoins(m, n, k); }
      assert m == [m[0]] + t;
      assert PrefixMask(n, |m|) == [PrefixByte(k)] + PrefixMask(n - k, |t|);
    }
  }

  /** A mask has a length exactly when its ones all come first, and the length is their number. */
  lemma SizeMeaning(m: seq<Byte>, n: nat)
    requires n <= 8 * |m|
    ensures MaskLength(m) == n <==> IsPrefix(m, n)
  {
    MaskLengthIsInverse(m, n);
    PrefixMaskBits(m, n);
  }
}
