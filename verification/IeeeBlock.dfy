/** Definite-length arbitrary blocks of signed bytes: the scope's CURVE? answer (instruments.py) and the
    oracle's reader (reconstruct.py), per section 8.7.9 of IEEE Std 488.2-1992. */
module IeeeBlock {
  import opened Wrappers

  type Byte = b: int | 0 <= b < 256

  const HASH: Byte := 35
  const ZERO: Byte := 48

  // ---- Decimal digits --------------------------------------------------------------------

  /** str(n).encode() */
  function Decimal(n: nat): (s: seq<Byte>)
    ensures |s| >= 1
  {
    if n < 10 then [ZERO + n] else Decimal(n / 10) + [ZERO + n % 10]
  }

  predicate IsDigit(b: Byte) { 48 <= b <= 57 }

  predicate AllDigits(s: seq<Byte>) { forall i :: 0 <= i < |s| ==> IsDigit(s[i]) }

  /** int(s) for a string of digits. */
  function Value(s: seq<Byte>): nat
    requires AllDigits(s)
  {
    if s == [] then 0 else Value(s[..|s| - 1]) * 10 + (s[|s| - 1] - 48)
  }

  function Power(n: nat): nat { if n == 0 then 1 else 10 * Power(n - 1) }

  lemma {:induction false} DecimalValue(n: nat)
    ensures AllDigits(Decimal(n)) && Value(Decimal(n)) == n
  {
    if n >= 10 {
      DecimalValue(n / 10);
      assert Decimal(n)[..|Decimal(n)| - 1] == Decimal(n / 10);
    } else {
      assert Decimal(n)[..0] == [];
    }
  }

  lemma {:induction false} DecimalLength(n: nat, d: nat)
    requires n < Power(d) && d >= 1
    ensures |Decimal(n)| <= d
  {
    assert Power(1) == 10 * Power(0);
    if n >= 10 {
      DecimalLength(n / 10, d - 1);
    }
  }

  /** s.zfill(width) */
  function Padded(s: seq<Byte>, width: nat): (r: seq<Byte>)
    ensures |r| == if |s| < width then width else |s|
    decreases width - |s|
  {
    if |s| >= width then s else Padded([ZERO] + s, width)
  }

  lemma {:induction false} LeadingZero(s: seq<Byte>)
    requires AllDigits(s)
    ensures AllDigits([ZERO] + s) && Value([ZERO] + s) == Value(s)
  {
    var t := [ZERO] + s;
    if s == [] {
      assert t[..0] == [];
    } else {
      assert t[..|t| - 1] == [ZERO] + s[..|s| - 1];
      LeadingZero(s[..|s| - 1]);
    }
  }

  lemma {:induction false} PaddedValue(s: seq<Byte>, width: nat)
    requires AllDigits(s)
    ensures AllDigits(Padded(s, width)) && Value(Padded(s, width)) == Value(s)
    decreases width - |s|
  {
    if |s| < width {
      LeadingZero(s);
      PaddedValue([ZERO] + s, width);
    }
  }

  // ---- Signed bytes ----------------------------------------------------------------------

  type Code = c: int | -128 <= c < 128

  /** struct.pack("b", c) and its inverse. */
  function Pack(c: Code): Byte { if c < 0 then c + 256 else c }

  function Unpack(b: Byte): Code { if b >= 128 then b - 256 else b }

  function PackAll(codes: seq<Code>): (r: seq<Byte>)
    ensures |r| == |codes| && forall i :: 0 <= i < |r| ==> r[i] == Pack(codes[i])
  {
    seq(|codes|, i requires 0 <= i < |codes| => Pack(codes[i]))
  }

  function UnpackAll(bytes: seq<Byte>): (r: seq<Code>)
    ensures |r| == |bytes| && forall i :: 0 <= i < |r| ==> r[i] == Unpack(bytes[i])
  {
    seq(|bytes|, i requires 0 <= i < |bytes| => Unpack(bytes[i]))
  }

  // ---- Blocks ----------------------------------------------------------------------------

  /** The CURVE? answer, with at least `minimumDigits` length digits. */
  function Encode(codes: seq<Code>, minimumDigits: nat): seq<Byte>
    requires minimumDigits <= 9 && |codes| < Power(9)
  {
    var length := Decimal(|codes|);
    var digits := if minimumDigits < |length| then |length| else minimumDigits;
    DecimalLength(|codes|, 9);
    [HASH] + [ZERO + digits] + Padded(length, digits) + PackAll(codes)
  }

  /** _decode_ieee_signed_bytes. */
  function Decode(block: seq<Byte>): Option<seq<Code>> {
    if |block| < 3 || block[0] != HASH || !(49 <= block[1] <= 57) then None
    else
      var digits := block[1] - 48;
      if |block| < 2 + digits || !AllDigits(block[2..2 + digits]) then None
      else if 2 + digits + Value(block[2..2 + digits]) != |block| then None
      else Some(UnpackAll(block[2 + digits..]))
  }

  lemma Unpacked(codes: seq<Code>)
    ensures UnpackAll(PackAll(codes)) == codes
  {
  }

  lemma Repacked(bytes: seq<Byte>)
    ensures PackAll(UnpackAll(bytes)) == bytes
  {
  }

  /** Where the fields of a block lie. */
  lemma BlockFields(digits: nat, header: seq<Byte>, payload: seq<Byte>)
    requires |header| == digits && digits <= 9
    ensures
      var block := [HASH] + [ZERO + digits] + header + payload;
      block[0] == HASH && block[1] == ZERO + digits && block[2..2 + digits] == header && block[2 + digits..] == payload
  {
  }

  /** Every payload shorter than a thousand million codes reads back, with any allowed number of digits. */
  lemma RoundTrip(codes: seq<Code>, minimumDigits: nat)
    requires minimumDigits <= 9 && |codes| < Power(9)
    ensures Decode(Encode(codes, minimumDigits)) == Some(codes)
  {
    hide Decimal, Padded, Value, Power, AllDigits, Pack, Unpack, PackAll, UnpackAll;
    var length := Decimal(|codes|);
    var digits := if minimumDigits < |length| then |length| else minimumDigits;
    DecimalLength(|codes|, 9);
    DecimalValue(|codes|);
    PaddedValue(length, digits);
    BlockFields(digits, Padded(length, digits), PackAll(codes));
    Unpacked(codes);
  }

  lemma {:induction false} ValueBelow(s: seq<Byte>)
    requires AllDigits(s)
    ensures Value(s) < Power(|s|)
  {
    if s != [] {
      ValueBelow(s[..|s| - 1]);
    }
  }

  lemma {:induction false} PowerGrows(a: nat, b: nat)
    requires a <= b
    ensures 1 <= Power(a) <= Power(b)
  {
    if a < b {
      PowerGrows(a, b - 1);
    } else if a > 0 {
      PowerGrows(a - 1, a - 1);
    }
  }

  lemma LastDigit(a: nat, x: nat, b: nat, y: nat)
    requires x < 10 && y < 10 && a * 10 + x == b * 10 + y
    ensures a == b && x == y
  {
  }

  /** Digits are determined by their number and value. */
  lemma {:induction false} DigitsUnique(s: seq<Byte>, t: seq<Byte>)
    requires AllDigits(s) && AllDigits(t) && |s| == |t| && Value(s) == Value(t)
    ensures s == t
  {
    if s != [] {
      var n := |s| - 1;
      LastDigit(Value(s[..n]), s[n] - 48, Value(t[..n]), t[n] - 48);
      DigitsUnique(s[..n], t[..n]);
      assert s == s[..n] + [s[n]] && t == t[..n] + [t[n]];
    }
  }

  /** Every block the reader accepts is what the writer makes of its codes at that block's digit count. */
  lemma OnlyBlocksAccepted(block: seq<Byte>)
    requires Decode(block).Some?
    ensures
      var codes, digits := Decode(block).value, block[1] - 48;
      1 <= digits <= 9 && |codes| < Power(9) && Encode(codes, digits) == block
  {
    hide Decimal, Padded, Value, Power, AllDigits, Pack, Unpack, PackAll, UnpackAll;
    var codes, digits := Decode(block).value, block[1] - 48;
    var header := block[2..2 + digits];
    ValueBelow(header);
    PowerGrows(digits, 9);
    DecimalLength(|codes|, digits);
    DecimalValue(|codes|);
    PaddedValue(Decimal(|codes|), digits);
    DigitsUnique(Padded(Decimal(|codes|), digits), header);
    Repacked(block[2 + digits..]);
    assert block == [block[0]] + [block[1]] + header + block[2 + digits..];
  }
}
