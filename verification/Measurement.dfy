/** From waveform to verdict: the instruments' readings (dut_world.py, instruments.py) and the oracle's gain and
    cross-check (reconstruct.py), over exact reals. */
module Measurement {
  import opened Wrappers
  import opened RealArithmetic
  import B = IeeeBlock

  function Abs(x: real): real { if x < 0.0 then -x else x }

  // ---- Rounding and noise ----------------------------------------------------------------

  /** round(x): to the nearest integer, halves to the even one. */
  function Round(x: real): int {
    var f := x.Floor;
    var part := x - f as real;
    if part < 0.5 || (part == 0.5 && f % 2 == 0) then f else f + 1
  }

  lemma RoundNear(x: real)
    ensures -0.5 <= Round(x) as real - x <= 0.5
  {
  }

  /** A half is rounded to the even neighbour, everything else to the nearest integer. */
  lemma RoundIs(x: real, n: int)
    ensures Round(x) == n <==> (-0.5 < n as real - x < 0.5) || ((n as real - x == 0.5 || n as real - x == -0.5) && n % 2 == 0)
  {
    HalfEven(x.Floor);
  }

  lemma HalfEven(f: int)
    ensures f % 2 == 0 <==> (f + 1) % 2 == 1
  {
  }

  /** The code sent is the nearest one, or the end of the scale the value lies beyond. */
  lemma CodeIs(value: real)
    ensures
      var n := Round(value / YMULT);
      CodeOf(value) == if n > 127 then 127 else if n < -128 then -128 else n
  {
  }

  const RAW_LIMIT: int := 18446744073709551615

  /** _noise, with `raw` the first eight bytes of the hash. */
  function Noise(raw: int, amplitude: real): real {
    if amplitude == 0.0 then 0.0 else (2.0 * (raw as real / RAW_LIMIT as real) - 1.0) * amplitude
  }

  lemma NoiseBound(raw: int, amplitude: real)
    requires 0 <= raw <= RAW_LIMIT && amplitude >= 0.0
    ensures -amplitude <= Noise(raw, amplitude) <= amplitude
  {
    var unit := raw as real / RAW_LIMIT as real;
    assert 0.0 <= unit <= 1.0;
    var a, b := MulMono(2.0 * unit - 1.0, 1.0, amplitude);
    var c, d := MulMono(-1.0, 2.0 * unit - 1.0, amplitude);
  }

  /** And it reaches both ends, growing with the hash value. */
  lemma NoiseEnds(amplitude: real)
    ensures Noise(0, amplitude) == 0.0 - amplitude && Noise(RAW_LIMIT, amplitude) == amplitude
  {
    assert 0 as real / RAW_LIMIT as real == 0.0 && RAW_LIMIT as real / RAW_LIMIT as real == 1.0;
  }

  // ---- The instruments -------------------------------------------------------------------

  datatype Dut = Dut(gain: real, offset: real, dmmNoise: real, scopeNoise: real)

  const YMULT: real := 0.02

  function Ideal(d: Dut, point: real): real { d.offset + d.gain * point }

  /** CURVE?: the nearest code, clipped to a signed byte. */
  function CodeOf(value: real): B.Code {
    var code := Round(value / YMULT);
    if code < -128 then -128 else if code > 127 then 127 else code
  }

  predicate Unclipped(value: real) { -128 <= Round(value / YMULT) <= 127 }

  /** The oracle's voltage for a code; offset and zero are both 0. */
  function Voltage(code: int): real { code as real * YMULT }

  lemma CodeNear(value: real)
    requires Unclipped(value)
    ensures Abs(Voltage(CodeOf(value)) - value) <= YMULT / 2.0
  {
    RoundNear(value / YMULT);
  }

  /** A reading and what the meter prints for it, in either format: rounded to eight decimals, or to a unit no
      larger than a hundred-millionth of the value. */
  ghost predicate Printed(x: real, y: real) {
    || y == Round(x * 100000000.0) as real / 100000000.0
    || (x == 0.0 && y == 0.0)
    || exists unit: real :: RoundsTo(x, y, unit)
  }

  ghost predicate RoundsTo(x: real, y: real, unit: real) {
    unit > 0.0 && unit * 100000000.0 <= Abs(x) && y == Round(x / unit) as real * unit
  }

  /** What printing can add to an error, for readings of at most `limit` volts. */
  function PrintError(limit: real): real { (if limit < 1.0 then 1.0 else limit) * 0.000000005 }

  lemma PrintNear(x: real, y: real, limit: real)
    requires Printed(x, y) && Abs(x) <= limit
    ensures Abs(y - x) <= PrintError(limit)
  {
    if y == Round(x * 100000000.0) as real / 100000000.0 {
      RoundNear(x * 100000000.0);
    } else if x == 0.0 && y == 0.0 {
    } else {
      var unit :| RoundsTo(x, y, unit);
      ScientificNear(x, y, unit);
    }
  }

  lemma ScientificNear(x: real, y: real, unit: real)
    requires RoundsTo(x, y, unit)
    ensures Abs(y - x) <= unit / 2.0
  {
    var q, n := x / unit, Round(x / unit) as real;
    assert q * unit == x;
    RoundNear(q);
    var a, b := MulMono(n - q, 0.5, unit);
    var c, d := MulMono(-0.5, n - q, unit);
    assert a == n * unit - q * unit;
  }

  /** _resize: the readings repeated cyclically. */
  function Resized(values: seq<real>, count: nat): (r: seq<real>)
    ensures |r| == if values == [] then 0 else count
    ensures count == |values| ==> r == values
  {
    if values == [] then [] else seq(count, i requires 0 <= i => values[Wrapped(i, |values|)])
  }

  function Wrapped(i: nat, n: nat): (r: nat)
    requires n > 0
    ensures r < n && (i < n ==> r == i)
  {
    i % n
  }

  // ---- Peak to peak ----------------------------------------------------------------------

  function Greatest(s: seq<real>): (m: real)
    requires s != []
    ensures m in s && forall i :: 0 <= i < |s| ==> s[i] <= m
  {
    if |s| == 1 then s[0]
    else
      var m, last := Greatest(s[..|s| - 1]), s[|s| - 1];
      assert forall i :: 0 <= i < |s| - 1 ==> s[i] == s[..|s| - 1][i];
      if last > m then last else m
  }

  function Smallest(s: seq<real>): (m: real)
    requires s != []
    ensures m in s && forall i :: 0 <= i < |s| ==> s[i] >= m
  {
    if |s| == 1 then s[0]
    else
      var m, last := Smallest(s[..|s| - 1]), s[|s| - 1];
      assert forall i :: 0 <= i < |s| - 1 ==> s[i] == s[..|s| - 1][i];
      if last < m then last else m
  }

  function Spread(s: seq<real>): real
    requires s != []
  {
    Greatest(s) - Smallest(s)
  }

  ghost predicate Within(a: seq<real>, b: seq<real>, h: real) {
    |a| == |b| && forall i :: 0 <= i < |a| ==> Abs(a[i] - b[i]) <= h
  }

  /** Moving every sample by at most h moves the spread by at most 2h. */
  lemma SpreadNear(a: seq<real>, b: seq<real>, h: real)
    requires a != [] && Within(a, b, h)
    ensures Abs(Spread(a) - Spread(b)) <= 2.0 * h
  {
    hide Greatest, Smallest;
    GreatestNear(a, b, h);
    GreatestNear(b, a, h);
    SmallestNear(a, b, h);
    SmallestNear(b, a, h);
  }

  lemma GreatestNear(a: seq<real>, b: seq<real>, h: real)
    requires a != [] && b != [] && Within(a, b, h)
    ensures Greatest(a) <= Greatest(b) + h
  {
    var i :| 0 <= i < |a| && a[i] == Greatest(a);
    assert b[i] <= Greatest(b);
  }

  lemma SmallestNear(a: seq<real>, b: seq<real>, h: real)
    requires a != [] && b != [] && Within(a, b, h)
    ensures Smallest(b) - h <= Smallest(a)
  {
    var i :| 0 <= i < |a| && a[i] == Smallest(a);
    assert Smallest(b) <= b[i];
  }

  function Ideals(d: Dut, points: seq<real>): (r: seq<real>)
    ensures |r| == |points| && forall i :: 0 <= i < |r| ==> r[i] == Ideal(d, points[i])
  {
    seq(|points|, i requires 0 <= i < |points| => Ideal(d, points[i]))
  }

  /** The two extreme values of a sequence. */
  ghost predicate Extremes(s: seq<real>, top: real, bottom: real) {
    top in s && bottom in s && forall x <- s :: bottom <= x <= top
  }

  lemma SpreadIs(s: seq<real>, top: real, bottom: real)
    requires s != [] && Extremes(s, top, bottom)
    ensures Spread(s) == top - bottom
  {
    assert Greatest(s) == top && Smallest(s) == bottom;
  }

  lemma SpreadHas(s: seq<real>)
    requires s != []
    ensures Extremes(s, Greatest(s), Smallest(s)) && Spread(s) >= 0.0
  {
  }

  /** The device stretches the spread of the waveform by the size of its gain, whatever its sign. */
  lemma IdealSpread(d: Dut, points: seq<real>)
    requires points != []
    ensures Spread(Ideals(d, points)) == Abs(d.gain) * Spread(points)
  {
    hide Greatest, Smallest, Ideal, Extremes, Spread, Abs;
    var high, low := Greatest(points), Smallest(points);
    SpreadHas(points);
    IdealExtremes(d, points, high, low);
    SpreadIs(points, high, low);
    if d.gain >= 0.0 {
      SpreadIs(Ideals(d, points), Ideal(d, high), Ideal(d, low));
    } else {
      SpreadIs(Ideals(d, points), Ideal(d, low), Ideal(d, high));
    }
    IdealDifference(d, high, low);
  }

  lemma IdealExtremes(d: Dut, points: seq<real>, high: real, low: real)
    requires Extremes(points, high, low)
    ensures d.gain >= 0.0 ==> Extremes(Ideals(d, points), Ideal(d, high), Ideal(d, low))
    ensures d.gain < 0.0 ==> Extremes(Ideals(d, points), Ideal(d, low), Ideal(d, high))
  {
    hide Ideal;
    var ideals := Ideals(d, points);
    var i :| 0 <= i < |points| && points[i] == high;
    var k :| 0 <= k < |points| && points[k] == low;
    assert ideals[i] == Ideal(d, high) && ideals[k] == Ideal(d, low);
    forall n | 0 <= n < |ideals|
      ensures d.gain >= 0.0 ==> Ideal(d, low) <= ideals[n] <= Ideal(d, high)
      ensures d.gain < 0.0 ==> Ideal(d, high) <= ideals[n] <= Ideal(d, low)
    {
      assert points[n] in points;
      IdealMono(d, low, points[n]);
      IdealMono(d, points[n], high);
    }
  }

  lemma IdealDifference(d: Dut, p: real, q: real)
    ensures Ideal(d, p) - Ideal(d, q) == d.gain * (p - q)
    ensures d.gain >= 0.0 ==> Abs(d.gain) * (p - q) == Ideal(d, p) - Ideal(d, q)
    ensures d.gain < 0.0 ==> Abs(d.gain) * (p - q) == Ideal(d, q) - Ideal(d, p)
  {
  }

  lemma IdealMono(d: Dut, p: real, q: real)
    requires p <= q
    ensures d.gain >= 0.0 ==> Ideal(d, p) <= Ideal(d, q)
    ensures d.gain < 0.0 ==> Ideal(d, q) <= Ideal(d, p)
  {
    if d.gain >= 0.0 {
      var a, b := MulMono(p, q, d.gain);
    } else {
      var a, b := MulMono(p, q, 0.0 - d.gain);
    }
  }

  // ---- The chain -------------------------------------------------------------------------

  /** The waveform, the hash values behind the two noises, and what the meter printed. */
  datatype Run = Run(points: seq<real>, scopeRaw: seq<int>, dmmRaw: seq<int>, printed: seq<real>)

  function ScopeSample(d: Dut, r: Run, i: nat): real
    requires i < |r.points| && i < |r.scopeRaw|
  {
    Ideal(d, r.points[i]) + Noise(r.scopeRaw[i], d.scopeNoise)
  }

  function DmmSample(d: Dut, r: Run, i: nat): real
    requires i < |r.points| && i < |r.dmmRaw|
  {
    Ideal(d, r.points[i]) + Noise(r.dmmRaw[i], d.dmmNoise)
  }

  predicate Sized(r: Run) { |r.scopeRaw| == |r.points| && |r.dmmRaw| == |r.points| && |r.printed| == |r.points| }

  /** A run the instruments could produce, with no sample clipped. */
  ghost predicate Measured(d: Dut, r: Run) {
    && Sized(r) && r.points != [] && d.scopeNoise >= 0.0 && d.dmmNoise >= 0.0
    && (forall i :: 0 <= i < |r.points| ==> 0 <= r.scopeRaw[i] <= RAW_LIMIT && 0 <= r.dmmRaw[i] <= RAW_LIMIT)
    && (forall i :: 0 <= i < |r.points| ==> Unclipped(ScopeSample(d, r, i)))
    && (forall i :: 0 <= i < |r.points| ==> Printed(DmmSample(d, r, i), r.printed[i]))
  }

  function Codes(d: Dut, r: Run): (c: seq<B.Code>)
    requires Sized(r)
    ensures |c| == |r.points| && forall i :: 0 <= i < |c| ==> c[i] == CodeOf(ScopeSample(d, r, i))
  {
    seq(|r.points|, i requires 0 <= i < |r.points| => CodeOf(ScopeSample(d, r, i)))
  }

  function Voltages(codes: seq<B.Code>): (v: seq<real>)
    ensures |v| == |codes| && forall i :: 0 <= i < |v| ==> v[i] == Voltage(codes[i])
  {
    seq(|codes|, i requires 0 <= i < |codes| => Voltage(codes[i]))
  }

  function WorstError(a: seq<real>, b: seq<real>): (m: real)
    requires |a| == |b| && a != []
    ensures forall i :: 0 <= i < |a| ==> Abs(a[i] - b[i]) <= m
    ensures exists i :: 0 <= i < |a| && m == Abs(a[i] - b[i])
  {
    var n := |a| - 1;
    var e := Abs(a[n] - b[n]);
    if n == 0 then e
    else
      var m := WorstError(a[..n], b[..n]);
      assert forall i :: 0 <= i < n ==> a[..n][i] == a[i] && b[..n][i] == b[i];
      if e > m then e else m
  }

  // ---- Error bounds ----------------------------------------------------------------------

  lemma ScopeNear(d: Dut, r: Run)
    requires Measured(d, r)
    ensures Within(Voltages(Codes(d, r)), Ideals(d, r.points), YMULT / 2.0 + d.scopeNoise)
  {
    hide CodeOf, Noise, Ideal, Unclipped, Printed, Voltage;
    forall i | 0 <= i < |r.points| ensures Abs(Voltages(Codes(d, r))[i] - Ideals(d, r.points)[i]) <= YMULT / 2.0 + d.scopeNoise {
      CodeNear(ScopeSample(d, r, i));
      NoiseBound(r.scopeRaw[i], d.scopeNoise);
    }
  }

  /** Whatever the noise, the reconstructed gain is this close to the size of the true one. */
  lemma GainNear(d: Dut, r: Run)
    requires Measured(d, r) && Spread(r.points) > 0.0
    ensures Abs(Spread(Voltages(Codes(d, r))) / Spread(r.points) - Abs(d.gain)) <= (YMULT + 2.0 * d.scopeNoise) / Spread(r.points)
  {
    hide Measured, Spread, Voltages, Codes, Ideals;
    ScopeNear(d, r);
    CodesLength(d, r);
    SpreadNear(Voltages(Codes(d, r)), Ideals(d, r.points), YMULT / 2.0 + d.scopeNoise);
    IdealSpread(d, r.points);
    var a, g, s := Spread(Voltages(Codes(d, r))), Abs(d.gain), Spread(r.points);
    assert Abs(a - g * s) <= YMULT + 2.0 * d.scopeNoise;
    QuotientNear(a, g, s, YMULT + 2.0 * d.scopeNoise);
  }

  lemma CodesLength(d: Dut, r: Run)
    requires Measured(d, r)
    ensures Sized(r) && |Voltages(Codes(d, r))| == |r.points| > 0
  {
  }

  lemma QuotientNear(a: real, g: real, s: real, e: real)
    requires s > 0.0 && Abs(a - g * s) <= e
    ensures Abs(a / s - g) <= e / s
  {
    var q, t := a / s, e / s;
    assert q * s == a && t * s == e;
    if q - g > t {
      var x, y := MulStrict(t, q - g, s);
    }
    if g - q > t {
      var x, y := MulStrict(t, g - q, s);
    }
  }

  /** An unclipped scope sample bounds the ideal value behind it. */
  lemma IdealBounded(d: Dut, r: Run, i: nat)
    requires Measured(d, r) && i < |r.points|
    ensures Abs(Ideal(d, r.points[i])) <= 128.5 * YMULT + d.scopeNoise
  {
    hide Noise, Ideal, Printed;
    var x := ScopeSample(d, r, i);
    assert Unclipped(x);
    RoundNear(x / YMULT);
    NoiseBound(r.scopeRaw[i], d.scopeNoise);
  }

  /** The two instruments agree to half a code, both noises and the printing. */
  lemma CrossNear(d: Dut, r: Run)
    requires Measured(d, r)
    ensures Sized(r) && WorstError(Voltages(Codes(d, r)), r.printed)
      <= YMULT / 2.0 + d.scopeNoise + d.dmmNoise + PrintError(128.5 * YMULT + d.scopeNoise + d.dmmNoise)
  {
    hide Printed, Noise, Ideal, WorstError, PrintError, Unclipped, CodeOf, Voltage;
    var v := Voltages(Codes(d, r));
    ScopeNear(d, r);
    forall i | 0 <= i < |r.points|
      ensures Abs(v[i] - r.printed[i])
        <= YMULT / 2.0 + d.scopeNoise + d.dmmNoise + PrintError(128.5 * YMULT + d.scopeNoise + d.dmmNoise)
    {
      IdealBounded(d, r, i);
      NoiseBound(r.dmmRaw[i], d.dmmNoise);
      PrintNear(DmmSample(d, r, i), r.printed[i], 128.5 * YMULT + d.scopeNoise + d.dmmNoise);
      assert Abs(v[i] - Ideals(d, r.points)[i]) <= YMULT / 2.0 + d.scopeNoise;
    }
  }
}
