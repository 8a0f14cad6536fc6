/** The oracle's verdict on a measurement (reconstruct.py): what it refuses, what it computes, and which devices it
    accepts. */
module Reconstruction {
  import opened Wrappers
  import opened RealArithmetic
  import opened Measurement
  import B = IeeeBlock

  /** What the evidence holds: the uploaded waveform, the meter's readings, the scope's block and its preamble. */
  datatype Readings = Readings(points: Option<seq<real>>, dmm: Option<seq<real>>, block: Option<seq<B.Byte>>,
                               ymult: Option<real>, yoff: Option<real>, yzero: Option<real>)

  datatype Limits = Limits(gainMin: real, gainMax: real, crossMax: real)

  datatype Verdict = Verdict(codes: seq<B.Code>, voltages: seq<real>, average: real, peakToPeak: real,
                             gain: real, crossError: real, decision: bool)

  function Scaled(codes: seq<B.Code>, ymult: real, yoff: real, yzero: real): (v: seq<real>)
    ensures |v| == |codes| && forall i :: 0 <= i < |v| ==> v[i] == (codes[i] as real - yoff) * ymult + yzero
  {
    seq(|codes|, i requires 0 <= i < |codes| => (codes[i] as real - yoff) * ymult + yzero)
  }

  function Sum(s: seq<real>): real { if s == [] then 0.0 else Sum(s[..|s| - 1]) + s[|s| - 1] }

  function Judge(q: Readings, limits: Limits): Option<Verdict> {
    if q.points.None? || |q.points.value| < 2 || q.dmm.None? || q.dmm.value == [] || q.block.None?
       || q.ymult.None? || q.yoff.None? || q.yzero.None? then None
    else
      var codes := B.Decode(q.block.value);
      if codes.None? || |codes.value| != |q.dmm.value| || Spread(q.points.value) <= 0.0 then None
      else
        var v := Scaled(codes.value, q.ymult.value, q.yoff.value, q.yzero.value);
        var gain := Spread(v) / Spread(q.points.value);
        var error := WorstError(v, q.dmm.value);
        Some(Verdict(codes.value, v, Sum(q.dmm.value) / |q.dmm.value| as real, Spread(v), gain, error,
                     limits.gainMin <= gain <= limits.gainMax && error <= limits.crossMax))
  }

  // ---- The verdict in its own terms --------------------------------------------------------

  /** Everything is there, the block decodes to as many codes as the meter has readings, and the waveform is not flat. */
  ghost predicate Usable(q: Readings) {
    && q.points.Some? && |q.points.value| >= 2 && q.dmm.Some? && q.dmm.value != [] && q.block.Some?
    && q.ymult.Some? && q.yoff.Some? && q.yzero.Some?
    && B.Decode(q.block.value).Some? && |B.Decode(q.block.value).value| == |q.dmm.value|
    && exists i, k :: 0 <= i < k < |q.points.value| && q.points.value[i] != q.points.value[k]
  }

  /** Gain times the waveform's spread is the voltages' spread; the cross error is the greatest difference and occurs;
      and the decision is that gain and error lie within the limits. */
  ghost predicate Tells(q: Readings, limits: Limits, v: Verdict)
    requires Usable(q)
  {
    && B.Decode(q.block.value) == Some(v.codes) && |v.voltages| == |v.codes|
    && (forall i :: 0 <= i < |v.codes| ==> v.voltages[i] == (v.codes[i] as real - q.yoff.value) * q.ymult.value + q.yzero.value)
    && v.average * |q.dmm.value| as real == Sum(q.dmm.value)
    && (exists top, bottom, high, low ::
          && Extremes(v.voltages, top, bottom) && Extremes(q.points.value, high, low)
          && v.peakToPeak == top - bottom && v.gain * (high - low) == top - bottom)
    && (forall i :: 0 <= i < |v.voltages| ==> Abs(v.voltages[i] - q.dmm.value[i]) <= v.crossError)
    && (exists i :: 0 <= i < |v.voltages| && Abs(v.voltages[i] - q.dmm.value[i]) == v.crossError)
    && (v.decision <==> limits.gainMin <= v.gain <= limits.gainMax && v.crossError <= limits.crossMax)
  }

  lemma FlatIffNoSpread(s: seq<real>)
    requires s != []
    ensures Spread(s) > 0.0 <==> exists i, k :: 0 <= i < k < |s| && s[i] != s[k]
  {
    hide Greatest, Smallest;
    SpreadHas(s);
    var top :| 0 <= top < |s| && s[top] == Greatest(s);
    var bottom :| 0 <= bottom < |s| && s[bottom] == Smallest(s);
    if i, k :| 0 <= i < k < |s| && s[i] != s[k] {
      assert s[i] in s && s[k] in s;
    }
  }

  lemma Divided(a: real, b: real)
    requires b != 0.0
    ensures (a / b) * b == a
  {
  }

  /** The verdict is None exactly when something is missing, malformed or flat, and otherwise as Tells says. */
  lemma JudgeLaw(q: Readings, limits: Limits)
    ensures Judge(q, limits).Some? <==> Usable(q)
    ensures Usable(q) ==> Tells(q, limits, Judge(q, limits).value)
  {
    hide B.Decode, Spread, WorstError, Sum, Scaled, Extremes, Tells;
    if q.points.Some? && q.points.value != [] {
      FlatIffNoSpread(q.points.value);
    }
    if Usable(q) {
      JudgeTells(q, limits);
    }
  }

  lemma JudgeFields(q: Readings, limits: Limits)
    requires Usable(q) && Judge(q, limits).Some?
    ensures
      var v, points, dmm := Judge(q, limits).value, q.points.value, q.dmm.value;
      && B.Decode(q.block.value) == Some(v.codes) && v.voltages == Scaled(v.codes, q.ymult.value, q.yoff.value, q.yzero.value)
      && |v.voltages| == |dmm| && Spread(points) > 0.0
      && v.average == Sum(dmm) / |dmm| as real && v.peakToPeak == Spread(v.voltages)
      && v.gain == Spread(v.voltages) / Spread(points) && v.crossError == WorstError(v.voltages, dmm)
      && (v.decision <==> limits.gainMin <= v.gain <= limits.gainMax && v.crossError <= limits.crossMax)
  {
    hide B.Decode, Spread, WorstError, Sum;
  }

  lemma RatioTells(volts: seq<real>, points: seq<real>, gain: real)
    requires volts != [] && points != [] && Spread(points) > 0.0 && gain == Spread(volts) / Spread(points)
    ensures exists top, bottom, high, low ::
      Extremes(volts, top, bottom) && Extremes(points, high, low) && Spread(volts) == top - bottom && gain * (high - low) == top - bottom
  {
    hide Greatest, Smallest, Extremes;
    SpreadHas(volts);
    SpreadHas(points);
    Divided(Spread(volts), Spread(points));
    var top, bottom, high, low := Greatest(volts), Smallest(volts), Greatest(points), Smallest(points);
    assert gain * (high - low) == top - bottom;
  }

  lemma JudgeTells(q: Readings, limits: Limits)
    requires Usable(q) && Judge(q, limits).Some?
    ensures Tells(q, limits, Judge(q, limits).value)
  {
    hide B.Decode, Spread, WorstError, Sum, Extremes, Judge, Usable, Abs;
    NotEmpty(q);
    JudgeFields(q, limits);
    var v := Judge(q, limits).value;
    RatioTells(v.voltages, q.points.value, v.gain);
    Divided(Sum(q.dmm.value), |q.dmm.value| as real);
  }

  lemma NotEmpty(q: Readings)
    requires Usable(q)
    ensures q.points.Some? && q.points.value != [] && q.dmm.Some? && q.dmm.value != [] && q.block.Some?
    ensures q.ymult.Some? && q.yoff.Some? && q.yzero.Some?
  {
    hide B.Decode;
  }

  // ---- Devices -----------------------------------------------------------------------------

  /** The readings of an unclipped run of device d, as the instruments send them. */
  function ReadingsOf(d: Dut, r: Run, minimumDigits: nat): Readings
    requires Sized(r) && |r.points| < B.Power(9) && minimumDigits <= 9
  {
    Readings(Some(r.points), Some(Resized(r.printed, |r.points|)), Some(B.Encode(Codes(d, r), minimumDigits)),
             Some(YMULT), Some(0.0), Some(0.0))
  }

  ghost predicate Recorded(d: Dut, r: Run, minimumDigits: nat) {
    Measured(d, r) && 2 <= |r.points| < B.Power(9) && minimumDigits <= 9 && Spread(r.points) > 0.0
  }

  function CrossLimit(d: Dut): real {
    YMULT / 2.0 + d.scopeNoise + d.dmmNoise + PrintError(128.5 * YMULT + d.scopeNoise + d.dmmNoise)
  }

  lemma ScaledIsVoltages(codes: seq<B.Code>)
    ensures Scaled(codes, YMULT, 0.0, 0.0) == Voltages(codes)
  {
    assert forall i :: 0 <= i < |codes| ==> (codes[i] as real - 0.0) * YMULT + 0.0 == codes[i] as real * YMULT;
  }

  /** Every such run is judged, its gain is that close to the size of the device's, and its cross error that small. */
  lemma RunJudged(d: Dut, r: Run, minimumDigits: nat, limits: Limits)
    requires Recorded(d, r, minimumDigits)
    ensures
      var v := Judge(ReadingsOf(d, r, minimumDigits), limits);
      && v.Some?
      && Abs(v.value.gain - Abs(d.gain)) <= (YMULT + 2.0 * d.scopeNoise) / Spread(r.points)
      && v.value.crossError <= CrossLimit(d)
      && (v.value.decision <==> limits.gainMin <= v.value.gain <= limits.gainMax && v.value.crossError <= limits.crossMax)
  {
    hide Measured, Spread, WorstError, B.Decode, B.Encode, B.Power, Codes, Voltages, Resized, Scaled, Sum, PrintError;
    CodesLength(d, r);
    var codes := Codes(d, r);
    B.RoundTrip(codes, minimumDigits);
    ScaledIsVoltages(codes);
    GainNear(d, r);
    CrossNear(d, r);
  }

  /** GainBound: the verdict's gain is within (ymult + 2 scope noise) / spread of the size of the device's gain. */
  lemma GainBound(d: Dut, r: Run, minimumDigits: nat, limits: Limits)
    requires Recorded(d, r, minimumDigits)
    ensures
      var v := Judge(ReadingsOf(d, r, minimumDigits), limits);
      v.Some? && Abs(v.value.gain - Abs(d.gain)) * Spread(r.points) <= YMULT + 2.0 * d.scopeNoise
  {
    hide Judge, Spread, CrossLimit, Measured, B.Power, Abs;
    RunJudged(d, r, minimumDigits, limits);
    SpreadOf(d, r, minimumDigits);
    var x, e, s := Abs(Judge(ReadingsOf(d, r, minimumDigits), limits).value.gain - Abs(d.gain)), YMULT + 2.0 * d.scopeNoise, Spread(r.points);
    Divided(e, s);
    var a, b := MulMono(x, e / s, s);
  }

  lemma SpreadOf(d: Dut, r: Run, minimumDigits: nat)
    requires Recorded(d, r, minimumDigits)
    ensures r.points != [] && Spread(r.points) > 0.0 && Sized(r)
  {
    hide Spread, B.Power, Unclipped, Printed;
  }

  /** CrossBound: scope and meter differ by at most half a code, both noises and the printing error. */
  lemma CrossBound(d: Dut, r: Run, minimumDigits: nat, limits: Limits)
    requires Recorded(d, r, minimumDigits)
    ensures
      var v := Judge(ReadingsOf(d, r, minimumDigits), limits);
      v.Some? && v.value.crossError <= CrossLimit(d)
  {
    hide Judge, ReadingsOf, Recorded, CrossLimit;
    RunJudged(d, r, minimumDigits, limits);
  }

  /** Every unclipped run of a device whose gain lies outside the limits by more than the measuring error is
      decided False. */
  lemma OutOfLimitsFails(d: Dut, r: Run, minimumDigits: nat, limits: Limits)
    requires Recorded(d, r, minimumDigits)
    requires
      var margin := (YMULT + 2.0 * d.scopeNoise) / Spread(r.points);
      Abs(d.gain) + margin < limits.gainMin || Abs(d.gain) - margin > limits.gainMax
    ensures
      var v := Judge(ReadingsOf(d, r, minimumDigits), limits);
      v.Some? && !v.value.decision
  {
    hide Judge, ReadingsOf, CrossLimit, Recorded, Spread;
    RunJudged(d, r, minimumDigits, limits);
  }

  /** And every one of a device within the limits by that error, and quiet enough, True. A gain of the other sign
      makes no difference. */
  lemma WithinLimitsPasses(d: Dut, r: Run, minimumDigits: nat, limits: Limits)
    requires Recorded(d, r, minimumDigits) && CrossLimit(d) <= limits.crossMax
    requires
      var margin := (YMULT + 2.0 * d.scopeNoise) / Spread(r.points);
      limits.gainMin + margin <= Abs(d.gain) <= limits.gainMax - margin
    ensures
      var v := Judge(ReadingsOf(d, r, minimumDigits), limits);
      v.Some? && v.value.decision
  {
    hide Judge, ReadingsOf, CrossLimit, Recorded, Spread;
    RunJudged(d, r, minimumDigits, limits);
  }

  // ---- The nominal world -----------------------------------------------------------------

  const NOMINAL := Dut(2.0, 0.0, 0.001, 0.002)
  const NOMINAL_LIMITS := Limits(1.97, 2.03, 0.02)

  /** Every unclipped run of the nominal world whose waveform spans at least 0.8 V is decided in its favour. */
  lemma NominalPasses(r: Run, minimumDigits: nat)
    requires Recorded(NOMINAL, r, minimumDigits) && Spread(r.points) >= 0.8
    ensures
      var v := Judge(ReadingsOf(NOMINAL, r, minimumDigits), NOMINAL_LIMITS);
      v.Some? && v.value.decision
  {
    hide Judge, ReadingsOf, Recorded, Spread, Abs, CrossLimit, NOMINAL, NOMINAL_LIMITS;
    SpreadOf(NOMINAL, r, minimumDigits);
    NominalMargin(Spread(r.points));
    WithinLimitsPasses(NOMINAL, r, minimumDigits, NOMINAL_LIMITS);
  }

  lemma NominalMargin(s: real)
    requires s >= 0.8
    ensures CrossLimit(NOMINAL) <= NOMINAL_LIMITS.crossMax
    ensures
      var margin := (YMULT + 2.0 * NOMINAL.scopeNoise) / s;
      NOMINAL_LIMITS.gainMin + margin <= Abs(NOMINAL.gain) <= NOMINAL_LIMITS.gainMax - margin
  {
    Shrinks(0.024, s);
    assert YMULT + 2.0 * NOMINAL.scopeNoise == 0.024;
  }

  lemma Shrinks(e: real, s: real)
    requires e == 0.024 && s >= 0.8
    ensures e / s <= 0.03
  {
    var t := e / s;
    assert t * s == e;
    if t > 0.03 {
      var x, y := MulStrict(0.03, t, s);
    }
  }

  // ---- As the oracle runs ----------------------------------------------------------------

  method PeakToPeak(s: seq<real>) returns (r: real)
    requires s != []
    ensures r == Spread(s)
  {
    hide Greatest, Smallest;
    var top, bottom := s[0], s[0];
    FirstExtreme(s);
    for i := 1 to |s|
      invariant top == Greatest(s[..i]) && bottom == Smallest(s[..i])
    {
      NextExtreme(s, i);
      top := if s[i] > top then s[i] else top;
      bottom := if s[i] < bottom then s[i] else bottom;
    }
    assert s[..|s|] == s;
    r := top - bottom;
  }

  lemma FirstExtreme(s: seq<real>)
    requires s != []
    ensures Greatest(s[..1]) == s[0] && Smallest(s[..1]) == s[0]
  {
  }

  lemma NextExtreme(s: seq<real>, i: nat)
    requires 0 < i < |s|
    ensures Greatest(s[..i + 1]) == if s[i] > Greatest(s[..i]) then s[i] else Greatest(s[..i])
    ensures Smallest(s[..i + 1]) == if s[i] < Smallest(s[..i]) then s[i] else Smallest(s[..i])
  {
    assert s[..i + 1][..i] == s[..i];
  }

  /** sum(dmm) / len(dmm) */
  method Mean(s: seq<real>) returns (m: real)
    requires s != []
    ensures m == Sum(s) / |s| as real
  {
    var total := 0.0;
    for i := 0 to |s|
      invariant total == Sum(s[..i])
    {
      assert s[..i + 1][..i] == s[..i];
      total := total + s[i];
    }
    assert s[..|s|] == s;
    m := total / |s| as real;
  }

  /** The last part of reconstruct. */
  method Reconstruct(q: Readings, limits: Limits) returns (r: Option<Verdict>)
    ensures r == Judge(q, limits)
    ensures r.Some? <==> Usable(q)
    ensures Usable(q) ==> Tells(q, limits, r.value)
  {
    hide Spread, WorstError, B.Decode, Usable, Tells, Sum, Scaled;
    JudgeLaw(q, limits);
    if q.points.None? || |q.points.value| < 2 {
      return None;
    }
    if q.dmm.None? || q.dmm.value == [] {
      return None;
    }
    if q.block.None? || q.ymult.None? || q.yoff.None? || q.yzero.None? {
      return None;
    }
    var codes := B.Decode(q.block.value);
    if codes.None? || |codes.value| != |q.dmm.value| {
      return None;
    }
    var input := PeakToPeak(q.points.value);
    if input <= 0.0 {
      return None;
    }
    var voltages := Scaled(codes.value, q.ymult.value, q.yoff.value, q.yzero.value);
    var output := PeakToPeak(voltages);
    var gain := output / input;
    var error := MaximumError(voltages, q.dmm.value);
    var decision := limits.gainMin <= gain <= limits.gainMax && error <= limits.crossMax;
    var average := Mean(q.dmm.value);
    return Some(Verdict(codes.value, voltages, average, output, gain, error, decision));
  }

  lemma FirstError(a: seq<real>, b: seq<real>)
    requires |a| == |b| && a != []
    ensures WorstError(a[..1], b[..1]) == Abs(a[0] - b[0])
  {
  }

  lemma NextError(a: seq<real>, b: seq<real>, i: nat)
    requires |a| == |b| && 0 < i < |a|
    ensures WorstError(a[..i + 1], b[..i + 1])
         == if Abs(a[i] - b[i]) > WorstError(a[..i], b[..i]) then Abs(a[i] - b[i]) else WorstError(a[..i], b[..i])
  {
    assert a[..i + 1][..i] == a[..i] && b[..i + 1][..i] == b[..i];
  }

  method MaximumError(a: seq<real>, b: seq<real>) returns (m: real)
    requires |a| == |b| && a != []
    ensures m == WorstError(a, b)
  {
    hide WorstError, Abs;
    m := Abs(a[0] - b[0]);
    FirstError(a, b);
    for i := 1 to |a|
      invariant m == WorstError(a[..i], b[..i])
    {
      NextError(a, b, i);
      var e := Abs(a[i] - b[i]);
      m := if e > m then e else m;
    }
    assert a[..|a|] == a && b[..|b|] == b;
  }
}
