/** How the backend names its parts (backend.py), and which deposition purposes can collide with a fragment. */
module PartNames {
  import opened BackendModel

  /** The purposes the dispatcher lets through to a deposition (DEPOSITION_PURPOSES). */
  const DEPOSITION_PURPOSES := ["preflight_deposition", "protection", "needle_joint", "target_joint"]

  const FIXED_NAMES := ["source_base", "source_bridge", "needle", "target", "coupon"]

  function Numbered(stem: string, n: nat): string { stem + "_" + Decimal(n) }

  /** A name some sample part may bear: "sample" after any number of cuts, each into at most six fragments. */
  ghost predicate SampleName(name: string)
    decreases |name|
  {
    name == "sample" || exists stem: string, k: nat :: |stem| < |name| && CutName(stem, k, name) && SampleName(stem)
  }

  predicate CutName(stem: string, k: nat, name: string) { 1 <= k <= 6 && name == FragmentName(stem, k) }

  /** A purpose that is a sample part's name followed by "_cut". */
  ghost predicate Unsafe(purpose: string) { exists stem: string :: SampleName(stem) && purpose == stem + "_cut" }

  // ---- Numbers at the end of a name ------------------------------------------------------

  predicate IsDigit(c: char) { '0' <= c <= '9' }

  lemma {:induction false} DecimalDigits(n: nat)
    ensures |Decimal(n)| >= 1 && forall i :: 0 <= i < |Decimal(n)| ==> IsDigit(Decimal(n)[i])
  {
    if n >= 10 {
      DecimalDigits(n / 10);
    }
  }

  lemma {:induction false} DecimalInjective(m: nat, n: nat)
    requires Decimal(m) == Decimal(n)
    ensures m == n
  {
    if m < 10 || n < 10 {
      DecimalLength(m);
      DecimalLength(n);
    } else {
      var a, b := Decimal(m / 10), Decimal(n / 10);
      assert Decimal(m)[..|a|] == a && Decimal(n)[..|b|] == b;
      assert Decimal(m)[|a|] == Digit(m % 10) && Decimal(n)[|b|] == Digit(n % 10);
      DecimalInjective(m / 10, n / 10);
    }
  }

  lemma {:induction false} DecimalLength(n: nat)
    ensures |Decimal(n)| >= 1 && (|Decimal(n)| == 1 <==> n < 10)
  {
    if n >= 10 {
      DecimalLength(n / 10);
    }
  }

  lemma UnderscoreInside(p: string, a: string, q: string, b: string)
    requires p + "_" + a == q + "_" + b && |a| < |b|
    ensures b[|b| - |a| - 1] == '_'
  {
    assert (p + "_" + a)[|p|] == '_' && (q + "_" + b)[|p|] == b[|b| - |a| - 1];
  }

  /** A text splits in one way into a stem, an underscore and a run of digits. */
  lemma SplitOnce(p: string, a: string, q: string, b: string)
    requires p + "_" + a == q + "_" + b && |a| <= |b|
    requires forall i :: 0 <= i < |b| ==> IsDigit(b[i])
    ensures p == q && a == b
  {
    if |a| < |b| {
      UnderscoreInside(p, a, q, b);
    }
    var s := p + "_" + a;
    assert s[..|p|] == p && s[..|q|] == q && s[|p| + 1..] == a && s[|q| + 1..] == b;
  }

  lemma NumberedInjective(p: string, m: nat, q: string, n: nat)
    requires Numbered(p, m) == Numbered(q, n)
    ensures p == q && m == n
  {
    hide Decimal;
    var a, b := Decimal(m), Decimal(n);
    DecimalDigits(m);
    DecimalDigits(n);
    if |a| <= |b| {
      SplitOnce(p, a, q, b);
    } else {
      SplitOnce(q, b, p, a);
    }
    DecimalInjective(m, n);
  }

  lemma FragmentIsNumbered(stem: string, k: nat)
    ensures FragmentName(stem, k) == Numbered(stem + "_cut", k)
  {
    hide Decimal;
    assert stem + "_cut_" + Decimal(k) == stem + "_cut" + "_" + Decimal(k);
  }

  lemma EndsInDigit(p: string, n: nat)
    ensures |Numbered(p, n)| >= 2 && IsDigit(Numbered(p, n)[|Numbered(p, n)| - 1])
  {
    hide Decimal;
    DecimalDigits(n);
  }

  // ---- Which names may meet --------------------------------------------------------------

  lemma FixedEndInLetter(name: string)
    requires name in FIXED_NAMES || name == "sample"
    ensures |name| >= 1 && !IsDigit(name[|name| - 1])
  {
  }

  /** A numbered name is never one of the fixed ones. */
  lemma NumberedNotFixed(p: string, n: nat)
    ensures Numbered(p, n) !in FIXED_NAMES && Numbered(p, n) != "sample"
  {
    hide Numbered, FIXED_NAMES;
    EndsInDigit(p, n);
    if Numbered(p, n) in FIXED_NAMES || Numbered(p, n) == "sample" {
      FixedEndInLetter(Numbered(p, n));
    }
  }

  /** A deposition can take a sample part's name exactly when its purpose is unsafe. */
  lemma UnsafeIff(purpose: string)
    ensures Unsafe(purpose) <==> exists n: nat :: 1 <= n <= 6 && SampleName(Numbered(purpose, n))
    ensures (exists n: nat :: SampleName(Numbered(purpose, n))) ==> Unsafe(purpose)
  {
    hide Numbered, FragmentName;
    if Unsafe(purpose) {
      var stem: string :| SampleName(stem) && purpose == stem + "_cut";
      FragmentIsNumbered(stem, 1);
      LongerFragment(stem, 1);
      assert CutName(stem, 1, Numbered(purpose, 1));
      assert SampleName(Numbered(purpose, 1));
    }
    if n: nat :| SampleName(Numbered(purpose, n)) {
      SampleNameIsUnsafe(purpose, n);
    }
  }

  lemma LongerFragment(stem: string, k: nat)
    ensures |stem| < |FragmentName(stem, k)|
  {
  }

  lemma SampleNameIsUnsafe(purpose: string, n: nat)
    requires SampleName(Numbered(purpose, n))
    ensures Unsafe(purpose)
  {
    hide Numbered, FragmentName;
    NumberedNotFixed(purpose, n);
    var stem: string, k: nat :| |stem| < |Numbered(purpose, n)| && CutName(stem, k, Numbered(purpose, n)) && SampleName(stem);
    FragmentIsNumbered(stem, k);
    NumberedInjective(purpose, n, stem + "_cut", k);
  }

  lemma {:induction false} SampleNameStarts(name: string)
    requires SampleName(name)
    ensures "sample" <= name
    decreases |name|
  {
    if name != "sample" {
      var stem: string, k: nat :| |stem| < |name| && CutName(stem, k, name) && SampleName(stem);
      SampleNameStarts(stem);
      StemFirst(stem, k);
    }
  }

  lemma StemFirst(stem: string, k: nat)
    ensures stem <= FragmentName(stem, k)
  {
  }

  lemma UnsafeStarts(purpose: string)
    requires Unsafe(purpose)
    ensures |purpose| >= 1 && purpose[0] == 's'
  {
    var stem: string :| SampleName(stem) && purpose == stem + "_cut";
    SampleNameStarts(stem);
    assert stem[0] == "sample"[0];
  }

  /** None of the dispatcher's purposes is unsafe. */
  lemma DispatchedAreSafe(purpose: string)
    requires purpose in DEPOSITION_PURPOSES
    ensures !Unsafe(purpose)
  {
    hide Unsafe;
    assert |purpose| >= 1 && purpose[0] != 's';
    if Unsafe(purpose) {
      UnsafeStarts(purpose);
    }
  }

  lemma FixedStart(name: string)
    requires name in FIXED_NAMES
    ensures !("sample" <= name)
  {
    if "sample" <= name {
      SecondLetter(name);
    }
  }

  lemma SecondLetter(name: string)
    requires "sample" <= name
    ensures name[0] == 's' && name[1] == 'a'
  {
    assert name[0] == "sample"[0] && name[1] == "sample"[1];
  }
}
