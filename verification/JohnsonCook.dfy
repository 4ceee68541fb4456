// The Johnson-Cook flow stress and the bisection that inverts it, from
// backend/src/impact_simulator/impact_simulator.cpp. Doubles are reals; the
// library functions pow and log are parameters.
module JohnsonCook {
  import opened Reals

  datatype Params = Params(A: real, B: real, n: real, C: real, m: real,
                           epsDot0: real, tMelt: real, tRef: real)

  datatype Math = Math(pow: (real, real) -> real, log: real -> real)

  // The loading apart from the stress.
  datatype Loading = Loading(strainRate: real, temperature: real)

  const MIN_STRAIN: real := 0.000001
  const MIN_FACTOR: real := 0.000000001

  function RateFactor(jc: Params, at: Loading, mt: Math): real
    requires jc.epsDot0 != 0.0
  {
    1.0 + jc.C * mt.log(Max(at.strainRate / jc.epsDot0, 1.0))
  }

  function ThermalFactor(jc: Params, at: Loading, mt: Math): real {
    var t := (at.temperature - jc.tRef) / Max(jc.tMelt - jc.tRef, 1.0);
    1.0 - mt.pow(Max(0.0, Min(0.99, t)), jc.m)
  }

  function DynamicFactor(jc: Params, at: Loading, mt: Math): real
    requires jc.epsDot0 != 0.0
  {
    RateFactor(jc, at, mt) * ThermalFactor(jc, at, mt)
  }

  function Hardening(jc: Params, mt: Math, strain: real): real {
    jc.B * mt.pow(strain, jc.n)
  }

  // Strain 0 answers A alone, without the rate and thermal factors.
  function FlowStress(jc: Params, strain: real, at: Loading, mt: Math): real
    requires jc.epsDot0 != 0.0
  {
    if strain <= 0.0 then jc.A
    else (jc.A + Hardening(jc, mt, Max(strain, MIN_STRAIN)))
         * RateFactor(jc, at, mt) * ThermalFactor(jc, at, mt)
  }

  // ---------- the bisection ----------

  datatype Bracket = Bracket(low: real, high: real) {
    function Mid(): real { (low + high) * 0.5 }
  }

  const START := Bracket(MIN_STRAIN, 1.0)

  function Halve(b: Bracket, target: real, jc: Params, mt: Math): Bracket {
    if Hardening(jc, mt, b.Mid()) < target then Bracket(b.Mid(), b.high) else Bracket(b.low, b.Mid())
  }

  function Bisect(b: Bracket, target: real, k: int, jc: Params, mt: Math): Bracket
    decreases k
  {
    if k <= 0 then b else Bisect(Halve(b, target, jc, mt), target, k - 1, jc, mt)
  }

  function FinalBracket(stress: real, iterations: int, jc: Params, at: Loading, mt: Math): Bracket
    requires jc.epsDot0 != 0.0 && DynamicFactor(jc, at, mt) >= MIN_FACTOR
  {
    Bisect(START, stress / DynamicFactor(jc, at, mt) - jc.A, iterations, jc, mt)
  }

  function PlasticStrain(stress: real, iterations: int, jc: Params, at: Loading, mt: Math): real
    requires jc.epsDot0 != 0.0
  {
    var factor := DynamicFactor(jc, at, mt);
    if factor < MIN_FACTOR then 0.0
    else if stress / factor <= jc.A then 0.0
    else FinalBracket(stress, iterations, jc, at, mt).Mid()
  }

  method CalcPlasticStrain(stress: real, iterations: int, jc: Params, at: Loading, mt: Math)
    returns (strain: real)
    requires jc.epsDot0 != 0.0
    ensures strain == PlasticStrain(stress, iterations, jc, at, mt)
  {
    var factor := DynamicFactor(jc, at, mt);
    if factor < MIN_FACTOR {
      return 0.0;
    }
    var equivalent := stress / factor;
    if equivalent <= jc.A {
      return 0.0;
    }
    strain := BisectStrain(equivalent - jc.A, iterations, jc, mt);
  }

  method BisectStrain(target: real, iterations: int, jc: Params, mt: Math) returns (strain: real)
    ensures strain == Bisect(START, target, iterations, jc, mt).Mid()
  {
    var low, high := MIN_STRAIN, 1.0;
    var i := 0;
    while i < iterations
      invariant Bisect(Bracket(low, high), target, iterations - i, jc, mt)
             == Bisect(START, target, iterations, jc, mt)
      invariant i > iterations ==> i == 0
    {
      var mid := (low + high) * 0.5;
      var value := jc.B * mt.pow(mid, jc.n);
      if value < target {
        low := mid;
      } else {
        high := mid;
      }
      i := i + 1;
    }
    return (low + high) * 0.5;
  }

  // ---------- width ----------

  function Pow2(k: int): (p: real)
    ensures p > 0.0
    decreases k
  {
    if k <= 0 then 1.0 else 2.0 * Pow2(k - 1)
  }

  // k doublings of r's width give total.
  predicate Spans(r: Bracket, k: int, total: real) {
    (r.high - r.low) * Pow2(k) == total
  }

  lemma {:induction false} BisectWidth(b: Bracket, target: real, k: int, jc: Params, mt: Math)
    requires b.low < b.high
    ensures var r := Bisect(b, target, k, jc, mt);
            b.low <= r.low < r.high <= b.high && Spans(r, k, b.high - b.low)
    decreases k
  {
    if k > 0 {
      var c := Halve(b, target, jc, mt);
      BisectWidth(c, target, k - 1, jc, mt);
      var w := Bisect(b, target, k, jc, mt).high - Bisect(b, target, k, jc, mt).low;
      assert w * Pow2(k) == 2.0 * (w * Pow2(k - 1));
    }
  }

  // ---------- two runs ----------

  // The same bracket, or the first wholly below the second.
  predicate Ordered(a: Bracket, b: Bracket) {
    a == b || a.high <= b.low
  }

  lemma {:induction false} BisectOrdered(a: Bracket, b: Bracket, s: real, t: real, k: int, jc: Params, mt: Math)
    requires a.low < a.high && b.low < b.high && Ordered(a, b) && s <= t
    ensures Ordered(Bisect(a, s, k, jc, mt), Bisect(b, t, k, jc, mt))
    decreases k
  {
    if k > 0 {
      BisectOrdered(Halve(a, s, jc, mt), Halve(b, t, jc, mt), s, t, k - 1, jc, mt);
    }
  }

  lemma DivMono(a: real, b: real, d: real)
    requires a <= b && d > 0.0
    ensures a / d <= b / d
  {
    assert (b / d - a / d) * d == b - a;
    SignOfFactor(b / d - a / d, d, b - a);
  }

  lemma ScaledLess(a: real, b: real, d: real)
    requires d > 0.0
    ensures a <= b <==> a * d <= b * d
  {
    if a <= b { assert (b - a) * d >= 0.0; } else { assert (a - b) * d > 0.0; }
  }

  lemma Cancel(x: real, d: real)
    requires d != 0.0
    ensures x * d / d == x
  {}

  // A larger stress never yields a smaller strain, for any pow and log at all.
  lemma StrainMonotone(s: real, t: real, iterations: int, jc: Params, at: Loading, mt: Math)
    requires jc.epsDot0 != 0.0 && s <= t
    ensures PlasticStrain(s, iterations, jc, at, mt) <= PlasticStrain(t, iterations, jc, at, mt)
  {
    var d := DynamicFactor(jc, at, mt);
    if d >= MIN_FACTOR {
      DivMono(s, t, d);
      var x, y := s / d - jc.A, t / d - jc.A;
      BisectOrdered(START, START, x, y, iterations, jc, mt);
      BisectWidth(START, x, iterations, jc, mt);
      BisectWidth(START, y, iterations, jc, mt);
    }
  }

  // The strain is 0 exactly for a stress at or below the yield A (scaled), or a
  // vanishing factor; any other answer is a strain the bisection can reach.
  lemma StrainRange(stress: real, iterations: int, jc: Params, at: Loading, mt: Math)
    requires jc.epsDot0 != 0.0
    ensures var e := PlasticStrain(stress, iterations, jc, at, mt);
            var d := DynamicFactor(jc, at, mt);
            (e == 0.0 <==> d < MIN_FACTOR || stress <= jc.A * d)
            && (e != 0.0 ==> MIN_STRAIN < e < 1.0)
  {
    var d := DynamicFactor(jc, at, mt);
    if d >= MIN_FACTOR {
      assert stress / d * d == stress;
      ScaledLess(stress / d, jc.A, d);
      BisectWidth(START, stress / d - jc.A, iterations, jc, mt);
    }
  }

  // ---------- inverting the flow stress ----------

  lemma FlowAtStrain(jc: Params, strain: real, at: Loading, mt: Math)
    requires jc.epsDot0 != 0.0 && strain >= MIN_STRAIN
    ensures FlowStress(jc, strain, at, mt)
         == (jc.A + Hardening(jc, mt, strain)) * DynamicFactor(jc, at, mt)
  {}

  // Comparing hardening with the target is comparing flow stress with stress.
  lemma TargetIsStress(jc: Params, strain: real, stress: real, at: Loading, mt: Math)
    requires jc.epsDot0 != 0.0 && strain >= MIN_STRAIN && DynamicFactor(jc, at, mt) >= MIN_FACTOR
    ensures var target := stress / DynamicFactor(jc, at, mt) - jc.A;
            (Hardening(jc, mt, strain) <= target <==> FlowStress(jc, strain, at, mt) <= stress)
            && (target <= Hardening(jc, mt, strain) <==> stress <= FlowStress(jc, strain, at, mt))
  {
    var d := DynamicFactor(jc, at, mt);
    FlowAtStrain(jc, strain, at, mt);
    var h := jc.A + Hardening(jc, mt, strain);
    assert stress / d * d == stress;
    ScaledLess(h, stress / d, d);
    ScaledLess(stress / d, h, d);
  }

  lemma {:induction false} BisectEncloses(b: Bracket, target: real, k: int, jc: Params, mt: Math)
    requires Hardening(jc, mt, b.low) <= target <= Hardening(jc, mt, b.high)
    ensures var r := Bisect(b, target, k, jc, mt);
            Hardening(jc, mt, r.low) <= target <= Hardening(jc, mt, r.high)
    decreases k
  {
    if k > 0 { BisectEncloses(Halve(b, target, jc, mt), target, k - 1, jc, mt); }
  }

  // A stress between the flow stresses at the two ends of the search stays
  // enclosed by the flow stresses at the ends of every later bracket.
  lemma FlowEncloses(stress: real, iterations: int, jc: Params, at: Loading, mt: Math)
    requires jc.epsDot0 != 0.0 && DynamicFactor(jc, at, mt) >= MIN_FACTOR
    requires FlowStress(jc, MIN_STRAIN, at, mt) <= stress <= FlowStress(jc, 1.0, at, mt)
    ensures var r := FinalBracket(stress, iterations, jc, at, mt);
            FlowStress(jc, r.low, at, mt) <= stress <= FlowStress(jc, r.high, at, mt)
  {
    var target := stress / DynamicFactor(jc, at, mt) - jc.A;
    TargetIsStress(jc, MIN_STRAIN, stress, at, mt);
    TargetIsStress(jc, 1.0, stress, at, mt);
    BisectEncloses(START, target, iterations, jc, mt);
    BisectWidth(START, target, iterations, jc, mt);
    var r := FinalBracket(stress, iterations, jc, at, mt);
    TargetIsStress(jc, r.low, stress, at, mt);
    TargetIsStress(jc, r.high, stress, at, mt);
  }

  // What is asked of pow where the exponent and B are positive.
  ghost predicate PowerLaw(jc: Params, mt: Math) {
    && jc.B > 0.0
    && (forall x: real :: x > 0.0 ==> mt.pow(x, jc.n) > 0.0)
    && (forall x: real, y: real :: 0.0 < x < y ==> mt.pow(x, jc.n) < mt.pow(y, jc.n))
  }

  lemma HardeningIncreasing(x: real, y: real, jc: Params, mt: Math)
    requires PowerLaw(jc, mt) && 0.0 < x && 0.0 < y
    ensures Hardening(jc, mt, x) < Hardening(jc, mt, y) <==> x < y
    ensures Hardening(jc, mt, x) > 0.0
  {
    var p, q := mt.pow(x, jc.n), mt.pow(y, jc.n);
    ScaledPower(jc.B, p, q, Hardening(jc, mt, x), Hardening(jc, mt, y));
  }

  lemma ScaledPower(b: real, p: real, q: real, bp: real, bq: real)
    requires b > 0.0 && p > 0.0 && bp == b * p && bq == b * q
    ensures bp > 0.0 && (bp < bq <==> p < q)
  {
    PositiveProduct(b, p, bp);
    FactorOrder(q, p, b, bp);
    if p < q { PositiveProduct(q - p, b, bq - bp); }
  }

  // The bracket closes in on the point where hardening meets the target, or on
  // the end of the search nearest to it.
  lemma {:induction false} BisectTraps(b: Bracket, strain: real, target: real, k: int, jc: Params, mt: Math)
    requires PowerLaw(jc, mt) && 0.0 < b.low < b.high && b.low <= strain <= b.high
    requires target == Hardening(jc, mt, strain)
    ensures var r := Bisect(b, target, k, jc, mt); r.low <= strain <= r.high
    decreases k
  {
    if k > 0 {
      HardeningIncreasing(b.Mid(), strain, jc, mt);
      BisectTraps(Halve(b, target, jc, mt), strain, target, k - 1, jc, mt);
    }
  }

  // |e - strain| <= (1 - 1e-6) / 2^(k+1)
  predicate Within(e: real, strain: real, k: nat) {
    var err := (e - strain) * Pow2(k + 1);
    -(1.0 - MIN_STRAIN) <= err <= 1.0 - MIN_STRAIN
  }

  lemma MidpointError(r: Bracket, strain: real, k: nat)
    requires r.low <= strain <= r.high && Spans(r, k, 1.0 - MIN_STRAIN)
    ensures Within(r.Mid(), strain, k)
  {
    var p, w, e := Pow2(k), r.high - r.low, r.Mid() - strain;
    assert Pow2(k + 1) == 2.0 * p;
    DoubledError(e, w, p, w * p);
  }

  lemma DoubledError(e: real, w: real, p: real, total: real)
    requires -w <= 2.0 * e <= w && p > 0.0 && total == w * p
    ensures -total <= e * (2.0 * p) <= total
  {
    FactorOrder(w, 2.0 * e, p, 2.0 * e * p);
    FactorOrder(-w, 2.0 * e, p, 2.0 * e * p);
    assert -w * p == -total && e * (2.0 * p) == 2.0 * e * p;
  }

  lemma BisectAccurate(strain: real, k: nat, jc: Params, mt: Math)
    requires PowerLaw(jc, mt) && MIN_STRAIN <= strain <= 1.0
    ensures Within(Bisect(START, Hardening(jc, mt, strain), k, jc, mt).Mid(), strain, k)
  {
    var h := Hardening(jc, mt, strain);
    BisectTraps(START, strain, h, k, jc, mt);
    BisectWidth(START, h, k, jc, mt);
    MidpointError(Bisect(START, h, k, jc, mt), strain, k);
  }

  lemma FlowStressTarget(strain: real, jc: Params, at: Loading, mt: Math)
    requires jc.epsDot0 != 0.0 && DynamicFactor(jc, at, mt) >= MIN_FACTOR && strain >= MIN_STRAIN
    ensures FlowStress(jc, strain, at, mt) / DynamicFactor(jc, at, mt) == jc.A + Hardening(jc, mt, strain)
  {
    FlowAtStrain(jc, strain, at, mt);
    Cancel(jc.A + Hardening(jc, mt, strain), DynamicFactor(jc, at, mt));
  }

  lemma StrainOfFlow(strain: real, k: nat, jc: Params, at: Loading, mt: Math)
    requires jc.epsDot0 != 0.0 && DynamicFactor(jc, at, mt) >= MIN_FACTOR && PowerLaw(jc, mt)
    requires strain >= MIN_STRAIN
    ensures PlasticStrain(FlowStress(jc, strain, at, mt), k, jc, at, mt)
         == Bisect(START, Hardening(jc, mt, strain), k, jc, mt).Mid()
  {
    FlowStressTarget(strain, jc, at, mt);
    HardeningIncreasing(strain, strain, jc, mt);
  }

  // Loading a material to a strain and asking for the strain of that stress
  // gives it back within (1 - 1e-6) / 2^(k+1).
  lemma FlowStressInverted(strain: real, k: nat, jc: Params, at: Loading, mt: Math)
    requires jc.epsDot0 != 0.0 && DynamicFactor(jc, at, mt) >= MIN_FACTOR && PowerLaw(jc, mt)
    requires MIN_STRAIN <= strain <= 1.0
    ensures Within(PlasticStrain(FlowStress(jc, strain, at, mt), k, jc, at, mt), strain, k)
  {
    BisectAccurate(strain, k, jc, mt);
    StrainOfFlow(strain, k, jc, at, mt);
  }

  lemma {:induction false} BisectClimbs(b: Bracket, target: real, k: int, jc: Params, mt: Math)
    requires PowerLaw(jc, mt) && 0.0 < b.low < b.high && Hardening(jc, mt, b.high) < target
    ensures Bisect(b, target, k, jc, mt).high == b.high
    decreases k
  {
    if k > 0 {
      HardeningIncreasing(b.Mid(), b.high, jc, mt);
      BisectClimbs(Halve(b, target, jc, mt), target, k - 1, jc, mt);
    }
  }

  // A stress above the flow stress at strain 1 is answered with the largest
  // strain the search can return.
  lemma StrainSaturates(stress: real, k: nat, jc: Params, at: Loading, mt: Math)
    requires jc.epsDot0 != 0.0 && DynamicFactor(jc, at, mt) >= MIN_FACTOR && PowerLaw(jc, mt)
    requires stress > FlowStress(jc, 1.0, at, mt)
    ensures (1.0 - PlasticStrain(stress, k, jc, at, mt)) * Pow2(k + 1) == 1.0 - MIN_STRAIN
  {
    var d := DynamicFactor(jc, at, mt);
    var target := stress / d - jc.A;
    TargetIsStress(jc, 1.0, stress, at, mt);
    HardeningIncreasing(1.0, 1.0, jc, mt);
    BisectClimbs(START, target, k, jc, mt);
    BisectWidth(START, target, k, jc, mt);
    var r := Bisect(START, target, k, jc, mt);
    assert 1.0 - r.Mid() == (r.high - r.low) * 0.5;
    assert Pow2(k + 1) == 2.0 * Pow2(k);
    assert (r.high - r.low) * 0.5 * (2.0 * Pow2(k)) == (r.high - r.low) * Pow2(k);
  }

  // ---------- temperature and rate ----------

  // What is asked of pow for the thermal exponent.
  ghost predicate Softens(jc: Params, mt: Math) {
    && mt.pow(0.0, jc.m) == 0.0 && mt.pow(1.0, jc.m) == 1.0
    && forall x: real, y: real {:trigger mt.pow(x, jc.m), mt.pow(y, jc.m)} ::
         0.0 <= x <= y <= 1.0 ==> mt.pow(x, jc.m) <= mt.pow(y, jc.m)
  }

  // What is asked of log.
  ghost predicate Hardens(jc: Params, mt: Math) {
    && jc.C >= 0.0 && jc.epsDot0 > 0.0 && mt.log(1.0) == 0.0
    && forall x: real, y: real {:trigger mt.log(x), mt.log(y)} :: 1.0 <= x <= y ==> mt.log(x) <= mt.log(y)
  }

  lemma QuotientAtMostOne(x: real, d: real)
    requires x <= d && d > 0.0
    ensures x / d <= 1.0
  {
    DivMono(x, d, d);
    SelfQuotient(d);
  }

  lemma SlowFactor(jc: Params, at: Loading, mt: Math)
    requires jc.epsDot0 > 0.0 && at.strainRate <= jc.epsDot0 && mt.log(1.0) == 0.0
    ensures RateFactor(jc, at, mt) == 1.0
  {
    QuotientAtMostOne(at.strainRate, jc.epsDot0);
    ZeroTimes(mt.log(1.0), jc.C);
  }

  lemma ColdFactor(jc: Params, at: Loading, mt: Math)
    requires at.temperature <= jc.tRef && mt.pow(0.0, jc.m) == 0.0
    ensures ThermalFactor(jc, at, mt) == 1.0
  {
    var d := Max(jc.tMelt - jc.tRef, 1.0);
    DivMono(at.temperature - jc.tRef, 0.0, d);
  }

  // At the reference temperature or below, and no faster than the reference
  // rate, the yield stress is A itself.
  lemma YieldsAtA(stress: real, iterations: int, jc: Params, at: Loading, mt: Math)
    requires at.temperature <= jc.tRef && mt.pow(0.0, jc.m) == 0.0
    requires jc.epsDot0 > 0.0 && at.strainRate <= jc.epsDot0 && mt.log(1.0) == 0.0
    ensures PlasticStrain(stress, iterations, jc, at, mt) == 0.0 <==> stress <= jc.A
  {
    SlowFactor(jc, at, mt);
    ColdFactor(jc, at, mt);
    StrainRange(stress, iterations, jc, at, mt);
  }

  // There the flow stress is the static hardening curve.
  lemma StaticFlow(strain: real, jc: Params, at: Loading, mt: Math)
    requires at.temperature <= jc.tRef && mt.pow(0.0, jc.m) == 0.0
    requires jc.epsDot0 > 0.0 && at.strainRate <= jc.epsDot0 && mt.log(1.0) == 0.0
    ensures FlowStress(jc, strain, at, mt) == if strain <= 0.0 then jc.A
            else jc.A + jc.B * mt.pow(if strain < 0.000001 then 0.000001 else strain, jc.n)
  {
    SlowFactor(jc, at, mt);
    ColdFactor(jc, at, mt);
  }

  function Homologous(jc: Params, at: Loading): (t: real)
    ensures 0.0 <= t <= 0.99
  {
    Max(0.0, Min(0.99, (at.temperature - jc.tRef) / Max(jc.tMelt - jc.tRef, 1.0)))
  }

  lemma ThermalOrder(jc: Params, cold: Loading, hot: Loading, mt: Math)
    requires Softens(jc, mt) && cold.temperature <= hot.temperature
    ensures 0.0 <= ThermalFactor(jc, hot, mt) <= ThermalFactor(jc, cold, mt)
  {
    DivMono(cold.temperature - jc.tRef, hot.temperature - jc.tRef, Max(jc.tMelt - jc.tRef, 1.0));
    assert Homologous(jc, cold) <= Homologous(jc, hot) <= 1.0;
    assert mt.pow(Homologous(jc, cold), jc.m) <= mt.pow(Homologous(jc, hot), jc.m) <= mt.pow(1.0, jc.m);
  }

  lemma RateOrder(jc: Params, slow: Loading, fast: Loading, mt: Math)
    requires Hardens(jc, mt) && slow.strainRate <= fast.strainRate
    ensures 1.0 <= RateFactor(jc, slow, mt) <= RateFactor(jc, fast, mt)
  {
    DivMono(slow.strainRate, fast.strainRate, jc.epsDot0);
    var x, y := Max(slow.strainRate / jc.epsDot0, 1.0), Max(fast.strainRate / jc.epsDot0, 1.0);
    assert mt.log(1.0) <= mt.log(x) <= mt.log(y);
    ProductOrder(mt.log(x), mt.log(y), jc.C);
    ProductOrder(0.0, mt.log(x), jc.C);
  }

  // Of two loadings the weaker one strains more.
  lemma WeakerStrainsMore(stress: real, iterations: int, jc: Params, strong: Loading, weak: Loading, mt: Math)
    requires jc.epsDot0 != 0.0 && stress >= 0.0
    requires MIN_FACTOR <= DynamicFactor(jc, weak, mt) <= DynamicFactor(jc, strong, mt)
    ensures PlasticStrain(stress, iterations, jc, strong, mt) <= PlasticStrain(stress, iterations, jc, weak, mt)
  {
    var d, e := DynamicFactor(jc, strong, mt), DynamicFactor(jc, weak, mt);
    SmallerDivisor(stress, e, d);
    var x, y := stress / d - jc.A, stress / e - jc.A;
    BisectOrdered(START, START, x, y, iterations, jc, mt);
    BisectWidth(START, x, iterations, jc, mt);
    BisectWidth(START, y, iterations, jc, mt);
  }

  lemma SmallerDivisor(x: real, e: real, d: real)
    requires x >= 0.0 && 0.0 < e <= d
    ensures x / d <= x / e
  {
    var q := x / e;
    assert q * e == x;
    SignOfFactor(q, e, x);
    ProductOrder(e, d, q);
    assert d * q >= x;
    DivMono(x, q * d, d);
    Cancel(q, d);
  }

  // Heat softens: for a stress that is not negative, and a factor that stays
  // above the guard, a hotter loading never yields a smaller strain.
  lemma HotterStrainsMore(stress: real, iterations: int, jc: Params, cold: Loading, hot: Loading, mt: Math)
    requires jc.epsDot0 != 0.0 && stress >= 0.0 && Softens(jc, mt)
    requires cold.temperature <= hot.temperature && cold.strainRate == hot.strainRate
    requires DynamicFactor(jc, hot, mt) >= 0.000000001
    ensures PlasticStrain(stress, iterations, jc, cold, mt) <= PlasticStrain(stress, iterations, jc, hot, mt)
  {
    ThermalOrder(jc, cold, hot, mt);
    FactorsAre(jc, cold, mt, RateFactor(jc, hot, mt), ThermalFactor(jc, cold, mt));
    FactorsAre(jc, hot, mt, RateFactor(jc, hot, mt), ThermalFactor(jc, hot, mt));
    LargerPart(RateFactor(jc, hot, mt), ThermalFactor(jc, hot, mt), ThermalFactor(jc, cold, mt),
               DynamicFactor(jc, hot, mt), DynamicFactor(jc, cold, mt));
    WeakerStrainsMore(stress, iterations, jc, cold, hot, mt);
  }

  predicate IsProduct(d: real, r: real, t: real) { d == r * t }

  lemma FactorsAre(jc: Params, at: Loading, mt: Math, r: real, t: real)
    requires jc.epsDot0 != 0.0 && r == RateFactor(jc, at, mt) && t == ThermalFactor(jc, at, mt)
    ensures IsProduct(DynamicFactor(jc, at, mt), r, t)
  {}

  // With a positive product, a larger second factor makes it larger.
  lemma LargerPart(r: real, t: real, u: real, d: real, e: real)
    requires IsProduct(d, r, t) && IsProduct(e, r, u) && d > 0.0 && 0.0 <= t <= u
    ensures d <= e
  {
    if t == 0.0 { ZeroTimes(t, r); }
    SignOfFactor(r, t, d);
    ProductOrder(t, u, r);
  }

  // Speed hardens: under the same guard a faster loading never yields a larger
  // strain.
  lemma FasterStrainsLess(stress: real, iterations: int, jc: Params, slow: Loading, fast: Loading, mt: Math)
    requires stress >= 0.0 && Hardens(jc, mt)
    requires slow.temperature == fast.temperature && slow.strainRate <= fast.strainRate
    requires DynamicFactor(jc, slow, mt) >= 0.000000001
    ensures PlasticStrain(stress, iterations, jc, fast, mt) <= PlasticStrain(stress, iterations, jc, slow, mt)
  {
    RateOrder(jc, slow, fast, mt);
    var t := ThermalFactor(jc, slow, mt);
    SignOfFactor(t, RateFactor(jc, slow, mt), DynamicFactor(jc, slow, mt));
    ProductOrder(RateFactor(jc, slow, mt), RateFactor(jc, fast, mt), t);
    WeakerStrainsMore(stress, iterations, jc, fast, slow, mt);
  }

  // With thermal exponent 1 the flow stress falls on a straight line from the
  // reference temperature towards the melting point, to a hundredth of it.
  lemma LinearSoftening(strain: real, jc: Params, cold: Loading, at: Loading, mt: Math)
    requires jc.epsDot0 != 0.0 && strain > 0.0 && cold.strainRate == at.strainRate
    requires forall x: real :: 0.0 <= x <= 1.0 ==> mt.pow(x, jc.m) == x
    requires cold.temperature == jc.tRef && jc.tMelt - jc.tRef >= 1.0
    ensures jc.tRef <= at.temperature <= jc.tRef + 0.99 * (jc.tMelt - jc.tRef) ==>
      FlowStress(jc, strain, at, mt)
      == FlowStress(jc, strain, cold, mt) * ((jc.tMelt - at.temperature) / (jc.tMelt - jc.tRef))
    ensures at.temperature >= jc.tRef + 0.99 * (jc.tMelt - jc.tRef) ==>
      FlowStress(jc, strain, at, mt) == FlowStress(jc, strain, cold, mt) * 0.01
  {
    ColdFactor(jc, cold, mt);
    LinearFactor(jc, at, mt);
  }

  lemma LinearFactor(jc: Params, at: Loading, mt: Math)
    requires forall x: real :: 0.0 <= x <= 1.0 ==> mt.pow(x, jc.m) == x
    requires jc.tMelt - jc.tRef >= 1.0
    ensures jc.tRef <= at.temperature <= jc.tRef + 0.99 * (jc.tMelt - jc.tRef) ==>
      ThermalFactor(jc, at, mt) == (jc.tMelt - at.temperature) / (jc.tMelt - jc.tRef)
    ensures at.temperature >= jc.tRef + 0.99 * (jc.tMelt - jc.tRef) ==> ThermalFactor(jc, at, mt) == 1.0 - 0.99
  {
    var d, x := jc.tMelt - jc.tRef, at.temperature - jc.tRef;
    var t := x / d;
    assert t * d == x;
    PartOf(t, d, x);
    QuotientIs(1.0 - t, d, jc.tMelt - at.temperature);
    assert Homologous(jc, at) == Max(0.0, Min(0.99, t));
  }

  lemma PartOf(t: real, d: real, x: real)
    requires d > 0.0 && x == t * d
    ensures 0.0 <= x <= 0.99 * d ==> 0.0 <= t <= 0.99
    ensures x >= 0.99 * d ==> t >= 0.99
  {
    SameSign(t, d);
    assert (0.99 - t) * d == 0.99 * d - x;
    SameSign(0.99 - t, d);
    SameSign(t - 0.99, d);
  }

  // Above the reference rate the flow stress carries the factor 1 + C log of
  // the ratio of the rates.
  lemma RateHardening(strain: real, jc: Params, at: Loading, mt: Math)
    requires jc.epsDot0 > 0.0 && at.strainRate >= jc.epsDot0 && strain >= 0.000001
    requires at.temperature <= jc.tRef && mt.pow(0.0, jc.m) == 0.0
    ensures FlowStress(jc, strain, at, mt)
         == (jc.A + jc.B * mt.pow(strain, jc.n)) * (1.0 + jc.C * mt.log(at.strainRate / jc.epsDot0))
  {
    ColdFactor(jc, at, mt);
    DivMono(jc.epsDot0, at.strainRate, jc.epsDot0);
    SelfQuotient(jc.epsDot0);
  }
}
