// The vehicle record shared by backend/src/vr_assault/vr_assault_engine.cpp and
// backend/src/user_session/user_session_manager.cpp: hits, vibration and motion
// as functions of the record, and the laws of damage and pose.
module VehicleState {
  import opened Collections
  import opened Reals

  type Id = string

  datatype Vibration = Vibration(magnitude: nat, amplitude: real, pitch: real, roll: real, yaw: real,
                                 frequency: real, duration: real, decayRate: real, force: real, seat: real,
                                 shake: real, audio: real, started: int)

  const STILL: Vibration := Vibration(0, 0.0, 0.0, 0.0, 0.0, 0.0, 0.0, 0.0, 0.0, 0.0, 0.0, 0.0, 0)

  datatype Pose = Pose(roll: real, pitch: real, bounce: real, steering: real, throttle: real)

  const LEVEL: Pose := Pose(0.0, 0.0, 0.0, 0.0, 0.0)

  datatype Motion = Motion(x: real, y: real, heading: real, speed: real, distance: real)

  const PARKED: Motion := Motion(0.0, 30.0, 180.0, 0.0, 0.0)

  datatype Vehicle = Vehicle(id: Id, motion: Motion, health: real, armor: real, impacts: nat, timestamp: int,
                             vibration: Vibration, pose: Pose)

  function NewVehicle(id: Id, now: int): Vehicle {
    Vehicle(id, PARKED, 100.0, 100.0, 0, now, STILL, LEVEL)
  }

  // Unharmed and at rest, 30 m down the y axis and facing 180 degrees.
  predicate AsNew(v: Vehicle, id: Id) {
    && v.id == id && v.health == 100.0 && v.armor == 100.0 && v.impacts == 0
    && v.motion == Motion(0.0, 30.0, 180.0, 0.0, 0.0)
    && v.vibration.amplitude == 0.0 && v.vibration.decayRate == 0.0 && v.pose == Pose(0.0, 0.0, 0.0, 0.0, 0.0)
  }

  datatype Profile = Profile(maxSpeedKmh: real, roofThickness: real, length: real, width: real)

  // The library functions and the configuration the engines call.
  datatype World = World(exp: real -> real, cos: real -> real, sin: real -> real, sqrt: real -> real,
                         profile: string -> Profile)

  // Non-positive arguments give a factor in (0, 1].
  ghost predicate Damping(exp: real -> real) {
    forall x: real :: x <= 0.0 ==> 0.0 < exp(x) <= 1.0
  }

  // ---------- random draws and attacks ----------

  datatype Draw = Draw(mass: real, velocity: real, x: real, y: real, level: nat, base: real, pitchFactor: real,
                       generatedAt: int, appliedAt: int)

  datatype Attack = Attack(event: nat, session: Id, at: int, mass: real, velocity: real, damage: real,
                           shock: Vibration)

  function RoofLength(p: Profile): real { if p.length > 0.0 then p.length else 6.5 }
  function RoofWidth(p: Profile): real { if p.width > 0.0 then p.width else 2.8 }

  function BaseRange(level: nat): (real, real) {
    match level
    case 0 => (0.0, 2.0)
    case 1 => (2.0, 5.0)
    case 2 => (5.0, 12.0)
    case 3 => (12.0, 25.0)
    case _ => (25.0, 50.0)
  }

  // The ranges the distributions draw from.
  predicate Fair(d: Draw, p: Profile) {
    && 10.0 <= d.mass <= 100.0 && 8.0 <= d.velocity <= 20.0
    && -RoofLength(p) / 2.0 <= d.x <= RoofLength(p) / 2.0
    && -RoofWidth(p) / 2.0 <= d.y <= RoofWidth(p) / 2.0
    && BaseRange(d.level).0 <= d.base <= BaseRange(d.level).1
    && 0.8 <= d.pitchFactor <= 1.2
  }

  function ArmorFactor(p: Profile): (f: real)
    ensures 0.3 <= f <= 1.0
  {
    if p.roofThickness > 0.0 then
      ThickRoof(p.roofThickness);
      Max(0.3, 100.0 / (100.0 + p.roofThickness * 0.5))
    else 1.0
  }

  lemma ThickRoof(t: real)
    requires t > 0.0
    ensures 0.0 < 100.0 / (100.0 + t * 0.5) <= 1.0
  {
    var d := 100.0 + t * 0.5;
    assert 100.0 / d * d == 100.0;
  }

  function Damage(d: Draw, p: Profile): real {
    d.base * ArmorFactor(p)
  }

  lemma DamageRange(d: Draw, p: Profile)
    requires Fair(d, p)
    ensures 0.3 * BaseRange(d.level).0 <= Damage(d, p) <= BaseRange(d.level).1
    ensures 0.0 <= Damage(d, p) <= 50.0
  {
    var f := ArmorFactor(p);
    FactorOrder(0.3, f, d.base, Damage(d, p));
    FactorOrder(1.0, f, d.base, Damage(d, p));
  }

  function BaseShock(level: nat): Vibration {
    match level
    case 0 => Vibration(0, 0.1, 0.05, 0.05, 0.0, 20.0, 80.0, 2.0, 0.5, 0.02, 0.0, 0.0, 0)
    case 1 => Vibration(1, 0.8, 0.3, 0.4, 0.0, 18.0, 200.0, 2.5, 2.0, 0.08, 1.0, 0.0, 0)
    case 2 => Vibration(2, 3.5, 1.2, 1.8, 0.0, 14.0, 500.0, 1.8, 8.0, 0.25, 3.0, 0.0, 0)
    case 3 => Vibration(3, 12.0, 3.5, 5.0, 0.0, 10.0, 1400.0, 1.2, 35.0, 0.70, 8.0, 0.0, 0)
    case _ => Vibration(4, 30.0, 8.0, 12.0, 0.0, 7.0, 3000.0, 0.8, 120.0, 1.80, 20.0, 0.0, 0)
  }

  // The side of the roof that was hit decides the sign of the roll.
  function ShockRoll(level: nat, y: real, width: real): real
    requires width > 0.0
  {
    var at := (y + width / 2.0) / width;
    var roll := BaseShock(level).roll;
    if at < 0.33 then Abs(roll) else if at > 0.67 then -Abs(roll) else roll
  }

  function Shock(level: nat, velocity: real, y: real, width: real, pitchFactor: real, audio: real, now: int): Vibration
    requires width > 0.0
  {
    var base := BaseShock(level);
    var roll := ShockRoll(level, y, width);
    base.(roll := roll, pitch := base.pitch * pitchFactor, yaw := roll * 0.3, audio := audio,
          force := base.force * Max(0.5, velocity / 14.0), started := now)
  }

  // What the attacks of one volley have in common.
  datatype Barrage = Barrage(session: Id, profile: Profile, multiplier: real, audio: nat -> real,
                             decay: Option<real>, firstEvent: nat)

  function Generate(w: World, b: Barrage, d: Draw, k: nat): Attack {
    var velocity := d.velocity * w.sqrt(b.multiplier);
    Attack(b.firstEvent + k, b.session, d.generatedAt, d.mass * b.multiplier, velocity, Damage(d, b.profile),
           Shock(d.level, velocity, d.y, RoofWidth(b.profile), d.pitchFactor, b.audio(d.level), d.generatedAt))
  }

  const PI: real := 3.14159265358979323846

  // ---------- one hit ----------

  function Blend(cv: Vibration, shock: Vibration): Vibration {
    var total := cv.amplitude + shock.amplitude;
    if total > 0.0 then
      var c, n := cv.amplitude / total, shock.amplitude / total;
      Vibration(
        if shock.magnitude > cv.magnitude then shock.magnitude else cv.magnitude,
        total,
        cv.pitch * c + shock.pitch * n,
        cv.roll * c + shock.roll * n,
        cv.yaw * c + shock.yaw * n,
        Max(cv.frequency, shock.frequency),
        Max(cv.duration, shock.duration),
        Min(if cv.decayRate > 0.0 then cv.decayRate else 100.0, shock.decayRate),
        cv.force * c + shock.force * n,
        cv.seat * c + shock.seat * n,
        cv.shake * c + shock.shake * n,
        Max(cv.audio, shock.audio),
        cv.started)
    else shock
  }

  function Absorbed(v: Vehicle, damage: real): real {
    if v.armor > 0.0 then Min(v.armor, damage * 0.8) else 0.0
  }

  function HealthLoss(v: Vehicle, damage: real): real {
    if v.armor > 0.0 then Max(0.0, damage - Absorbed(v, damage) * 0.5) else damage
  }

  function ApplyAttack(v: Vehicle, a: Attack, now: int): Vehicle {
    var cv := Blend(v.vibration, a.shock).(started := a.at);
    v.(impacts := v.impacts + 1,
       armor := v.armor - Absorbed(v, a.damage),
       health := Max(0.0, v.health - HealthLoss(v, a.damage)),
       vibration := cv,
       pose := Pose(cv.roll, cv.pitch, cv.amplitude,
                    a.shock.force * (1.0 + Abs(a.shock.roll) / 12.0), a.shock.force * 0.5),
       timestamp := now)
  }

  // ---------- the damage ledger ----------

  function ArmorAfter(total: real): real {
    Max(0.0, 100.0 - 0.8 * total)
  }

  function HealthAfter(total: real): real {
    Max(0.0, 100.0 - total + (100.0 - ArmorAfter(total)) / 2.0)
  }

  // Armour and health as functions of the damage taken so far and nothing else.
  predicate Ledger(v: Vehicle, total: real) {
    total >= 0.0 && v.armor == ArmorAfter(total) && v.health == HealthAfter(total)
  }

  lemma LedgerStep(v: Vehicle, total: real, a: Attack, now: int)
    requires Ledger(v, total) && a.damage >= 0.0
    ensures Ledger(ApplyAttack(v, a, now), total + a.damage)
  {}

  function Hit(v: Vehicle, hits: seq<Attack>, k: nat): Vehicle
    requires k <= |hits|
  {
    if k == 0 then v else ApplyAttack(Hit(v, hits, k - 1), hits[k - 1], hits[k - 1].at)
  }

  function Sum(f: Attack -> real, hits: seq<Attack>): real {
    if hits == [] then 0.0 else Sum(f, hits[..|hits| - 1]) + f(hits[|hits| - 1])
  }

  function DamageOf(): Attack -> real { (a: Attack) => a.damage }

  lemma LastOfPrefix(hits: seq<Attack>, k: nat)
    requires k < |hits|
    ensures hits[..k + 1][..k] == hits[..k] && hits[..k + 1][k] == hits[k]
  {}

  lemma SumLast(f: Attack -> real, hits: seq<Attack>, k: nat)
    requires 0 < k <= |hits|
    ensures Sum(f, hits[..k]) == Sum(f, hits[..k - 1]) + f(hits[k - 1])
  {
    LastOfPrefix(hits, k - 1);
  }

  lemma {:induction false} HitsLedger(v: Vehicle, total: real, hits: seq<Attack>, k: nat)
    requires k <= |hits| && Ledger(v, total) && forall i :: 0 <= i < |hits| ==> hits[i].damage >= 0.0
    ensures Ledger(Hit(v, hits, k), total + Sum(DamageOf(), hits[..k]))
    ensures Hit(v, hits, k).impacts == v.impacts + k
  {
    if k > 0 {
      HitsLedger(v, total, hits, k - 1);
      SumLast(DamageOf(), hits, k);
      LedgerStep(Hit(v, hits, k - 1), total + Sum(DamageOf(), hits[..k - 1]), hits[k - 1], hits[k - 1].at);
    }
  }

  // Order and splitting do not matter: two barrages of the same total damage
  // leave the same armour and health.
  lemma SameTotalSameDamage(v: Vehicle, total: real, first: seq<Attack>, second: seq<Attack>)
    requires Ledger(v, total) && Sum(DamageOf(), first) == Sum(DamageOf(), second)
    requires forall i :: 0 <= i < |first| ==> first[i].damage >= 0.0
    requires forall i :: 0 <= i < |second| ==> second[i].damage >= 0.0
    ensures Hit(v, first, |first|).health == Hit(v, second, |second|).health
    ensures Hit(v, first, |first|).armor == Hit(v, second, |second|).armor
  {
    HitsLedger(v, total, first, |first|);
    HitsLedger(v, total, second, |second|);
    assert first[..|first|] == first && second[..|second|] == second;
  }

  // Armour is gone from 125 on, the vehicle from 150 on.
  lemma DestroyedExactly(v: Vehicle, total: real)
    requires Ledger(v, total)
    ensures v.armor == 0.0 <==> total >= 125.0
    ensures v.health == 0.0 <==> total >= 150.0
    ensures 0.0 <= v.health <= 100.0 && 0.0 <= v.armor <= 100.0
  {}

  // ---------- what a record shows ----------

  // Armour and health as the damage taken demands, zero health exactly from 150
  // on, a pose that mirrors the vibration within its bounds, and a heading.
  predicate Lawful(v: Vehicle, total: real) {
    && v.armor == Max(0.0, 100.0 - 0.8 * total)
    && v.health == Max(0.0, 100.0 - total + (100.0 - v.armor) / 2.0)
    && (v.health == 0.0 <==> total >= 150.0)
    && v.pose.roll == v.vibration.roll && v.pose.pitch == v.vibration.pitch
    && v.pose.bounce == v.vibration.amplitude >= 0.0 && v.vibration.yaw == 0.3 * v.pose.roll
    && -12.0 <= v.pose.roll <= 12.0 && -9.6 <= v.pose.pitch <= 9.6
    && 0.0 <= v.motion.heading < 360.0
  }

  lemma KeptIsLawful(v: Vehicle, total: real)
    requires Ledger(v, total) && Steady(v) && OnCourse(v.motion)
    ensures Lawful(v, total)
  {
    DestroyedExactly(v, total);
  }

  // ---------- vibration and pose ----------

  // The pose mirrors the vibration, and the vibration stays within the table.
  predicate Steady(v: Vehicle) {
    var cv := v.vibration;
    && v.pose.roll == cv.roll && v.pose.pitch == cv.pitch && v.pose.bounce == cv.amplitude
    && Tame(cv)
  }

  predicate Tame(cv: Vibration) {
    cv.amplitude >= 0.0 && cv.yaw == 0.3 * cv.roll && -12.0 <= cv.roll <= 12.0 && -9.6 <= cv.pitch <= 9.6
  }

  lemma ShockTame(level: nat, velocity: real, y: real, width: real, pitchFactor: real, audio: real, now: int)
    requires width > 0.0 && 0.8 <= pitchFactor <= 1.2
    ensures Tame(Shock(level, velocity, y, width, pitchFactor, audio, now))
    ensures Shock(level, velocity, y, width, pitchFactor, audio, now).amplitude > 0.0
  {
    var pitch := BaseShock(level).pitch;
    FactorOrder(1.2, pitchFactor, pitch, pitch * pitchFactor);
    FactorOrder(0.0, pitchFactor, pitch, pitch * pitchFactor);
  }

  // A weighted average of two values within a bound is within the bound.
  lemma Average(x: real, y: real, c: real, n: real, b: real)
    requires -b <= x <= b && -b <= y <= b && c >= 0.0 && n >= 0.0 && c + n == 1.0
    ensures -b <= x * c + y * n <= b
  {
    FactorOrder(b, x, c, x * c);
    FactorOrder(-b, x, c, x * c);
    FactorOrder(b, y, n, y * n);
    FactorOrder(-b, y, n, y * n);
    Distribute(b, c, n);
    Distribute(-b, c, n);
  }

  lemma Fractions(x: real, y: real, t: real)
    requires x >= 0.0 && y >= 0.0 && t == x + y > 0.0
    ensures x / t >= 0.0 && y / t >= 0.0 && x / t + y / t == 1.0
  {
    SignOfFactor(x / t, t, x);
    SignOfFactor(y / t, t, y);
    SumQuotient(x, y, t);
    SelfQuotient(t);
  }

  lemma BlendTame(cv: Vibration, shock: Vibration)
    requires Tame(cv) && Tame(shock) && shock.amplitude > 0.0
    ensures Tame(Blend(cv, shock))
  {
    var total := cv.amplitude + shock.amplitude;
    var c, n := cv.amplitude / total, shock.amplitude / total;
    Fractions(cv.amplitude, shock.amplitude, total);
    Average(cv.roll, shock.roll, c, n, 12.0);
    Average(cv.pitch, shock.pitch, c, n, 9.6);
    YawBlend(cv.roll, shock.roll, cv.yaw, shock.yaw, c, n);
  }

  lemma YawBlend(r: real, s: real, y: real, z: real, c: real, n: real)
    requires y == 0.3 * r && z == 0.3 * s
    ensures y * c + z * n == 0.3 * (r * c + s * n)
  {
    assert y * c == 0.3 * (r * c);
    assert z * n == 0.3 * (s * n);
  }

  // The moment t m is the sum of the moments x p and y q.
  predicate Conserves(t: real, m: real, x: real, p: real, y: real, q: real) {
    t * m == x * p + y * q
  }

  function Mean(p: real, q: real, c: real, n: real): real {
    p * c + q * n
  }

  // x p + y q is what the mean of p and q weighted by x and y carries.
  lemma Moment(p: real, q: real, x: real, y: real, t: real)
    requires t == x + y > 0.0
    ensures Conserves(t, Mean(p, q, x / t, y / t), x, p, y, q)
  {
    assert t * (p * (x / t)) == p * (x / t * t) == p * x;
    assert t * (q * (y / t)) == q * (y / t * t) == q * y;
  }

  // Blending adds amplitudes and conserves their moments.
  lemma BlendConserves(cv: Vibration, shock: Vibration)
    requires cv.amplitude >= 0.0 && shock.amplitude > 0.0
    ensures var b := Blend(cv, shock);
            && b.amplitude == cv.amplitude + shock.amplitude
            && Conserves(b.amplitude, b.roll, cv.amplitude, cv.roll, shock.amplitude, shock.roll)
            && Conserves(b.amplitude, b.pitch, cv.amplitude, cv.pitch, shock.amplitude, shock.pitch)
            && Conserves(b.amplitude, b.yaw, cv.amplitude, cv.yaw, shock.amplitude, shock.yaw)
            && Conserves(b.amplitude, b.seat, cv.amplitude, cv.seat, shock.amplitude, shock.seat)
            && Conserves(b.amplitude, b.shake, cv.amplitude, cv.shake, shock.amplitude, shock.shake)
            && Conserves(b.amplitude, b.force, cv.amplitude, cv.force, shock.amplitude, shock.force)
  {
    var x, y := cv.amplitude, shock.amplitude;
    BlendIsMean(cv, shock, x / (x + y), y / (x + y));
    Moment(cv.roll, shock.roll, x, y, x + y);
    Moment(cv.pitch, shock.pitch, x, y, x + y);
    Moment(cv.yaw, shock.yaw, x, y, x + y);
    Moment(cv.seat, shock.seat, x, y, x + y);
    Moment(cv.shake, shock.shake, x, y, x + y);
    Moment(cv.force, shock.force, x, y, x + y);
  }

  lemma BlendIsMean(cv: Vibration, shock: Vibration, c: real, n: real)
    requires cv.amplitude >= 0.0 && shock.amplitude > 0.0
    requires c == cv.amplitude / (cv.amplitude + shock.amplitude)
    requires n == shock.amplitude / (cv.amplitude + shock.amplitude)
    ensures var b := Blend(cv, shock);
            && b.roll == Mean(cv.roll, shock.roll, c, n) && b.pitch == Mean(cv.pitch, shock.pitch, c, n)
            && b.yaw == Mean(cv.yaw, shock.yaw, c, n) && b.seat == Mean(cv.seat, shock.seat, c, n)
            && b.shake == Mean(cv.shake, shock.shake, c, n) && b.force == Mean(cv.force, shock.force, c, n)
  {}

  function RollMoment(cv: Vibration): real { cv.amplitude * cv.roll }
  function PitchMoment(cv: Vibration): real { cv.amplitude * cv.pitch }

  function AmplitudeOf(): Attack -> real { (a: Attack) => a.shock.amplitude }
  function RollMomentOf(): Attack -> real { (a: Attack) => RollMoment(a.shock) }
  function PitchMomentOf(): Attack -> real { (a: Attack) => PitchMoment(a.shock) }

  predicate Carries(cv: Vibration, amplitude: real, roll: real, pitch: real) {
    cv.amplitude == amplitude && RollMoment(cv) == roll && PitchMoment(cv) == pitch
  }

  lemma CarryStep(v: Vehicle, a: Attack, now: int, amplitude: real, roll: real, pitch: real)
    requires Carries(v.vibration, amplitude, roll, pitch) && amplitude >= 0.0 && a.shock.amplitude > 0.0
    ensures Carries(ApplyAttack(v, a, now).vibration, amplitude + AmplitudeOf()(a), roll + RollMomentOf()(a),
                    pitch + PitchMomentOf()(a))
  {
    BlendConserves(v.vibration, a.shock);
  }

  lemma {:induction false} HitsMoments(v: Vehicle, hits: seq<Attack>, k: nat, amplitude: real, roll: real, pitch: real)
    requires k <= |hits| && Carries(v.vibration, amplitude, roll, pitch) && amplitude >= 0.0
    requires forall i :: 0 <= i < |hits| ==> hits[i].shock.amplitude > 0.0
    ensures Carries(Hit(v, hits, k).vibration, amplitude + Sum(AmplitudeOf(), hits[..k]),
                    roll + Sum(RollMomentOf(), hits[..k]), pitch + Sum(PitchMomentOf(), hits[..k]))
    ensures Sum(AmplitudeOf(), hits[..k]) >= 0.0
  {
    if k > 0 {
      var h := hits[..k - 1];
      HitsMoments(v, hits, k - 1, amplitude, roll, pitch);
      SumLast(AmplitudeOf(), hits, k);
      SumLast(RollMomentOf(), hits, k);
      SumLast(PitchMomentOf(), hits, k);
      CarryStep(Hit(v, hits, k - 1), hits[k - 1], hits[k - 1].at, amplitude + Sum(AmplitudeOf(), h),
                roll + Sum(RollMomentOf(), h), pitch + Sum(PitchMomentOf(), h));
    }
  }

  lemma {:induction false} SumWithout(f: Attack -> real, hits: seq<Attack>, j: nat)
    requires j < |hits|
    ensures Sum(f, hits) == Sum(f, hits[..j] + hits[j + 1..]) + f(hits[j])
  {
    var n := |hits| - 1;
    if j == n {
      assert hits[..j] + hits[j + 1..] == hits[..n];
    } else {
      SumWithout(f, hits[..n], j);
      var rest := hits[..j] + hits[j + 1..];
      assert rest[..|rest| - 1] == hits[..n][..j] + hits[..n][j + 1..];
    }
  }

  lemma {:induction false} SumPermutes(f: Attack -> real, first: seq<Attack>, second: seq<Attack>)
    requires multiset(first) == multiset(second)
    ensures Sum(f, first) == Sum(f, second)
    decreases |first|
  {
    SameCount(first, second);
    if first != [] {
      var j := LastElsewhere(first, second);
      SumWithout(f, second, j);
      SumPermutes(f, first[..|first| - 1], second[..j] + second[j + 1..]);
    }
  }

  lemma SameQuotient(a: real, x: real, y: real)
    requires a > 0.0 && a * x == a * y
    ensures x == y
  {
    ZeroFactor(x - y, a);
  }

  lemma SameCarry(p: Vibration, q: Vibration, amplitude: real, roll: real, pitch: real)
    requires Carries(p, amplitude, roll, pitch) && Carries(q, amplitude, roll, pitch) && amplitude > 0.0
    ensures p.roll == q.roll && p.pitch == q.pitch
  {
    SameQuotient(amplitude, p.roll, q.roll);
    SameQuotient(amplitude, p.pitch, q.pitch);
  }

  lemma {:induction false} SumPositive(f: Attack -> real, hits: seq<Attack>)
    requires forall i :: 0 <= i < |hits| ==> f(hits[i]) > 0.0
    ensures Sum(f, hits) >= 0.0 && (hits != [] ==> Sum(f, hits) > 0.0)
    decreases |hits|
  {
    if hits != [] { SumPositive(f, hits[..|hits| - 1]); }
  }

  lemma BarrageMoments(v: Vehicle, hits: seq<Attack>, amplitude: real, roll: real, pitch: real, r: Vibration)
    requires Carries(v.vibration, amplitude, roll, pitch) && amplitude >= 0.0 && hits != []
    requires forall i :: 0 <= i < |hits| ==> hits[i].shock.amplitude > 0.0
    requires r == Hit(v, hits, |hits|).vibration
    ensures Carries(r, amplitude + Sum(AmplitudeOf(), hits), roll + Sum(RollMomentOf(), hits),
                    pitch + Sum(PitchMomentOf(), hits))
    ensures Sum(AmplitudeOf(), hits) > 0.0
  {
    assert hits[..|hits|] == hits;
    HitsMoments(v, hits, |hits|, amplitude, roll, pitch);
    SumPositive(AmplitudeOf(), hits);
  }

  ghost predicate AllHarmful(hits: seq<Attack>) {
    forall i :: 0 <= i < |hits| ==> hits[i].damage >= 0.0
  }

  ghost predicate AllShaking(hits: seq<Attack>) {
    forall i :: 0 <= i < |hits| ==> hits[i].shock.amplitude > 0.0
  }

  lemma Permuted(first: seq<Attack>, second: seq<Attack>)
    requires multiset(first) == multiset(second) && AllHarmful(first) && AllShaking(first)
    ensures AllHarmful(second) && AllShaking(second)
  {
    forall i | 0 <= i < |second| ensures second[i].damage >= 0.0 && second[i].shock.amplitude > 0.0 {
      assert second[i] in multiset(second);
      assert second[i] in multiset(first);
    }
  }

  lemma SameVibration(v: Vehicle, first: seq<Attack>, second: seq<Attack>, amplitude: real, roll: real, pitch: real,
      p: Vibration, q: Vibration)
    requires Carries(v.vibration, amplitude, roll, pitch) && amplitude >= 0.0
    requires multiset(first) == multiset(second) && first != []
    requires AllShaking(first) && AllShaking(second)
    requires p == Hit(v, first, |first|).vibration && q == Hit(v, second, |second|).vibration
    ensures p.amplitude == q.amplitude && p.roll == q.roll && p.pitch == q.pitch
  {
    SameCount(first, second);
    SumPermutes(AmplitudeOf(), first, second);
    SumPermutes(RollMomentOf(), first, second);
    SumPermutes(PitchMomentOf(), first, second);
    BarrageMoments(v, first, amplitude, roll, pitch, p);
    BarrageMoments(v, second, amplitude, roll, pitch, q);
    SameCarry(p, q, amplitude + Sum(AmplitudeOf(), first), roll + Sum(RollMomentOf(), first),
              pitch + Sum(PitchMomentOf(), first));
  }

  lemma SameDamage(v: Vehicle, total: real, first: seq<Attack>, second: seq<Attack>, p: Vehicle, q: Vehicle)
    requires Ledger(v, total) && multiset(first) == multiset(second) && AllHarmful(first) && AllHarmful(second)
    requires p == Hit(v, first, |first|) && q == Hit(v, second, |second|)
    ensures p.health == q.health && p.armor == q.armor && p.impacts == q.impacts
  {
    SumPermutes(DamageOf(), first, second);
    SameTotalSameDamage(v, total, first, second);
    SameCount(first, second);
    HitsLedger(v, total, first, |first|);
    HitsLedger(v, total, second, |second|);
  }

  // The hits of a barrage may come in any order: health, armour, impacts,
  // amplitude, roll and pitch come out the same.
  lemma OrderIrrelevant(v: Vehicle, total: real, first: seq<Attack>, second: seq<Attack>, p: Vehicle, q: Vehicle)
    requires Ledger(v, total) && v.vibration.amplitude >= 0.0 && multiset(first) == multiset(second) && first != []
    requires forall i :: 0 <= i < |first| ==> first[i].damage >= 0.0 && first[i].shock.amplitude > 0.0
    requires p == Hit(v, first, |first|) && q == Hit(v, second, |second|)
    ensures p.health == q.health && p.armor == q.armor && p.impacts == q.impacts
    ensures p.vibration.amplitude == q.vibration.amplitude
    ensures p.vibration.roll == q.vibration.roll && p.vibration.pitch == q.vibration.pitch
  {
    assert AllHarmful(first) && AllShaking(first);
    Permuted(first, second);
    SameDamage(v, total, first, second, p, q);
    SameShaking(v, first, second, p.vibration, q.vibration);
  }

  lemma SameShaking(v: Vehicle, first: seq<Attack>, second: seq<Attack>, p: Vibration, q: Vibration)
    requires v.vibration.amplitude >= 0.0 && multiset(first) == multiset(second) && first != []
    requires AllShaking(first) && AllShaking(second)
    requires p == Hit(v, first, |first|).vibration && q == Hit(v, second, |second|).vibration
    ensures p.amplitude == q.amplitude && p.roll == q.roll && p.pitch == q.pitch
  {
    var cv := v.vibration;
    SameVibration(v, first, second, cv.amplitude, RollMoment(cv), PitchMoment(cv), p, q);
  }

  lemma ApplySteady(v: Vehicle, a: Attack, now: int)
    requires Steady(v) && Tame(a.shock) && a.shock.amplitude > 0.0
    ensures Steady(ApplyAttack(v, a, now))
  {
    BlendTame(v.vibration, a.shock);
  }

  function Faded(cv: Vibration, f: real): Vibration {
    cv.(amplitude := cv.amplitude * f, pitch := cv.pitch * f, roll := cv.roll * f, yaw := cv.yaw * f,
        seat := cv.seat * f, shake := cv.shake * f, force := cv.force * f)
  }

  function DecayFactor(exp: real -> real, rate: real, dt: real): real {
    exp(-rate * dt)
  }

  predicate Outlasted(v: Vehicle) {
    v.vibration.duration > 0.0 && (v.timestamp - v.vibration.started) as real > v.vibration.duration
  }

  function FadedBy(v: Vehicle, f: real): Vehicle {
    var cv := Faded(v.vibration, f);
    if Outlasted(v) && cv.amplitude < v.vibration.amplitude * 0.01 then
      v.(vibration := STILL, pose := LEVEL)
    else
      v.(vibration := cv, pose := Pose(cv.roll, cv.pitch, cv.amplitude, v.pose.steering * f, v.pose.throttle * f))
  }

  function Decay(exp: real -> real, v: Vehicle, dt: real): Vehicle {
    var cv := v.vibration;
    if cv.decayRate > 0.0 && cv.amplitude > 0.0 then FadedBy(v, DecayFactor(exp, cv.decayRate, dt)) else v
  }

  lemma FadedTame(cv: Vibration, f: real)
    requires Tame(cv) && 0.0 <= f <= 1.0
    ensures Tame(Faded(cv, f)) && Faded(cv, f).amplitude <= cv.amplitude
  {
    Average(cv.roll, 0.0, f, 1.0 - f, 12.0);
    Average(cv.pitch, 0.0, f, 1.0 - f, 9.6);
    FactorOrder(1.0, f, cv.amplitude, cv.amplitude * f);
    FactorOrder(0.0, f, cv.amplitude, cv.amplitude * f);
    YawBlend(cv.roll, 0.0, cv.yaw, 0.0, f, 0.0);
  }

  lemma DampingFactor(exp: real -> real, rate: real, dt: real)
    requires Damping(exp) && rate > 0.0 && dt >= 0.0
    ensures 0.0 < DecayFactor(exp, rate, dt) <= 1.0
  {
    FactorOrder(0.0, -rate, dt, -rate * dt);
  }

  // Time never shakes the vehicle harder.
  lemma DecaySteady(exp: real -> real, v: Vehicle, dt: real)
    requires Steady(v) && Damping(exp) && dt >= 0.0
    ensures Steady(Decay(exp, v, dt))
    ensures Decay(exp, v, dt).vibration.amplitude <= v.vibration.amplitude
  {
    var cv := v.vibration;
    if cv.decayRate > 0.0 && cv.amplitude > 0.0 {
      DampingFactor(exp, cv.decayRate, dt);
      FadedTame(cv, DecayFactor(exp, cv.decayRate, dt));
    }
  }

  // ---------- motion ----------

  // The angle in [0, 360) that differs from h by whole turns.
  function Wrapped(h: real): real {
    h - 360.0 * (h / 360.0).Floor as real
  }

  lemma WrappedRange(h: real)
    ensures 0.0 <= Wrapped(h) < 360.0
  {
    var t := h / 360.0;
    assert t.Floor as real <= t < t.Floor as real + 1.0;
  }

  lemma WholeTurns(h: real, k: int, r: real)
    requires r == h - 360.0 * k as real && 0.0 <= r < 360.0
    ensures r == Wrapped(h)
  {
    var t := h / 360.0;
    assert k as real <= t < k as real + 1.0;
    assert t.Floor == k;
  }

  method WrapHeading(h: real) returns (r: real)
    ensures r == Wrapped(h) && 0.0 <= r < 360.0
  {
    r := h;
    ghost var turns := 0;
    while r >= 360.0
      invariant r == h - 360.0 * turns as real && (turns > 0 ==> r >= 0.0)
      decreases r.Floor
    {
      r := r - 360.0;
      turns := turns + 1;
    }
    while r < 0.0
      invariant r == h - 360.0 * turns as real && r < 360.0
      decreases -r.Floor
    {
      r := r + 360.0;
      turns := turns - 1;
    }
    WholeTurns(h, turns, r);
  }

  function MaxSpeed(p: Profile): real {
    if p.maxSpeedKmh > 0.0 then p.maxSpeedKmh / 3.6 else 5.0
  }

  function Limited(p: Profile, speed: real): real {
    Max(-MaxSpeed(p) * 0.5, Min(MaxSpeed(p), speed))
  }

  predicate OnCourse(m: Motion) {
    0.0 <= m.heading < 360.0
  }

  function Sped(p: Profile, speed: real, throttle: real, dt: real): real {
    Limited(p, speed + throttle * MaxSpeed(p) * dt)
  }

  function Turned(heading: real, steering: real, dt: real): real {
    heading + steering * 30.0 * dt
  }

  function Shifted(w: World, m: Motion, speed: real, heading: real, dx: real, dy: real): Motion {
    Motion(m.x + dx, m.y + dy, heading, speed, m.distance + w.sqrt(Squared(dx) + Squared(dy)))
  }

  function Radians(heading: real): real { heading * PI / 180.0 }

  // The part c of the way covered.
  function Way(speed: real, c: real, dt: real): real { speed * c * dt }

  function Advanced(w: World, m: Motion, speed: real, heading: real, dt: real): Motion {
    var angle := Radians(heading);
    Shifted(w, m, speed, heading, Way(speed, w.cos(angle), dt), Way(speed, w.sin(angle), dt))
  }

  function Roll(w: World, p: Profile, m: Motion, throttle: real, steering: real, dt: real): Motion {
    Advanced(w, m, Sped(p, m.speed, throttle, dt), Wrapped(Turned(m.heading, steering, dt)), dt)
  }

  // What the driver's action does; an unknown one does nothing.
  function Steered(p: Profile, m: Motion, action: string, param: real): Motion {
    var input := Max(-1.0, Min(1.0, param));
    if action == "throttle" then m.(speed := Limited(p, m.speed + input * MaxSpeed(p) * 0.1))
    else if action == "steer" then m.(heading := Wrapped(m.heading + input * 10.0))
    else if action == "brake" then m.(speed := 0.0)
    else if action == "reset_position" then m.(x := 0.0, y := 30.0, heading := 180.0, speed := 0.0)
    else m
  }

  lemma StaysOnCourse(w: World, p: Profile, m: Motion, action: string, param: real,
      throttle: real, steering: real, dt: real)
    requires OnCourse(m)
    ensures OnCourse(Steered(p, m, action, param)) && OnCourse(Roll(w, p, m, throttle, steering, dt))
  {
    WrappedRange(m.heading + Max(-1.0, Min(1.0, param)) * 10.0);
    WrappedRange(Turned(m.heading, steering, dt));
  }

  // ---------- volleys ----------

  datatype Volley = Volley(vehicle: Vehicle, damage: real, events: seq<Attack>)

  type Draws = nat -> Draw

  // One more attack on top of a volley, followed by a decay when there is one.
  function Extend(w: World, b: Barrage, before: Volley, d: Draw, k: nat): (r: Volley)
    ensures |r.events| == |before.events| + 1
  {
    var attack := Generate(w, b, d, k);
    var hit := ApplyAttack(before.vehicle, attack, d.appliedAt);
    Volley(if b.decay.Some? then Decay(w.exp, hit, b.decay.value) else hit,
           before.damage + attack.damage, before.events + [attack])
  }

  function Repeat(step: (Volley, nat) -> Volley, first: Volley, count: nat): Volley {
    if count == 0 then first else step(Repeat(step, first, count - 1), count - 1)
  }

  lemma {:induction false} RepeatKeeps(step: (Volley, nat) -> Volley, first: Volley, count: nat,
      holds: (Volley, nat) -> bool)
    requires holds(first, 0)
    requires forall r: Volley, k: nat {:trigger step(r, k)} :: holds(r, k) ==> holds(step(r, k), k + 1)
    ensures holds(Repeat(step, first, count), count)
  {
    if count > 0 { RepeatKeeps(step, first, count - 1, holds); }
  }

  function NextAttack(w: World, b: Barrage, draws: Draws): (Volley, nat) -> Volley {
    (r: Volley, k: nat) => Extend(w, b, r, draws(k), k)
  }

  // count attacks in a row.
  function Fire(w: World, b: Barrage, v: Vehicle, draws: Draws, count: nat): Volley {
    Repeat(NextAttack(w, b, draws), Volley(v, 0.0, []), count)
  }

  lemma FireNext(w: World, b: Barrage, v: Vehicle, draws: Draws, k: nat)
    ensures Fire(w, b, v, draws, k + 1) == Extend(w, b, Fire(w, b, v, draws, k), draws(k), k)
  {
    var step := NextAttack(w, b, draws);
    assert Repeat(step, Volley(v, 0.0, []), k + 1) == step(Repeat(step, Volley(v, 0.0, []), k), k);
  }

  ghost predicate FairDraws(draws: Draws, p: Profile) {
    forall i: nat :: Fair(draws(i), p)
  }

  ghost predicate FairBarrage(w: World, b: Barrage, draws: Draws) {
    FairDraws(draws, b.profile) && Damping(w.exp) && (b.decay.Some? ==> b.decay.value >= 0.0)
  }

  // What a volley of count attacks on v leaves, when total damage came before:
  // its damage on the ledger, its shocks within the table, one impact each.
  predicate Accounted(v: Vehicle, total: real, r: Volley, count: nat) {
    && Ledger(r.vehicle, total + r.damage) && Steady(r.vehicle) && r.damage >= 0.0 && |r.events| == count
    && r.vehicle.impacts == v.impacts + count && r.vehicle.id == v.id && r.vehicle.motion == v.motion
  }

  lemma ExtendKeeps(w: World, b: Barrage, v: Vehicle, total: real, before: Volley, after: Volley, d: Draw, k: nat)
    requires after == Extend(w, b, before, d, k)
    requires Accounted(v, total, before, k) && Fair(d, b.profile) && Damping(w.exp)
    requires b.decay.Some? ==> b.decay.value >= 0.0
    ensures Accounted(v, total, after, k + 1)
  {
    var u, a := before.vehicle, Generate(w, b, d, k);
    var hit := ApplyAttack(u, a, d.appliedAt);
    FairAttack(w, b, d, k, a);
    StruckKeeps(u, hit, total + before.damage, a, d.appliedAt);
    if b.decay.Some? { DecaySteady(w.exp, hit, b.decay.value); }
  }

  // Twice the kinetic energy of a rock.
  function Energy(mass: real, velocity: real): real {
    mass * Squared(velocity)
  }

  // The rock carries m squared times the energy of the one drawn.
  predicate Boosted(mass: real, velocity: real, drawnMass: real, drawnVelocity: real, m: real) {
    Energy(mass, velocity) == Squared(m) * Energy(drawnMass, drawnVelocity)
  }

  lemma EnergyScales(mass: real, velocity: real, m: real, root: real, boostedMass: real, boostedVelocity: real)
    requires boostedMass == mass * m && boostedVelocity == velocity * root
    ensures Squared(root) == m ==> Boosted(boostedMass, boostedVelocity, mass, velocity, m)
  {
    assert Squared(velocity * root) == Squared(velocity) * Squared(root);
    if Squared(root) == m {
      assert Energy(mass * m, velocity * root) == mass * m * (Squared(velocity) * m);
      assert mass * m * (Squared(velocity) * m) == m * m * (mass * Squared(velocity));
    }
  }

  lemma FairAttack(w: World, b: Barrage, d: Draw, k: nat, a: Attack)
    requires a == Generate(w, b, d, k) && Fair(d, b.profile)
    ensures 0.3 * BaseRange(d.level).0 <= a.damage <= BaseRange(d.level).1
    ensures 0.0 <= a.damage <= 50.0 && Tame(a.shock) && a.shock.amplitude > 0.0
  {
    DamageRange(d, b.profile);
    ShockTame(d.level, a.velocity, d.y, RoofWidth(b.profile), d.pitchFactor, b.audio(d.level), d.generatedAt);
  }

  lemma StruckKeeps(v: Vehicle, hit: Vehicle, total: real, a: Attack, now: int)
    requires hit == ApplyAttack(v, a, now) && Ledger(v, total) && Steady(v)
    requires a.damage >= 0.0 && Tame(a.shock) && a.shock.amplitude > 0.0
    ensures Ledger(hit, total + a.damage) && Steady(hit)
    ensures hit.impacts == v.impacts + 1 && hit.id == v.id && hit.motion == v.motion
  {
    LedgerStep(v, total, a, now);
    ApplySteady(v, a, now);
  }

  lemma VolleyKeeps(w: World, b: Barrage, v: Vehicle, total: real, draws: Draws, count: nat)
    requires Ledger(v, total) && Steady(v) && FairBarrage(w, b, draws)
    ensures Accounted(v, total, Fire(w, b, v, draws, count), count)
  {
    var step := NextAttack(w, b, draws);
    var holds := (r: Volley, k: nat) => Accounted(v, total, r, k);
    forall r: Volley, k: nat {:trigger step(r, k)} | holds(r, k) ensures holds(step(r, k), k + 1) {
      ExtendKeeps(w, b, v, total, r, step(r, k), draws(k), k);
    }
    assert holds(Volley(v, 0.0, []), 0);
    RepeatKeeps(step, Volley(v, 0.0, []), count, holds);
  }

  // ---------- the record updates, step by step ----------

  method Steer(p: Profile, m: Motion, action: string, param: real) returns (r: Motion)
    ensures r == Steered(p, m, action, param)
  {
    r := m;
    if action == "throttle" {
      var throttle := Max(-1.0, Min(1.0, param));
      r := r.(speed := Limited(p, r.speed + throttle * MaxSpeed(p) * 0.1));
    } else if action == "steer" {
      var steer := Max(-1.0, Min(1.0, param));
      var heading := WrapHeading(r.heading + steer * 10.0);
      r := r.(heading := heading);
    } else if action == "brake" {
      r := r.(speed := 0.0);
    } else if action == "reset_position" {
      r := r.(x := 0.0, y := 30.0, heading := 180.0, speed := 0.0);
    }
  }

  method MoveVehicle(w: World, p: Profile, v: Vehicle, throttle: real, steering: real, dt: real, now: int)
    returns (r: Vehicle)
    ensures r == v.(motion := Roll(w, p, v.motion, throttle, steering, dt), timestamp := now)
  {
    var m := v.motion;
    var speed := Sped(p, m.speed, throttle, dt);
    var heading := WrapHeading(Turned(m.heading, steering, dt));
    m := Advanced(w, m, speed, heading, dt);
    r := v.(motion := m, timestamp := now);
  }

  method ApplyAttackToState(v: Vehicle, attack: Attack, now: int) returns (state: Vehicle)
    ensures state == ApplyAttack(v, attack, now)
  {
    state := v.(impacts := v.impacts + 1);
    var healthDamage := attack.damage;
    var armorDamage := attack.damage * 0.8;
    if state.armor > 0.0 {
      var absorbed := Min(state.armor, armorDamage);
      state := state.(armor := state.armor - absorbed);
      healthDamage := Max(0.0, healthDamage - absorbed * 0.5);
    }
    state := state.(health := Max(0.0, state.health - healthDamage));
    var cv := Blend(state.vibration, attack.shock).(started := attack.at);
    var side := 1.0 + Abs(attack.shock.roll) / 12.0;
    state := state.(vibration := cv,
                    pose := Pose(cv.roll, cv.pitch, cv.amplitude, attack.shock.force * side, attack.shock.force * 0.5),
                    timestamp := now);
  }

  method DecayVibration(exp: real -> real, v: Vehicle, dt: real) returns (state: Vehicle)
    ensures state == Decay(exp, v, dt)
  {
    state := v;
    var cv := state.vibration;
    var original := cv.amplitude;
    if cv.decayRate > 0.0 && original > 0.0 {
      var f := DecayFactor(exp, cv.decayRate, dt);
      cv := Faded(cv, f);
      var pose := Pose(cv.roll, cv.pitch, cv.amplitude, state.pose.steering * f, state.pose.throttle * f);
      var elapsed := state.timestamp - cv.started;
      var passed := cv.duration > 0.0 && elapsed as real > cv.duration;
      var negligible := original > 0.0 && cv.amplitude < original * 0.01;
      if passed && negligible {
        cv, pose := STILL, LEVEL;
      }
      state := state.(vibration := cv, pose := pose);
    }
  }

  // Attack k of a barrage. From draws in the ranges of the code its damage stays
  // in the range of its level and its shock within the table, and under the law
  // of the square root its kinetic energy grows with the square of the multiplier.
  method GenerateAttack(w: World, b: Barrage, d: Draw, event: nat, ghost k: nat) returns (attack: Attack)
    requires event == b.firstEvent + k
    ensures attack == Generate(w, b, d, k)
    ensures Fair(d, b.profile) ==>
      && 0.3 * BaseRange(d.level).0 <= attack.damage <= BaseRange(d.level).1
      && 0.0 <= attack.damage <= 50.0 && Tame(attack.shock) && attack.shock.amplitude > 0.0
    ensures Squared(w.sqrt(b.multiplier)) == b.multiplier ==>
      Boosted(attack.mass, attack.velocity, d.mass, d.velocity, b.multiplier)
  {
    var velocity := d.velocity * w.sqrt(b.multiplier);
    var shock := Shock(d.level, velocity, d.y, RoofWidth(b.profile), d.pitchFactor, b.audio(d.level), d.generatedAt);
    attack := Attack(event, b.session, d.generatedAt, d.mass * b.multiplier, velocity, Damage(d, b.profile), shock);
    if Fair(d, b.profile) { FairAttack(w, b, d, k, attack); }
    EnergyScales(d.mass, d.velocity, b.multiplier, w.sqrt(b.multiplier), attack.mass, velocity);
  }
}
