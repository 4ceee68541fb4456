// Laws of driving and of a single hit for the vehicle record of
// backend/src/vr_assault/vr_assault_engine.cpp and
// backend/src/user_session/user_session_manager.cpp.
module VehicleLaws {
  import opened Reals
  import opened VehicleState

  // ---------- driving ----------

  predicate TopSpeed(p: Profile, top: real) {
    if p.maxSpeedKmh > 0.0 then top * 3.6 == p.maxSpeedKmh else top == 5.0
  }

  predicate IsSquare(x: real, y: real) { x == Squared(y) }

  // cos and sin lie on the unit circle, and the root of a square is its size.
  ghost predicate Euclidean(w: World) {
    && (forall a: real :: Squared(w.cos(a)) + Squared(w.sin(a)) == 1.0)
    && (forall x: real, y: real {:trigger IsSquare(x, y)} :: IsSquare(x, y) ==> w.sqrt(x) == Abs(y))
  }

  predicate Displaced(m: Motion, r: Motion, way: real, c: real, s: real) {
    r.x == m.x + way * c && r.y == m.y + way * s
  }

  lemma Hypotenuse(w: World, way: real, c: real, s: real, dx: real, dy: real)
    requires Euclidean(w) && Squared(c) + Squared(s) == 1.0 && dx == way * c && dy == way * s
    ensures w.sqrt(Squared(dx) + Squared(dy)) == Abs(way)
  {
    assert Squared(dx) == Squared(way) * Squared(c);
    assert Squared(dy) == Squared(way) * Squared(s);
    Distribute(Squared(way), Squared(c), Squared(s));
    assert IsSquare(Squared(dx) + Squared(dy), way);
  }

  lemma WayIs(speed: real, c: real, dt: real, way: real)
    requires way == speed * dt
    ensures Way(speed, c, dt) == way * c
  {}

  lemma NoTurn(h: real)
    requires 0.0 <= h < 360.0
    ensures Wrapped(h) == h
  {
    WholeTurns(h, 0, h);
  }

  // Without input a vehicle within its speed limits goes straight on: speed and
  // heading stay, and way and distance grow by speed * dt.
  lemma Coasts(w: World, p: Profile, m: Motion, dt: real, top: real, way: real, r: Motion)
    requires r == Roll(w, p, m, 0.0, 0.0, dt) && Euclidean(w) && way == m.speed * dt
    requires 0.0 <= m.heading < 360.0 && TopSpeed(p, top) && -top / 2.0 <= m.speed <= top
    ensures r.speed == m.speed && r.heading == m.heading && r.distance == m.distance + Abs(way)
    ensures var angle := m.heading * 3.14159265358979323846 / 180.0; Displaced(m, r, way, w.cos(angle), w.sin(angle))
  {
    var angle := Radians(m.heading);
    TopIs(p, top);
    KeepsGoing(p, m, dt);
    AngleIs(m.heading);
    Advances(w, m, m.speed, m.heading, dt, way, w.cos(angle), w.sin(angle));
  }

  lemma AngleIs(heading: real)
    ensures Radians(heading) == heading * 3.14159265358979323846 / 180.0
  {}

  lemma TopIs(p: Profile, top: real)
    requires TopSpeed(p, top)
    ensures MaxSpeed(p) == top
  {}

  lemma KeepsGoing(p: Profile, m: Motion, dt: real)
    requires OnCourse(m) && -MaxSpeed(p) / 2.0 <= m.speed <= MaxSpeed(p)
    ensures Sped(p, m.speed, 0.0, dt) == m.speed && Wrapped(Turned(m.heading, 0.0, dt)) == m.heading
  {
    ZeroTimes(0.0, MaxSpeed(p));
    ZeroTimes(0.0, dt);
    NoTurn(m.heading);
  }

  lemma Advances(w: World, m: Motion, speed: real, heading: real, dt: real, way: real, c: real, s: real)
    requires Euclidean(w) && way == speed * dt && c == w.cos(Radians(heading)) && s == w.sin(Radians(heading))
    ensures Displaced(m, Advanced(w, m, speed, heading, dt), way, c, s)
    ensures Advanced(w, m, speed, heading, dt).distance == m.distance + Abs(way)
  {
    WayIs(speed, c, dt, way);
    WayIs(speed, s, dt, way);
    Hypotenuse(w, way, c, s, Way(speed, c, dt), Way(speed, s, dt));
  }

  // The same action n times.
  function Again(p: Profile, m: Motion, action: string, param: real, n: nat): Motion {
    if n == 0 then m else Steered(p, Again(p, m, action, param, n - 1), action, param)
  }

  function Cut(x: real, low: real, high: real): real { if x < low then low else if x > high then high else x }

  // total is n times each.
  predicate Sums(total: real, n: nat, each: real) { total == n as real * each }

  lemma OneLess(total: real, n: nat, each: real)
    requires n > 0 && Sums(total, n, each)
    ensures Sums(total - each, n - 1, each)
  {}

  lemma NoSum(total: real, each: real)
    requires Sums(total, 0, each)
    ensures total == 0.0
  {}

  lemma SumSign(total: real, n: nat, each: real)
    requires Sums(total, n, each)
    ensures each >= 0.0 ==> total >= 0.0
    ensures each <= 0.0 ==> total <= 0.0
  {
    if each >= 0.0 { NonNegativeProduct(n as real, each); } else { NonNegativeProduct(n as real, -each); }
  }

  // n equal throttles from rest add up, each a tenth of the top speed at most,
  // until the top speed is reached, or half of it backwards.
  lemma {:induction false} ThrottlesAdd(p: Profile, m: Motion, param: real, n: nat, top: real, gain: real, total: real)
    requires m.speed == 0.0 && TopSpeed(p, top) && gain == Cut(param, -1.0, 1.0) * top / 10.0 && Sums(total, n, gain)
    ensures Again(p, m, "throttle", param, n) == m.(speed := Cut(total, -top / 2.0, top))
  {
    if n == 0 {
      NoSum(total, gain);
    } else {
      OneLess(total, n, gain);
      ThrottlesAdd(p, m, param, n - 1, top, gain, total - gain);
      ThrottleOnce(p, Again(p, m, "throttle", param, n - 1), param, top, gain);
      SumSign(total - gain, n - 1, gain);
    }
  }

  lemma ThrottleOnce(p: Profile, m: Motion, param: real, top: real, gain: real)
    requires TopSpeed(p, top) && gain == Cut(param, -1.0, 1.0) * top / 10.0
    ensures Steered(p, m, "throttle", param) == m.(speed := Cut(m.speed + gain, -top / 2.0, top))
  {
    TopIs(p, top);
    assert Max(-1.0, Min(1.0, param)) * top * 0.1 == gain;
  }

  lemma TurnsAdd(h: real, t: real)
    ensures Wrapped(Wrapped(h) + t) == Wrapped(h + t)
  {
    var k, j := (h / 360.0).Floor, ((Wrapped(h) + t) / 360.0).Floor;
    WrappedRange(Wrapped(h) + t);
    WholeTurns(h + t, k + j, Wrapped(Wrapped(h) + t));
  }

  // n equal steers add up, each ten degrees at most.
  lemma {:induction false} SteersAdd(p: Profile, m: Motion, param: real, n: nat, turn: real, total: real)
    requires OnCourse(m) && turn == Cut(param, -1.0, 1.0) * 10.0 && Sums(total, n, turn)
    ensures Again(p, m, "steer", param, n) == m.(heading := Wrapped(m.heading + total))
  {
    if n == 0 {
      NoSum(total, turn);
      NoTurn(m.heading);
    } else {
      OneLess(total, n, turn);
      SteersAdd(p, m, param, n - 1, turn, total - turn);
      TurnsAdd(m.heading + (total - turn), turn);
    }
  }

  // Thirty-six full steers to one side, or one to each, leave the course.
  lemma SteersBack(p: Profile, m: Motion, left: real, right: real)
    requires OnCourse(m) && left <= -1.0 && right >= 1.0
    ensures Again(p, m, "steer", right, 36) == m == Again(p, m, "steer", left, 36)
    ensures Steered(p, Steered(p, m, "steer", right), "steer", left) == m
  {
    SteersAdd(p, m, right, 36, 10.0, 360.0);
    SteersAdd(p, m, left, 36, -10.0, -360.0);
    WholeTurns(m.heading + 360.0, 1, m.heading);
    WholeTurns(m.heading - 360.0, -1, m.heading);
    TurnsAdd(m.heading + 10.0, -10.0);
    NoTurn(m.heading);
  }

  // The other actions: stop, go back to the start, nothing.
  lemma OtherActions(p: Profile, m: Motion, action: string, param: real)
    requires action != "throttle" && action != "steer"
    ensures Steered(p, m, action, param) ==
      if action == "brake" then m.(speed := 0.0)
      else if action == "reset_position" then Motion(0.0, 30.0, 180.0, 0.0, m.distance)
      else m
  {}

  // ---------- one hit ----------

  // Armour of t mm leaves 100 of 100 + t / 2 parts of a blow, three tenths at least.
  lemma ArmourLaw(d: Draw, p: Profile, damage: real, t: real)
    requires damage == Damage(d, p) && t == (if p.roofThickness > 0.0 then p.roofThickness else 0.0)
    ensures if 3.0 * t <= 1400.0 then damage * (100.0 + t / 2.0) == 100.0 * d.base else damage == 0.3 * d.base
  {
    ArmourFactor(p, t, ArmorFactor(p));
    if 3.0 * t <= 1400.0 { Scaled(d.base, ArmorFactor(p), 100.0 + t / 2.0); }
  }

  lemma Scaled(x: real, f: real, y: real)
    requires f * y == 100.0
    ensures x * f * y == 100.0 * x
  {}

  lemma QuotientLess(x: real, d: real, k: real)
    requires d > 0.0
    ensures x / d < k <==> x < k * d
  {
    assert x / d * d == x;
    if x / d < k { ProductLess(x / d, k, d); } else { ProductLess(k, x / d, d); }
  }

  lemma ArmourFactor(p: Profile, t: real, f: real)
    requires f == ArmorFactor(p) && t == (if p.roofThickness > 0.0 then p.roofThickness else 0.0)
    ensures if 3.0 * t <= 1400.0 then f * (100.0 + t / 2.0) == 100.0 else f == 0.3
  {
    if t > 0.0 {
      var d := 100.0 + t * 0.5;
      ThickRoof(t);
      assert 100.0 / d * d == 100.0;
      QuotientLess(100.0, d, 0.3);
    }
  }

  // A hit on the left two thirds of the roof, up to 0.17 of its width past the
  // middle, rolls the vehicle one way and any other the opposite way. A roof of
  // unknown width is 2.8 m wide.
  lemma ShockSides(w: World, b: Barrage, d: Draw, k: nat, a: Attack, width: real)
    requires a == Generate(w, b, d, k) && width == (if b.profile.width > 0.0 then b.profile.width else 2.8)
    ensures a.shock.roll < 0.0 <==> d.y > 0.17 * width
    ensures a.shock.roll > 0.0 <==> d.y <= 0.17 * width
    ensures a.shock.yaw == 0.3 * a.shock.roll
  {
    SideOf(d.y, width);
  }

  lemma SideOf(y: real, width: real)
    requires width > 0.0
    ensures (y + width / 2.0) / width > 0.67 <==> y > 0.17 * width
  {
    var at := (y + width / 2.0) / width;
    assert at * width == y + width / 2.0;
    if at > 0.67 { ProductLess(0.67, at, width); } else { ProductLess(at, 0.67, width); }
  }

  // The shock of a level: amplitude, roll whichever side, pitch within a fifth,
  // frequency, duration, decay and what it does to seat and screen; its force
  // grows with the velocity from 7 m/s on, where it is half of that at 14 m/s.
  lemma ShockOfLevel(w: World, b: Barrage, d: Draw, k: nat, a: Attack, level: nat, shock: Vibration)
    requires a == Generate(w, b, d, k) && shock == a.shock && level == if d.level < 4 then d.level else 4
    ensures shock.magnitude == level && shock.amplitude == [0.1, 0.8, 3.5, 12.0, 30.0][level]
    ensures Abs(shock.roll) == [0.05, 0.4, 1.8, 5.0, 12.0][level]
    ensures shock.pitch == [0.05, 0.3, 1.2, 3.5, 8.0][level] * d.pitchFactor
    ensures shock.frequency == [20.0, 18.0, 14.0, 10.0, 7.0][level]
    ensures shock.duration == [80.0, 200.0, 500.0, 1400.0, 3000.0][level]
    ensures shock.decayRate == [2.0, 2.5, 1.8, 1.2, 0.8][level]
    ensures shock.seat == [0.02, 0.08, 0.25, 0.7, 1.8][level] && shock.shake == [0.0, 1.0, 3.0, 8.0, 20.0][level]
    ensures shock.force * 14.0 == [0.5, 2.0, 8.0, 35.0, 120.0][level] * (if a.velocity < 7.0 then 7.0 else a.velocity)
  {}

  // The damage drawn for a level lies between the marks of that level and the next.
  lemma DamageOfLevel(d: Draw, p: Profile, level: nat)
    requires Fair(d, p) && level == if d.level < 4 then d.level else 4
    ensures [0.0, 2.0, 5.0, 12.0, 25.0][level] <= d.base <= [2.0, 5.0, 12.0, 25.0, 50.0][level]
  {}

  // Half the force of a shock goes to the throttle, and all of it, and more the
  // more it rolls, to the steering.
  lemma HitPose(v: Vehicle, a: Attack, now: int, r: Vehicle)
    requires r == ApplyAttack(v, a, now)
    ensures 2.0 * r.pose.throttle == a.shock.force
    ensures 12.0 * r.pose.steering == a.shock.force * (12.0 + Abs(a.shock.roll))
  {
    Distribute(a.shock.force, 12.0, Abs(a.shock.roll));
    assert a.shock.force * (1.0 + Abs(a.shock.roll) / 12.0) * 12.0 == a.shock.force * (12.0 + Abs(a.shock.roll));
  }

  predicate Stronger(x: real, y: real, z: real) {
    x <= z && y <= z && (z == x || z == y)
  }

  // What is not averaged when two vibrations meet is taken from the stronger one.
  lemma BlendExtremes(cv: Vibration, shock: Vibration, b: Vibration)
    requires b == Blend(cv, shock) && cv.amplitude >= 0.0 && shock.amplitude > 0.0
    ensures Stronger(cv.frequency, shock.frequency, b.frequency) && Stronger(cv.duration, shock.duration, b.duration)
    ensures Stronger(cv.audio, shock.audio, b.audio)
    ensures cv.magnitude <= b.magnitude && shock.magnitude <= b.magnitude
    ensures b.magnitude == cv.magnitude || b.magnitude == shock.magnitude
  {}
}
