// What elapsed time does to a vehicle of backend/src/vr_assault/vr_assault_engine.cpp
// and backend/src/user_session/user_session_manager.cpp, as laws of the records
// before and after.
module VehicleDecay {
  import opened Collections
  import opened Reals
  import opened VehicleState

  predicate SumsTo(x: real, y: real, z: real) { x + y == z }
  predicate IsProduct(z: real, x: real, y: real) { z == x * y }

  // exp turns sums into products.
  ghost predicate Exponential(exp: real -> real) {
    && Damping(exp) && exp(0.0) == 1.0
    && forall x: real, y: real, z: real {:trigger SumsTo(x, y, z)} ::
         SumsTo(x, y, z) ==> IsProduct(exp(z), exp(x), exp(y))
  }

  // In the time dt a vibration of this rate shrinks to the part f.
  ghost predicate Leaves(exp: real -> real, rate: real, dt: real, f: real) {
    f == exp(-(rate * dt))
  }

  predicate Shakes(v: Vehicle) {
    v.vibration.decayRate > 0.0 && v.vibration.amplitude > 0.0
  }

  // A shaking vehicle comes to rest when the vibration has outlasted its
  // duration and less than a hundredth of it is left.
  predicate Rests(v: Vehicle, f: real) {
    var cv := v.vibration;
    Shakes(v) && cv.duration > 0.0 && (v.timestamp - cv.started) as real > cv.duration && f < 0.01
  }

  // All that shakes is f times what it was, the rest is the same.
  ghost predicate Shrunk(v: Vehicle, r: Vehicle, f: real) {
    var a, b := v.vibration, r.vibration;
    && r == v.(vibration := b, pose := r.pose)
    && b.magnitude == a.magnitude && b.frequency == a.frequency && b.duration == a.duration
    && b.decayRate == a.decayRate && b.audio == a.audio && b.started == a.started
    && IsProduct(b.amplitude, a.amplitude, f) && IsProduct(b.pitch, a.pitch, f) && IsProduct(b.roll, a.roll, f)
    && IsProduct(b.yaw, a.yaw, f) && IsProduct(b.seat, a.seat, f) && IsProduct(b.shake, a.shake, f)
    && IsProduct(b.force, a.force, f) && r.pose.roll == b.roll && r.pose.pitch == b.pitch
    && r.pose.bounce == b.amplitude && IsProduct(r.pose.steering, v.pose.steering, f)
    && IsProduct(r.pose.throttle, v.pose.throttle, f)
  }

  lemma FadeIs(exp: real -> real, rate: real, dt: real, f: real)
    requires Leaves(exp, rate, dt, f)
    ensures DecayFactor(exp, rate, dt) == f
  {
    assert -rate * dt == -(rate * dt);
  }

  lemma FadedIsProduct(cv: Vibration, r: Vibration, f: real)
    requires r == Faded(cv, f)
    ensures IsProduct(r.amplitude, cv.amplitude, f) && IsProduct(r.pitch, cv.pitch, f) && IsProduct(r.roll, cv.roll, f)
    ensures IsProduct(r.yaw, cv.yaw, f) && IsProduct(r.seat, cv.seat, f) && IsProduct(r.shake, cv.shake, f)
    ensures IsProduct(r.force, cv.force, f)
  {}

  lemma FaintIs(x: real, f: real, y: real)
    requires x > 0.0 && IsProduct(y, x, f)
    ensures y < x * 0.01 <==> f < 0.01
  {
    if f < 0.01 {
      ProductLess(f, 0.01, x);
    } else {
      ProductLess(0.01, f, x);
    }
  }

  lemma FadedByShrinks(v: Vehicle, f: real, cv: Vibration)
    requires cv == Faded(v.vibration, f) && v.vibration.amplitude > 0.0
    ensures Outlasted(v) && f < 0.01 ==> FadedBy(v, f) == v.(vibration := STILL, pose := LEVEL)
    ensures !(Outlasted(v) && f < 0.01) ==> Shrunk(v, FadedBy(v, f), f)
  {
    FadedIsProduct(v.vibration, cv, f);
    FaintIs(v.vibration.amplitude, f, cv.amplitude);
  }

  // A vehicle at rest stays as it is, one that comes to rest loses vibration and
  // pose, and any other shrinks by exp(-rate * dt).
  lemma DecayIs(exp: real -> real, v: Vehicle, dt: real, f: real)
    requires Leaves(exp, v.vibration.decayRate, dt, f)
    ensures !Shakes(v) ==> Decay(exp, v, dt) == v
    ensures Rests(v, f) ==> Decay(exp, v, dt) == v.(vibration := STILL, pose := LEVEL)
    ensures Shakes(v) && !Rests(v, f) ==> Shrunk(v, Decay(exp, v, dt), f)
  {
    if Shakes(v) {
      FadeIs(exp, v.vibration.decayRate, dt, f);
      FadedByShrinks(v, f, Faded(v.vibration, f));
    }
  }

  lemma ShrunkTwice(v: Vehicle, u: Vehicle, r: Vehicle, f: real, g: real, fg: real)
    requires Shrunk(v, u, f) && Shrunk(u, r, g) && IsProduct(fg, f, g)
    ensures Shrunk(v, r, fg)
  {
    var a, b, c := v.vibration, u.vibration, r.vibration;
    ProductTwice(a.amplitude, b.amplitude, c.amplitude, f, g, fg);
    ProductTwice(a.pitch, b.pitch, c.pitch, f, g, fg);
    ProductTwice(a.roll, b.roll, c.roll, f, g, fg);
    ProductTwice(a.yaw, b.yaw, c.yaw, f, g, fg);
    ProductTwice(a.seat, b.seat, c.seat, f, g, fg);
    ProductTwice(a.shake, b.shake, c.shake, f, g, fg);
    ProductTwice(a.force, b.force, c.force, f, g, fg);
    ProductTwice(v.pose.steering, u.pose.steering, r.pose.steering, f, g, fg);
    ProductTwice(v.pose.throttle, u.pose.throttle, r.pose.throttle, f, g, fg);
  }

  lemma ProductTwice(x: real, y: real, z: real, f: real, g: real, fg: real)
    requires IsProduct(y, x, f) && IsProduct(z, y, g) && IsProduct(fg, f, g)
    ensures IsProduct(z, x, fg)
  {
    assert x * f * g == x * (f * g);
  }

  lemma ShrunkSame(v: Vehicle, r: Vehicle, s: Vehicle, f: real)
    requires Shrunk(v, r, f) && Shrunk(v, s, f)
    ensures r == s
  {}

  lemma StillShakes(v: Vehicle, u: Vehicle, f: real)
    requires Shakes(v) && Shrunk(v, u, f) && f > 0.0
    ensures Shakes(u) && u.vibration.decayRate == v.vibration.decayRate
  {
    PositiveProduct(v.vibration.amplitude, f, u.vibration.amplitude);
  }

  lemma LeavesSome(exp: real -> real, rate: real, dt: real, f: real)
    requires Damping(exp) && rate > 0.0 && dt >= 0.0 && Leaves(exp, rate, dt, f)
    ensures 0.0 < f <= 1.0
  {
    FactorOrder(0.0, rate, dt, rate * dt);
  }

  lemma LeavesAdd(exp: real -> real, rate: real, s: real, t: real, u: real, f: real, g: real, h: real)
    requires Exponential(exp) && u == s + t
    requires Leaves(exp, rate, s, f) && Leaves(exp, rate, t, g) && Leaves(exp, rate, u, h)
    ensures IsProduct(h, f, g)
  {
    Distribute(rate, s, t);
    assert SumsTo(-(rate * s), -(rate * t), -(rate * u));
  }

  lemma LeavesAll(exp: real -> real, rate: real)
    requires Exponential(exp)
    ensures Leaves(exp, rate, 0.0, 1.0)
  {
    ZeroTimes(0.0, rate);
  }

  // Decaying for s and then for t is decaying for s + t, while nothing comes
  // to rest.
  lemma DecayAdds(exp: real -> real, v: Vehicle, s: real, t: real, f: real, g: real, h: real)
    requires Exponential(exp) && s >= 0.0 && t >= 0.0
    requires Leaves(exp, v.vibration.decayRate, s, f) && Leaves(exp, v.vibration.decayRate, t, g)
    requires Leaves(exp, v.vibration.decayRate, s + t, h)
    requires !Rests(v, f) && !Rests(Decay(exp, v, s), g) && !Rests(v, h)
    ensures Decay(exp, Decay(exp, v, s), t) == Decay(exp, v, s + t)
  {
    DecayIs(exp, v, s, f);
    DecayIs(exp, v, s + t, h);
    if Shakes(v) {
      var u, r := Decay(exp, v, s), Decay(exp, v, s + t);
      LeavesSome(exp, v.vibration.decayRate, s, f);
      StillShakes(v, u, f);
      DecayIs(exp, u, t, g);
      LeavesAdd(exp, v.vibration.decayRate, s, t, s + t, f, g, h);
      ShrunkTwice(v, u, Decay(exp, u, t), f, g, h);
      ShrunkSame(v, Decay(exp, u, t), r, h);
    } else {
      DecayIs(exp, v, t, g);
    }
  }

  // No time, no decay.
  lemma NoTimeNoDecay(exp: real -> real, v: Vehicle)
    requires Exponential(exp) && Steady(v)
    ensures Decay(exp, v, 0.0) == v
  {
    LeavesAll(exp, v.vibration.decayRate);
    DecayIs(exp, v, 0.0, 1.0);
    if Shakes(v) { ShrunkByOne(v, Decay(exp, v, 0.0)); }
  }

  lemma ShrunkByOne(v: Vehicle, r: Vehicle)
    requires Shrunk(v, r, 1.0) && Steady(v)
    ensures r == v
  {}

  // n decays, one after the other.
  function DecayShares(exp: real -> real, v: Vehicle, share: real, n: nat): Vehicle {
    if n == 0 then v else Decay(exp, DecayShares(exp, v, share, n - 1), share)
  }

  // One more decay on top of those of the time s.
  lemma NextShrinks(exp: real -> real, v: Vehicle, u: Vehicle, s: real, share: real, g: real, f: real, h: real)
    requires Exponential(exp) && share >= 0.0 && Shakes(v) && Shakes(u) && Shrunk(v, u, g) && !Rests(u, f)
    requires Leaves(exp, v.vibration.decayRate, s, g) && Leaves(exp, v.vibration.decayRate, share, f)
    requires Leaves(exp, v.vibration.decayRate, s + share, h)
    ensures Shakes(Decay(exp, u, share)) && Shrunk(v, Decay(exp, u, share), h)
  {
    var rate, r := v.vibration.decayRate, Decay(exp, u, share);
    DecayIs(exp, u, share, f);
    LeavesSome(exp, rate, share, f);
    StillShakes(u, r, f);
    LeavesAdd(exp, rate, s, share, s + share, g, f, h);
    ShrunkTwice(v, u, r, g, f, h);
  }

  lemma {:induction false} SharesShrink(exp: real -> real, v: Vehicle, share: real, n: nat, t: real, f: real, h: real)
    requires Exponential(exp) && share >= 0.0 && IsProduct(t, n as real, share) && Shakes(v) && Steady(v)
    requires Leaves(exp, v.vibration.decayRate, share, f) && Leaves(exp, v.vibration.decayRate, t, h)
    requires forall k: nat :: k < n ==> !Rests(DecayShares(exp, v, share, k), f)
    ensures Shakes(DecayShares(exp, v, share, n)) && Shrunk(v, DecayShares(exp, v, share, n), h)
  {
    var rate := v.vibration.decayRate;
    if n == 0 {
      ZeroTimes(0.0, share);
      LeavesAll(exp, rate);
      OneLeft(exp, rate, t, h);
    } else {
      var s := t - share;
      ShareBefore(share, n, t);
      var g := PartLeft(exp, rate, s);
      SharesShrink(exp, v, share, n - 1, s, f, g);
      NextShrinks(exp, v, DecayShares(exp, v, share, n - 1), s, share, g, f, h);
    }
  }

  lemma OneLeft(exp: real -> real, rate: real, t: real, h: real)
    requires Leaves(exp, rate, t, h) && Leaves(exp, rate, 0.0, 1.0) && t == 0.0
    ensures h == 1.0
  {}

  ghost function PartLeft(exp: real -> real, rate: real, dt: real): (f: real)
    ensures Leaves(exp, rate, dt, f)
  {
    exp(-(rate * dt))
  }

  lemma ShareBefore(share: real, n: nat, t: real)
    requires n > 0 && IsProduct(t, n as real, share)
    ensures IsProduct(t - share, (n - 1) as real, share)
  {}

  // However the time is shared out, the whole of it shrinks the vehicle by
  // exp(-rate * dt), while nothing comes to rest in between.
  lemma SharesAddUp(exp: real -> real, v: Vehicle, dt: real, share: real, n: nat, f: real, h: real)
    requires Exponential(exp) && dt >= 0.0 && n > 0 && share == dt / n as real && Shakes(v) && Steady(v)
    requires Leaves(exp, v.vibration.decayRate, share, f) && Leaves(exp, v.vibration.decayRate, dt, h)
    requires forall k: nat :: k < n ==> !Rests(DecayShares(exp, v, share, k), f)
    ensures Shrunk(v, DecayShares(exp, v, share, n), h)
  {
    assert n as real * share == dt;
    SignOfFactor(share, n as real, dt);
    SharesShrink(exp, v, share, n, dt, f, h);
  }

  // ---------- volleys ----------

  // The rocks of a volley are the drawn ones.
  predicate Drawn(w: World, b: Barrage, draws: Draws, events: seq<Attack>) {
    forall k :: 0 <= k < |events| ==> events[k] == Generate(w, b, draws(k), k)
  }

  lemma NextRock(w: World, b: Barrage, draws: Draws, before: Volley, k: nat, after: Volley)
    requires after == Extend(w, b, before, draws(k), k) && |before.events| == k && Drawn(w, b, draws, before.events)
    ensures |after.events| == k + 1 && Drawn(w, b, draws, after.events)
  {}

  lemma {:induction false} Rocks(w: World, b: Barrage, v: Vehicle, draws: Draws, n: nat)
    ensures |Fire(w, b, v, draws, n).events| == n && Drawn(w, b, draws, Fire(w, b, v, draws, n).events)
  {
    if n > 0 {
      Rocks(w, b, v, draws, n - 1);
      FireNext(w, b, v, draws, n - 1);
      NextRock(w, b, draws, Fire(w, b, v, draws, n - 1), n - 1, Fire(w, b, v, draws, n));
    }
  }

  // a is rock k of a session: the drawn one, m times as heavy.
  predicate IsRock(w: World, a: Attack, d: Draw, m: real, id: Id, event: nat) {
    && a.mass == d.mass * m && a.velocity == d.velocity * w.sqrt(m) && a.session == id && a.event == event
    && a.at == d.generatedAt && a.shock.started == d.generatedAt
  }

  predicate Sounds(a: Attack, level: nat) { 4.0 * a.shock.audio == level as real }

  lemma DrawnRock(w: World, b: Barrage, d: Draw, k: nat, a: Attack)
    requires a == Generate(w, b, d, k)
    ensures IsRock(w, a, d, b.multiplier, b.session, b.firstEvent + k)
  {}

  // The slower of two decays counts; a vehicle at rest has none.
  predicate SlowerRate(u: Vehicle, shock: Vibration, rate: real) {
    rate == if 0.0 < u.vibration.decayRate < shock.decayRate then u.vibration.decayRate else shock.decayRate
  }

  // An amplitude x that has lasted for age leaves y, the part f or nothing.
  predicate FadesTo(x: real, f: real, lasts: real, age: int, y: real) {
    if age as real > lasts && f < 0.01 then y == 0.0 else IsProduct(y, x, f)
  }

  // Struck by a at the time now, u shakes by its own amplitude and that of the
  // shock, and dt later r is left with exp(-rate * dt) of it.
  ghost predicate StruckAndFaded(exp: real -> real, u: Vehicle, a: Attack, now: int, dt: real, r: Vehicle) {
    exists rate: real, f: real {:trigger Leaves(exp, rate, dt, f)} ::
      && SlowerRate(u, a.shock, rate) && Leaves(exp, rate, dt, f)
      && FadesTo(u.vibration.amplitude + a.shock.amplitude, f, Max(u.vibration.duration, a.shock.duration),
                 now - a.at, r.vibration.amplitude)
  }

  lemma StruckShakes(u: Vehicle, hit: Vehicle, a: Attack, now: int, rate: real)
    requires hit == ApplyAttack(u, a, now) && u.vibration.amplitude >= 0.0
    requires a.shock.amplitude > 0.0 && 0.0 < a.shock.decayRate < 100.0 && SlowerRate(u, a.shock, rate)
    ensures hit.vibration.amplitude == u.vibration.amplitude + a.shock.amplitude
    ensures hit.vibration.decayRate == rate > 0.0
    ensures hit.vibration.duration == Max(u.vibration.duration, a.shock.duration)
    ensures hit.vibration.started == a.at && hit.timestamp == now
  {}

  lemma ShockShakes(w: World, b: Barrage, d: Draw, k: nat, a: Attack)
    requires a == Generate(w, b, d, k)
    ensures a.shock.amplitude > 0.0 && 0.0 < a.shock.decayRate < 100.0 && a.shock.duration > 0.0
  {}

  lemma FadesAfter(exp: real -> real, hit: Vehicle, dt: real, f: real, r: Vehicle)
    requires Leaves(exp, hit.vibration.decayRate, dt, f) && r == Decay(exp, hit, dt) && Shakes(hit)
    requires hit.vibration.duration > 0.0
    ensures FadesTo(hit.vibration.amplitude, f, hit.vibration.duration, hit.timestamp - hit.vibration.started,
                    r.vibration.amplitude)
  {
    DecayIs(exp, hit, dt, f);
  }

  lemma ExtendFades(w: World, b: Barrage, before: Volley, d: Draw, k: nat, after: Volley, share: real)
    requires after == Extend(w, b, before, d, k) && b.decay == Some(share) && before.vehicle.vibration.amplitude >= 0.0
    ensures StruckAndFaded(w.exp, before.vehicle, after.events[|before.events|], d.appliedAt, share, after.vehicle)
  {
    var u, a := before.vehicle, Generate(w, b, d, k);
    var rate := if 0.0 < u.vibration.decayRate < a.shock.decayRate then u.vibration.decayRate else a.shock.decayRate;
    var hit, f := ApplyAttack(u, a, d.appliedAt), PartLeft(w.exp, rate, share);
    ShockShakes(w, b, d, k, a);
    StruckShakes(u, hit, a, d.appliedAt, rate);
    FadesAfter(w.exp, hit, share, f, after.vehicle);
  }

  lemma {:induction false} VolleyStays(w: World, b: Barrage, v: Vehicle, draws: Draws, n: nat)
    ensures Fire(w, b, v, draws, n).vehicle.motion == v.motion
  {
    if n > 0 {
      VolleyStays(w, b, v, draws, n - 1);
      AttackStays(w, b, v, draws, n - 1);
    }
  }

  lemma AttackStays(w: World, b: Barrage, v: Vehicle, draws: Draws, k: nat)
    ensures Fire(w, b, v, draws, k + 1).vehicle.motion == Fire(w, b, v, draws, k).vehicle.motion
  {
    FireNext(w, b, v, draws, k);
  }

  // ---------- volleys with no time between the attacks ----------

  // The lowest of the positive rates of cv and of the shocks.
  predicate Slowest(cv: Vibration, events: seq<Attack>, rate: real) {
    && (cv.decayRate > 0.0 ==> rate <= cv.decayRate)
    && (forall k :: 0 <= k < |events| ==> rate <= events[k].shock.decayRate)
    && (rate == cv.decayRate > 0.0 || exists k :: 0 <= k < |events| && rate == events[k].shock.decayRate)
  }

  // The longest of the durations.
  predicate Longest(cv: Vibration, events: seq<Attack>, lasts: real) {
    && cv.duration <= lasts
    && (forall k :: 0 <= k < |events| ==> events[k].shock.duration <= lasts)
    && (lasts == cv.duration || exists k :: 0 <= k < |events| && lasts == events[k].shock.duration)
  }

  lemma OneSlowest(cv: Vibration, events: seq<Attack>, rate: real, other: real, lasts: real, longer: real)
    requires Slowest(cv, events, rate) && Slowest(cv, events, other)
    requires Longest(cv, events, lasts) && Longest(cv, events, longer)
    ensures rate == other && lasts == longer
  {}

  // What k attacks without a decay have added to v.
  predicate AddedUp(v: Vehicle, draws: Draws, r: Volley, k: nat) {
    var cv := r.vehicle.vibration;
    && |r.events| == k && cv.amplitude == v.vibration.amplitude + Sum(AmplitudeOf(), r.events) >= 0.0
    && (k > 0 ==> cv.amplitude > 0.0 && cv.started == r.events[k - 1].at
                  && r.vehicle.timestamp == draws(k - 1).appliedAt)
  }

  predicate Calmest(v: Vehicle, r: Volley) {
    var cv := r.vehicle.vibration;
    if r.events == [] then cv.decayRate == v.vibration.decayRate && cv.duration == v.vibration.duration
    else cv.decayRate > 0.0 && cv.duration > 0.0 && Slowest(v.vibration, r.events, cv.decayRate)
         && Longest(v.vibration, r.events, cv.duration)
  }

  lemma SumNext(f: Attack -> real, events: seq<Attack>, a: Attack)
    ensures Sum(f, events + [a]) == Sum(f, events) + f(a)
  {
    assert (events + [a])[..|events|] == events;
  }

  lemma OneSum(events: seq<Attack>)
    requires |events| == 1
    ensures Sum(AmplitudeOf(), events) == events[0].shock.amplitude
  {
    assert events[..0] == [];
  }

  lemma AttackAdds(w: World, b: Barrage, v: Vehicle, draws: Draws, before: Volley, k: nat, after: Volley, a: Attack)
    requires after == Extend(w, b, before, draws(k), k) && b.decay.None? && AddedUp(v, draws, before, k)
    requires a == Generate(w, b, draws(k), k)
    ensures AddedUp(v, draws, after, k + 1)
  {
    ShockShakes(w, b, draws(k), k, a);
    SumNext(AmplitudeOf(), before.events, a);
  }

  lemma SlowestNext(cv: Vibration, events: seq<Attack>, rate: real, a: Attack, next: real)
    requires if events == [] then rate == cv.decayRate else Slowest(cv, events, rate) && rate > 0.0
    requires next == if 0.0 < rate < a.shock.decayRate then rate else a.shock.decayRate
    ensures Slowest(cv, events + [a], next)
  {
    var longer := events + [a];
    assert longer[|events|] == a;
    forall k | 0 <= k < |longer| ensures next <= longer[k].shock.decayRate {
      if k < |events| { assert longer[k] == events[k]; }
    }
    if next == rate && events != [] && rate != cv.decayRate {
      var k :| 0 <= k < |events| && rate == events[k].shock.decayRate;
      assert longer[k] == events[k];
    }
  }

  lemma LongestNext(cv: Vibration, events: seq<Attack>, lasts: real, a: Attack)
    requires if events == [] then lasts == cv.duration else Longest(cv, events, lasts)
    ensures Longest(cv, events + [a], Max(lasts, a.shock.duration))
  {
    var longer := events + [a];
    assert longer[|events|] == a;
    forall k | 0 <= k < |longer| ensures longer[k].shock.duration <= Max(lasts, a.shock.duration) {
      if k < |events| { assert longer[k] == events[k]; }
    }
    if events != [] && lasts != cv.duration {
      var k :| 0 <= k < |events| && lasts == events[k].shock.duration;
      assert longer[k] == events[k];
    }
  }

  lemma AttackCalms(w: World, b: Barrage, v: Vehicle, draws: Draws, before: Volley, k: nat, after: Volley, a: Attack)
    requires after == Extend(w, b, before, draws(k), k) && b.decay.None?
    requires AddedUp(v, draws, before, k) && Calmest(v, before) && a == Generate(w, b, draws(k), k)
    ensures Calmest(v, after)
  {
    var cv := before.vehicle.vibration;
    ShockShakes(w, b, draws(k), k, a);
    var rate := if 0.0 < cv.decayRate < a.shock.decayRate then cv.decayRate else a.shock.decayRate;
    StruckShakes(before.vehicle, after.vehicle, a, draws(k).appliedAt, rate);
    SlowestNext(v.vibration, before.events, cv.decayRate, a, rate);
    LongestNext(v.vibration, before.events, cv.duration, a);
  }

  // Without a decay in between the shocks add up, the slowest decay and the
  // longest duration count.
  lemma {:induction false} VolleyAddsUp(w: World, b: Barrage, v: Vehicle, draws: Draws, n: nat)
    requires b.decay.None? && v.vibration.amplitude >= 0.0
    ensures AddedUp(v, draws, Fire(w, b, v, draws, n), n) && Calmest(v, Fire(w, b, v, draws, n))
  {
    if n > 0 {
      VolleyAddsUp(w, b, v, draws, n - 1);
      FireNext(w, b, v, draws, n - 1);
      var before, a := Fire(w, b, v, draws, n - 1), Generate(w, b, draws(n - 1), n - 1);
      AttackAdds(w, b, v, draws, before, n - 1, Fire(w, b, v, draws, n), a);
      AttackCalms(w, b, v, draws, before, n - 1, Fire(w, b, v, draws, n), a);
    }
  }
}
