// What one tick of backend/src/vr_assault/vr_assault_engine.cpp throws at a
// vehicle and what is left of the shaking, mode by mode.
module VrTick {
  import opened Collections
  import opened VehicleState
  import opened VehicleDecay
  import opened VrEngine

  // A tick in this mode throws n rocks, each m times as heavy as drawn. Survival
  // adds a rock and 15 percent for every five impacts, up to five rocks.
  predicate Throws(mode: Mode, impacts: nat, n: nat, m: real) {
    match mode
    case FreeDrive => n == 1 && m == 0.5
    case AssaultChallenge => n == 2 && m == 1.0
    case Survival => n == (if impacts >= 20 then 5 else impacts / 5 + 1) && m == 1.0 + 0.15 * (impacts / 5) as real
    case TimedRace => n == 1 && m == 0.8
  }

  predicate Playing(e: Engine, id: Id) {
    id in e.sessions && id in e.states && id in e.modes
  }

  lemma ThrowsExact(mode: Mode, impacts: nat, n: nat, m: real)
    requires Throws(mode, impacts, n, m)
    ensures n == AttackCount(mode, impacts) && m == Multiplier(mode, impacts)
  {}

  // The rocks of a tick: how many, how heavy, how fast and how numbered.
  lemma TickRocks(e: Engine, w: World, id: Id, dt: real, draws: Draws, now: int, n: nat, m: real, events: seq<Attack>)
    requires Playing(e, id) && Throws(e.modes[id], e.states[id].impacts, n, m)
    requires events == TickVolley(e, w, id, dt, draws, now).events
    ensures |events| == n && Tick(e, w, id, dt, draws, now).attacks == e.attacks + n
    ensures forall k :: 0 <= k < n ==> IsRock(w, events[k], draws(k), m, id, e.attacks + k)
    ensures forall k :: 0 <= k < n ==> Sounds(events[k], if draws(k).level < 4 then draws(k).level else 4)
  {
    var b, v := TickBarrage(e, w, id, dt), e.states[id];
    ThrowsExact(e.modes[id], v.impacts, n, m);
    Rocks(w, b, Moved(w, b.profile, v, dt, now), draws, n);
    forall k | 0 <= k < n ensures IsRock(w, events[k], draws(k), m, id, e.attacks + k) {
      DrawnRock(w, b, draws(k), k, events[k]);
    }
  }

  // us are the vehicle before the first of the events and after each of them,
  // an equal share of the time apart.
  ghost predicate Shaken(exp: real -> real, us: seq<Vehicle>, events: seq<Attack>, draws: Draws, share: real) {
    && |us| == |events| + 1
    && forall k :: 0 <= k < |events| ==> StruckAndFaded(exp, us[k], events[k], draws(k).appliedAt, share, us[k + 1])
  }

  function After(w: World, b: Barrage, v: Vehicle, draws: Draws, n: nat): seq<Vehicle> {
    seq(n + 1, (k: nat) => Fire(w, b, v, draws, k).vehicle)
  }

  lemma FireShakes(w: World, b: Barrage, v: Vehicle, total: real, draws: Draws, n: nat, share: real)
    requires Ledger(v, total) && Steady(v) && FairBarrage(w, b, draws) && b.decay == Some(share)
    ensures Shaken(w.exp, After(w, b, v, draws, n), Fire(w, b, v, draws, n).events, draws, share)
  {
    Rocks(w, b, v, draws, n);
    forall k | 0 <= k < n
      ensures StruckAndFaded(w.exp, Fire(w, b, v, draws, k).vehicle, Fire(w, b, v, draws, n).events[k],
                             draws(k).appliedAt, share, Fire(w, b, v, draws, k + 1).vehicle)
    {
      VolleyKeeps(w, b, v, total, draws, k);
      Rocks(w, b, v, draws, k);
      FireNext(w, b, v, draws, k);
      ExtendFades(w, b, Fire(w, b, v, draws, k), draws(k), k, Fire(w, b, v, draws, k + 1), share);
    }
  }

  // Every rock of a tick adds its shock to what shakes, and a share dt / n of
  // the time fades it before the next one.
  lemma TickFades(e: Engine, w: World, id: Id, dt: real, draws: Draws, now: int, n: nat, m: real)
    requires Inv(e) && Playing(e, id) && dt >= 0.0 && Damping(w.exp)
    requires FairDraws(draws, w.profile(e.sessions[id].vehicleType))
    requires Throws(e.modes[id], e.states[id].impacts, n, m)
    ensures var events := TickVolley(e, w, id, dt, draws, now).events;
            exists us: seq<Vehicle> :: Shaken(w.exp, us, events, draws, dt / n as real) && |us| == n + 1
              && us[0] == e.states[id].(motion := us[0].motion, timestamp := now)
              && us[n] == Tick(e, w, id, dt, draws, now).states[id]
  {
    var b, v := TickBarrage(e, w, id, dt), e.states[id];
    var moved := Moved(w, b.profile, v, dt, now);
    assert KeysAt(e, id) && SlotAt(e, id);
    ThrowsExact(e.modes[id], v.impacts, n, m);
    ShareOfTime(dt, n);
    FireShakes(w, b, moved, e.results[id].damage, draws, n, dt / n as real);
    Rocks(w, b, moved, draws, n);
    assert After(w, b, moved, draws, n)[0] == moved;
  }

  // A tick moves the vehicle once by the whole of dt.
  lemma TickMoves(e: Engine, w: World, id: Id, dt: real, draws: Draws, now: int)
    requires id in e.sessions && id in e.states
    ensures Tick(e, w, id, dt, draws, now).states[id].motion
            == Roll(w, w.profile(e.sessions[id].vehicleType), e.states[id].motion, 0.0, 0.0, dt)
  {
    var b, v := TickBarrage(e, w, id, dt), e.states[id];
    VolleyStays(w, b, Moved(w, b.profile, v, dt, now), draws, AttackCount(ModeOf(e, id), v.impacts));
  }

  // What a tick reports of a session is what its vehicle shows afterwards.
  lemma TickReports(e: Engine, w: World, id: Id, dt: real, draws: Draws, now: int)
    requires Inv(e) && id in e.sessions && id in e.states && id in e.results
    ensures var f := Tick(e, w, id, dt, draws, now);
            && id in f.states && id in f.results
            && f.results[id].distance == f.states[id].motion.distance && f.results[id].health == f.states[id].health
            && f.results[id].attacks == f.states[id].impacts && f.results[id].waves == f.states[id].impacts / 5
  {}

  // A triggered rock weighs its multiple of what was drawn and adds its shock:
  // nothing moves and nothing fades.
  lemma TriggerRock(e: Engine, w: World, id: Id, multiplier: real, draws: Draws, now: int, events: seq<Attack>)
    requires id in e.sessions && id in e.states && e.states[id].vibration.amplitude >= 0.0
    requires events == Fire(w, TriggerBarrage(e, w, id, multiplier), e.states[id], draws, 1).events
    ensures |events| == 1 && IsRock(w, events[0], draws(0), multiplier, id, e.attacks)
    ensures Sounds(events[0], if draws(0).level < 4 then draws(0).level else 4)
    ensures var f := Trigger(e, w, id, multiplier, draws, now);
            && f.attacks == e.attacks + 1 && f.states[id].motion == e.states[id].motion
            && f.states[id].vibration.amplitude == e.states[id].vibration.amplitude + events[0].shock.amplitude
  {
    var b := TriggerBarrage(e, w, id, multiplier);
    Rocks(w, b, e.states[id], draws, 1);
    DrawnRock(w, b, draws(0), 0, events[0]);
    VolleyStays(w, b, e.states[id], draws, 1);
    VolleyAddsUp(w, b, e.states[id], draws, 1);
    OneSum(events);
  }
}
