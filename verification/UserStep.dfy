// What one time step of backend/src/user_session/user_session_manager.cpp throws
// at a vehicle and what is left of the shaking.
module UserStep {
  import opened VehicleState
  import opened VehicleDecay
  import opened UserSession

  predicate Driven(m: Manager, id: Id) {
    id in m.sessions && id in m.states
  }

  // The rocks of a time step weigh what was drawn and are the recent attacks.
  lemma StepRocks(m: Manager, w: World, id: Id, dt: real, count: nat, draws: Draws, now: int, events: seq<Attack>)
    requires Driven(m, id) && events == StepVolley(m, w, id, dt, count, draws, now).events
    ensures Step(m, w, id, dt, count, draws, now).attacks == m.attacks + count == m.attacks + |events|
    ensures Step(m, w, id, dt, count, draws, now).recent == m.recent[id := events]
    ensures forall k :: 0 <= k < count ==> IsRock(w, events[k], draws(k), 1.0, id, m.attacks + k)
    ensures forall k :: 0 <= k < count ==> Sounds(events[k], draws(k).level)
  {
    var b := VolleyOf(m, w, id, 1.0);
    Rocks(w, b, Moved(w, b.profile, m.states[id], dt, now), draws, count);
    forall k | 0 <= k < count ensures IsRock(w, events[k], draws(k), 1.0, id, m.attacks + k) {
      DrawnRock(w, b, draws(k), k, events[k]);
    }
  }

  // All shocks of a time step add up first, and then the whole of dt fades them
  // once, at the slowest rate.
  lemma StepFades(m: Manager, w: World, id: Id, dt: real, count: nat, draws: Draws, now: int, events: seq<Attack>,
      rate: real, f: real, lasts: real)
    requires Driven(m, id) && count > 0 && m.states[id].vibration.amplitude >= 0.0
    requires events == StepVolley(m, w, id, dt, count, draws, now).events && |events| == count
    requires Slowest(m.states[id].vibration, events, rate) && Leaves(w.exp, rate, dt, f)
    requires Longest(m.states[id].vibration, events, lasts)
    ensures FadesTo(m.states[id].vibration.amplitude + Sum(AmplitudeOf(), events), f, lasts,
                    draws(count - 1).appliedAt - events[count - 1].at,
                    Step(m, w, id, dt, count, draws, now).states[id].vibration.amplitude)
  {
    var b, v := VolleyOf(m, w, id, 1.0), m.states[id];
    var u := StepVolley(m, w, id, dt, count, draws, now).vehicle;
    VolleyAddsUp(w, b, Moved(w, b.profile, v, dt, now), draws, count);
    OneSlowest(v.vibration, events, rate, u.vibration.decayRate, lasts, u.vibration.duration);
    FadesAfter(w.exp, u, dt, f, Decay(w.exp, u, dt));
  }

  // A time step moves the vehicle once by the whole of dt.
  lemma StepMoves(m: Manager, w: World, id: Id, dt: real, count: nat, draws: Draws, now: int)
    requires Driven(m, id)
    ensures Step(m, w, id, dt, count, draws, now).states[id].motion
            == Roll(w, w.profile(m.sessions[id].vehicleType), m.states[id].motion, 0.0, 0.0, dt)
  {
    var b := VolleyOf(m, w, id, 1.0);
    VolleyStays(w, b, Moved(w, b.profile, m.states[id], dt, now), draws, count);
  }

  // A triggered rock weighs its multiple of what was drawn, is the one recent
  // attack and adds its shock: nothing moves and nothing fades.
  lemma TriggerRock(m: Manager, w: World, id: Id, multiplier: real, draws: Draws, now: int, events: seq<Attack>)
    requires Driven(m, id) && m.states[id].vibration.amplitude >= 0.0
    requires events == TriggerVolley(m, w, id, multiplier, draws).events
    ensures |events| == 1 && IsRock(w, events[0], draws(0), multiplier, id, m.attacks)
    ensures Sounds(events[0], draws(0).level)
    ensures var n := Trigger(m, w, id, multiplier, draws, now);
            && n.recent == m.recent[id := events] && n.attacks == m.attacks + 1
            && n.states[id].motion == m.states[id].motion
            && n.states[id].vibration.amplitude == m.states[id].vibration.amplitude + events[0].shock.amplitude
  {
    var b := VolleyOf(m, w, id, multiplier);
    Rocks(w, b, m.states[id], draws, 1);
    DrawnRock(w, b, draws(0), 0, events[0]);
    VolleyStays(w, b, m.states[id], draws, 1);
    VolleyAddsUp(w, b, m.states[id], draws, 1);
    OneSum(events);
  }
}
