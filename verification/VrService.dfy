// The methods of backend/src/vr_assault/vr_assault_engine.cpp, updating the four
// maps in place, each against the operation of VrEngine it carries out.
module VrService {
  import opened Collections
  import opened VehicleState
  import opened SessionIds
  import opened VrEngine

  class VRAssaultEngine {
    const world: World
    var sessions: map<Id, Session>
    var states: map<Id, Vehicle>
    var results: map<Id, Result>
    var modes: map<Id, Mode>
    var created: nat
    var attacks: nat
    var issued: nat

    ghost function View(): Engine
      reads this
    {
      Engine(sessions, states, results, modes, created, attacks, issued)
    }

    // The invariant of every reachable state, for a world that damps.
    ghost predicate Valid()
      reads this
    {
      Damping(world.exp) && Inv(View())
    }

    constructor (world: World)
      ensures View() == EMPTY && this.world == world
      ensures Damping(world.exp) ==> Valid()
    {
      this.world := world;
      sessions, states, results, modes := map[], map[], map[], map[];
      created, attacks, issued := 0, 0, 0;
    }

    method GenerateSessionId(tail: string) returns (id: Id)
      modifies this`issued
      ensures issued == old(issued) + 1 && id == SessionId(old(issued), tail)
    {
      var counter := issued % COUNTER_LIMIT;
      issued := issued + 1;
      id := Hex(counter / WORD, 8) + Hex(counter % WORD, 8) + "-" + tail;
    }

    method StartSession(nickname: string, vehicleType: string, mode: Mode, tail: string, now: int) returns (id: Id)
      modifies this
      ensures View() == Start(old(View()), nickname, vehicleType, mode, tail, now)
      ensures id == SessionId(old(issued), tail)
      ensures old(Valid()) && Allowed(world, old(View()), DoStart(nickname, vehicleType, mode, tail, now)) ==> Valid()
    {
      ghost var e := View();
      id := GenerateSessionId(tail);
      var session := Session(id, now, now, nickname, vehicleType, created % WORD);
      var motion := Motion(0.0, 30.0, 180.0, 0.0, 0.0);
      var state := Vehicle(id, motion, 100.0, 100.0, 0, now, STILL, LEVEL);
      var result := Result(id, now, 0, 100.0, 0.0, 0, 0.0, 0, 0.0, "D");
      sessions := sessions[id := session];
      states := states[id := state];
      results := results[id := result];
      modes := modes[id := mode];
      created := created + 1;
      Kept(world, e, DoStart(nickname, vehicleType, mode, tail, now), View());
    }

    method EndSession(id: Id, now: int)
      modifies this
      ensures View() == End(old(View()), id, now)
      ensures old(Valid()) && Allowed(world, old(View()), DoEnd(id, now)) ==> Valid()
    {
      ghost var e := View();
      if id !in sessions { return; }
      if id in states && id in results {
        var state, result := states[id], results[id];
        result := result.(ended := now);
        result := result.(health := state.health);
        result := result.(distance := state.motion.distance);
        result := result.(attacks := state.impacts);
        result := result.(waves := state.impacts / 5);
        result := result.(score := Score(state));
        result := result.(rank := Rank(result.score));
        results := results[id := result];
      }
      sessions := sessions - {id};
      modes := modes - {id};
      Kept(world, e, DoEnd(id, now), View());
    }

    // The stored result, also of an ended session. There is one exactly for the
    // sessions that have a vehicle record, and its damage is what the record's
    // armour and health show.
    method GetRoundResult(id: Id) returns (result: Option<Result>)
      ensures result == if id in results then Some(results[id]) else None
      ensures Valid() ==> (result.Some? <==> id in states)
      ensures Valid() && result.Some? ==> result.value.id == id && Lawful(states[id], result.value.damage)
    {
      if id in results { result := Some(results[id]); } else { result := None; }
      if Valid() { InvLaws(View(), id); }
    }

    method TouchSession(id: Id, now: int)
      requires id in sessions
      modifies this`sessions
      ensures View() == Touch(old(View()), id, now)
    {
      sessions := sessions[id := sessions[id].(lastActive := now)];
    }

    method ApplyAction(id: Id, action: string, param: real, now: int) returns (state: Option<Vehicle>)
      modifies this
      ensures View() == Act(old(View()), world, id, action, param, now)
      ensures state == if id in old(sessions) && id in old(states) then Some(states[id]) else None
      ensures old(Valid()) && Allowed(world, old(View()), DoAct(id, action, param, now)) ==> Valid()
      ensures old(Valid()) && state.Some? ==> id in results && Lawful(state.value, results[id].damage)
    {
      ghost var e := View();
      if id !in sessions { return None; }
      TouchSession(id, now);
      if id !in states {
        Kept(world, e, DoAct(id, action, param, now), View());
        return None;
      }
      var v := states[id];
      var p := world.profile(sessions[id].vehicleType);
      var m := Steer(p, v.motion, action, param);
      states := states[id := v.(motion := m, timestamp := now)];
      state := Some(states[id]);
      Kept(world, e, DoAct(id, action, param, now), View());
      if Valid() { InvLaws(View(), id); }
    }

    // One hit on the state, and its damage on the round result.
    method Strike(id: Id, attack: Attack, now: int)
      requires id in states
      modifies this`states, this`results
      ensures states == old(states)[id := ApplyAttack(old(states)[id], attack, now)]
      ensures results == AddDamage(old(results), old(states)[id].id, attack.damage)
    {
      var state := ApplyAttackToState(states[id], attack, now);
      states := states[id := state];
      if state.id in results {
        var result := results[state.id];
        results := results[state.id := result.(damage := result.damage + attack.damage)];
      }
    }

    // One attack of a tick: it lands on the state and the round result, then
    // decays for its share of the time.
    method AttackOnce(id: Id, b: Barrage, dtEach: real, draws: Draws, k: nat, ghost v: Vehicle, ghost before: Volley,
                      ghost after: Volley, ghost results0: map<Id, Result>) returns (attack: Attack)
      requires id in states && states[id] == before.vehicle && attacks == b.firstEvent + k
      requires b.decay == Some(dtEach) && before == Fire(world, b, v, draws, k)
      requires after == Fire(world, b, v, draws, k + 1)
      requires results == AddDamage(results0, before.vehicle.id, before.damage)
      modifies this`states, this`results, this`attacks
      ensures states == old(states)[id := after.vehicle] && attacks == old(attacks) + 1
      ensures results == AddDamage(results0, before.vehicle.id, after.damage)
      ensures after.vehicle.id == before.vehicle.id && after.events == before.events + [attack]
    {
      FireNext(world, b, v, draws, k);
      attack := GenerateAttack(world, b, draws(k), attacks, k);
      attacks := attacks + 1;
      Strike(id, attack, draws(k).appliedAt);
      AddDamageTwice(results0, before.vehicle.id, before.damage, attack.damage);
      var faded := DecayVibration(world.exp, states[id], dtEach);
      states := states[id := faded];
    }

    method AttackAll(id: Id, b: Barrage, dtEach: real, draws: Draws, count: nat) returns (events: seq<Attack>)
      requires id in states && b.decay == Some(dtEach) && b.firstEvent == attacks
      modifies this`states, this`results, this`attacks
      ensures var r := Fire(world, b, old(states)[id], draws, count);
        && events == r.events && states == old(states)[id := r.vehicle] && attacks == old(attacks) + count
        && results == AddDamage(old(results), old(states)[id].id, r.damage)
    {
      ghost var v, states0, results0 := states[id], states, results;
      ghost var before := Volley(v, 0.0, []);
      events := [];
      ZeroDamage(results, v.id);
      for i := 0 to count
        invariant before == Fire(world, b, v, draws, i) && before.vehicle.id == v.id
        invariant states == states0[id := before.vehicle] && attacks == b.firstEvent + i
        invariant results == AddDamage(results0, v.id, before.damage) && events == before.events
      {
        ghost var after := Fire(world, b, v, draws, i + 1);
        var attack := AttackOnce(id, b, dtEach, draws, i, v, before, after, results0);
        before := after;
        events := events + [attack];
      }
    }

    method ReportProgress(id: Id)
      requires id in states
      modifies this`results
      ensures results == Reported(old(results), id, states[id])
    {
      if id in results {
        var result, state := results[id], states[id];
        result := result.(distance := state.motion.distance);
        result := result.(attacks := state.impacts);
        result := result.(waves := state.impacts / 5);
        result := result.(health := state.health);
        results := results[id := result];
      }
    }

    method Wave(id: Id) returns (count: nat, multiplier: real)
      requires id in states
      ensures count == AttackCount(ModeOf(View(), id), states[id].impacts)
      ensures multiplier == Multiplier(ModeOf(View(), id), states[id].impacts)
    {
      var mode := if id in modes then modes[id] else FreeDrive;
      count, multiplier := 1, 1.0;
      match mode {
        case FreeDrive => multiplier := 0.5;
        case AssaultChallenge => count := 2;
        case Survival =>
          var wave := states[id].impacts / 5;
          count := if 1 + wave < 5 then 1 + wave else 5;
          multiplier := 1.0 + wave as real * 0.15;
        case TimedRace => multiplier := 0.8;
      }
    }

    // Motion, then the attacks the mode calls for.
    method MoveAndAttack(id: Id, dt: real, draws: Draws, now: int) returns (events: seq<Attack>)
      requires id in sessions && id in states
      modifies this`states, this`results, this`attacks
      ensures var e := old(View()); var r := TickVolley(e, world, id, dt, draws, now);
        && events == r.events && states == e.states[id := r.vehicle]
        && attacks == e.attacks + AttackCount(ModeOf(e, id), e.states[id].impacts)
        && results == AddDamage(e.results, e.states[id].id, r.damage)
    {
      ghost var e, v := View(), states[id];
      var p := world.profile(sessions[id].vehicleType);
      var moved := MoveVehicle(world, p, states[id], 0.0, 0.0, dt, now);
      states := states[id := moved];
      var count, multiplier := Wave(id);
      var b := Barrage(id, p, multiplier, Audio, Some(dt / count as real), attacks);
      assert b == TickBarrage(e, world, id, dt) && moved == Moved(world, p, v, dt, now);
      events := AttackAll(id, b, dt / count as real, draws, count);
    }

    method Tick(id: Id, dt: real, draws: Draws, now: int) returns (events: seq<Attack>)
      modifies this
      ensures View() == VrEngine.Tick(old(View()), world, id, dt, draws, now)
      ensures events == if id in old(sessions) && id in old(states)
                        then TickVolley(old(View()), world, id, dt, draws, now).events else []
      ensures old(Valid()) && Allowed(world, old(View()), DoTick(id, dt, draws, now)) ==> Valid()
    {
      ghost var e := View();
      events := MoveAttackReport(id, dt, draws, now);
      Kept(world, e, DoTick(id, dt, draws, now), View());
    }

    method MoveAttackReport(id: Id, dt: real, draws: Draws, now: int) returns (events: seq<Attack>)
      modifies this
      ensures View() == VrEngine.Tick(old(View()), world, id, dt, draws, now)
      ensures events == if id in old(sessions) && id in old(states)
                        then TickVolley(old(View()), world, id, dt, draws, now).events else []
    {
      if id !in sessions { return []; }
      ghost var e := View();
      TouchSession(id, now);
      if id !in states { return []; }
      ghost var r := TickVolley(e, world, id, dt, draws, now);
      assert r == TickVolley(View(), world, id, dt, draws, now);
      events := MoveAndAttack(id, dt, draws, now);
      ReportProgress(id);
    }

    method TriggerAttack(id: Id, multiplier: real, draws: Draws, now: int) returns (events: seq<Attack>)
      modifies this
      ensures View() == Trigger(old(View()), world, id, multiplier, draws, now)
      ensures events == if id in old(sessions) && id in old(states)
                        then Fire(world, TriggerBarrage(old(View()), world, id, multiplier), old(states)[id],
                                  draws, 1).events
                        else []
      ensures old(Valid()) && Allowed(world, old(View()), DoTrigger(id, multiplier, draws, now)) ==> Valid()
    {
      ghost var e := View();
      if id !in sessions { return []; }
      TouchSession(id, now);
      if id !in states {
        Kept(world, e, DoTrigger(id, multiplier, draws, now), View());
        return [];
      }
      var b := Barrage(id, world.profile(sessions[id].vehicleType), multiplier, Audio, None, attacks);
      assert b == TriggerBarrage(e, world, id, multiplier);
      FireNext(world, b, states[id], draws, 0);
      var attack := GenerateAttack(world, b, draws(0), attacks, 0);
      attacks := attacks + 1;
      Strike(id, attack, draws(0).appliedAt);
      events := [attack];
      Kept(world, e, DoTrigger(id, multiplier, draws, now), View());
    }

    method ResetSession(id: Id, now: int)
      modifies this
      ensures View() == Reset(old(View()), id, now)
      ensures old(Valid()) && Allowed(world, old(View()), DoReset(id, now)) ==> Valid()
    {
      ghost var e := View();
      if id !in sessions { return; }
      TouchSession(id, now);
      if id in states {
        var state := states[id];
        state := state.(motion := Motion(0.0, 30.0, 180.0, 0.0, 0.0));
        state := state.(health := 100.0, armor := 100.0, impacts := 0, timestamp := now);
        state := state.(vibration := STILL, pose := LEVEL);
        states := states[id := state];
      }
      if id in results {
        var result := results[id];
        result := result.(started := now, ended := 0, health := 100.0, distance := 0.0, attacks := 0);
        result := result.(damage := 0.0, waves := 0, score := 0.0, rank := "D");
        results := results[id := result];
      }
      Kept(world, e, DoReset(id, now), View());
    }

    method DropIfExpired(id: Id, timeout: int, now: int)
      requires id in sessions
      modifies this`sessions, this`states, this`results, this`modes
      ensures View() == Without(old(View()), id, timeout, now)
    {
      if now - sessions[id].lastActive > timeout {
        states := states - {id};
        results := results - {id};
        modes := modes - {id};
        sessions := sessions - {id};
      }
    }

    method CleanupExpired(timeout: int, now: int)
      modifies this
      ensures View() == Cleanup(old(View()), timeout, now)
      ensures old(Valid()) && Allowed(world, old(View()), DoCleanup(timeout, now)) ==> Valid()
    {
      ghost var e := View();
      var todo := sessions.Keys;
      ghost var done: set<Id> := {};
      while todo != {}
        invariant todo !! done && forall id :: id in todo || id in done <==> id in e.sessions
        invariant Swept(e, View(), done, timeout, now)
        decreases |todo|
      {
        SomeString(todo);
        var id: Id :| id in todo;
        assert !Dropped(e, done, timeout, now, id);
        ghost var f := View();
        DropIfExpired(id, timeout, now);
        todo := todo - {id};
        done := done + {id};
        SweptStep(e, f, View(), done - {id}, id, timeout, now);
      }
      SweptAll(e, View(), done, timeout, now);
      Kept(world, e, DoCleanup(timeout, now), View());
    }
  }

  lemma Kept(w: World, e: Engine, a: Action, f: Engine)
    requires f == Next(w, e, a)
    ensures Damping(w.exp) && Inv(e) && Allowed(w, e, a) ==> Inv(f)
  {
    if Damping(w.exp) && Inv(e) && Allowed(w, e, a) { StepKeeps(w, e, a); }
  }

  lemma ZeroDamage(results: map<Id, Result>, id: Id)
    ensures AddDamage(results, id, 0.0) == results
  {
    if id in results { assert results[id].(damage := results[id].damage + 0.0) == results[id]; }
  }

  lemma AddDamageTwice(results: map<Id, Result>, id: Id, x: real, y: real)
    ensures AddDamage(AddDamage(results, id, x), id, y) == AddDamage(results, id, x + y)
  {
    if id in results { assert results[id].damage + x + y == results[id].damage + (x + y); }
  }

  predicate Dropped(e: Engine, done: set<Id>, timeout: int, now: int, id: Id) {
    id in done && id in e.sessions && Expired(e.sessions[id], timeout, now)
  }

  // Cleanup so far: of the sessions seen, exactly the expired ones are gone.
  ghost predicate Swept(e: Engine, f: Engine, done: set<Id>, timeout: int, now: int) {
    && f.created == e.created && f.attacks == e.attacks && f.issued == e.issued
    && forall id: Id :: var gone := Dropped(e, done, timeout, now, id);
         && Rest(e.sessions, f.sessions, id, gone) && Rest(e.states, f.states, id, gone)
         && Rest(e.results, f.results, id, gone) && Rest(e.modes, f.modes, id, gone)
  }

  function Without(e: Engine, id: Id, timeout: int, now: int): Engine
    requires id in e.sessions
  {
    if Expired(e.sessions[id], timeout, now)
    then e.(sessions := e.sessions - {id}, states := e.states - {id}, results := e.results - {id},
            modes := e.modes - {id})
    else e
  }

  lemma SweptStep(e: Engine, f: Engine, g: Engine, done: set<Id>, id: Id, timeout: int, now: int)
    requires Swept(e, f, done, timeout, now) && id in e.sessions && id !in done
    requires id in f.sessions && f.sessions[id] == e.sessions[id] && g == Without(f, id, timeout, now)
    ensures Swept(e, g, done + {id}, timeout, now)
  {
    forall other: Id
      ensures var gone := Dropped(e, done + {id}, timeout, now, other);
        && Rest(e.sessions, g.sessions, other, gone) && Rest(e.states, g.states, other, gone)
        && Rest(e.results, g.results, other, gone) && Rest(e.modes, g.modes, other, gone)
    {
      assert Dropped(e, done, timeout, now, other) || !Dropped(e, done, timeout, now, other);
    }
  }

  lemma SweptAll(e: Engine, f: Engine, done: set<Id>, timeout: int, now: int)
    requires Swept(e, f, done, timeout, now) && forall id :: id in done <==> id in e.sessions
    ensures f == Cleanup(e, timeout, now)
  {
    var g := Cleanup(e, timeout, now);
    forall id: Id
      ensures Rest(g.sessions, f.sessions, id, false) && Rest(g.states, f.states, id, false)
      ensures Rest(g.results, f.results, id, false) && Rest(g.modes, f.modes, id, false)
    {
      assert Dropped(e, done, timeout, now, id) <==> id in ExpiredIds(e, timeout, now);
    }
    SameMap(g.sessions, f.sessions);
    SameMap(g.states, f.states);
    SameMap(g.results, f.results);
    SameMap(g.modes, f.modes);
  }
}
