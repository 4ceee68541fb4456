// The methods of backend/src/user_session/user_session_manager.cpp, updating the
// three maps in place, each against the operation of UserSession it carries out.
module UserService {
  import opened Collections
  import opened VehicleState
  import opened SessionIds
  import opened UserSession

  class UserSessionManager {
    const world: World
    var sessions: map<Id, Session>
    var states: map<Id, Vehicle>
    var recent: map<Id, seq<Attack>>
    var created: nat
    var attacks: nat
    var issued: nat
    ghost var taken: Id -> real // damage since creation or the last reset

    ghost function View(): Manager
      reads this
    {
      Manager(sessions, states, recent, created, attacks, issued)
    }

    ghost predicate Valid()
      reads this
    {
      Damping(world.exp) && AllHeld(View(), taken)
    }

    constructor (world: World)
      ensures View() == EMPTY && this.world == world
      ensures Damping(world.exp) ==> Valid()
    {
      this.world := world;
      taken := _ => 0.0;
      sessions, states, recent := map[], map[], map[];
      created, attacks, issued := 0, 0, 0;
    }

    method CreateSession(nickname: string, vehicleType: string, tail: string, now: int) returns (session: Session)
      modifies this
      ensures View() == Create(old(View()), nickname, vehicleType, tail, now)
      ensures session.id == SessionId(old(issued), tail) && sessions[session.id] == session
      ensures taken == Tallied(world, old(View()), DoCreate(nickname, vehicleType, tail, now), old(taken))
      ensures old(Valid()) && Allowed(world, old(View()), DoCreate(nickname, vehicleType, tail, now)) ==> Valid()
    {
      ghost var m := View();
      var id := SessionId(issued, tail);
      issued := issued + 1;
      session := Session(id, now, now, nickname, vehicleType, created % WORD);
      var motion := Motion(0.0, 30.0, 180.0, 0.0, 0.0);
      var state := Vehicle(id, motion, 100.0, 100.0, 0, now, STILL, LEVEL);
      sessions := sessions[id := session];
      states := states[id := state];
      recent := recent[id := []];
      created := created + 1;
      Tally(m, DoCreate(nickname, vehicleType, tail, now));
    }

    // Books what an action that has been carried out does to the totals.
    ghost method Tally(m: Manager, a: Action)
      requires View() == Next(world, m, a)
      modifies this`taken
      ensures taken == Tallied(world, m, a, old(taken))
      ensures Damping(world.exp) && AllHeld(m, old(taken)) && Allowed(world, m, a) ==> Valid()
    {
      TallyKeeps(world, m, a, View(), taken);
      taken := Tallied(world, m, a, taken);
    }

    method DestroySession(id: Id)
      modifies this
      ensures View() == Destroy(old(View()), id)
      ensures taken == Tallied(world, old(View()), DoDestroy(id), old(taken))
      ensures old(Valid()) && Allowed(world, old(View()), DoDestroy(id)) ==> Valid()
    {
      ghost var m := View();
      sessions := sessions - {id};
      states := states - {id};
      recent := recent - {id};
      Tally(m, DoDestroy(id));
    }

    method TouchSession(id: Id, now: int)
      requires id in sessions
      modifies this`sessions
      ensures View() == Touch(old(View()), id, now)
    {
      sessions := sessions[id := sessions[id].(lastActive := now)];
    }

    method ApplyAction(id: Id, action: string, param: real, now: int) returns (state: Option<Vehicle>)
      modifies this
      ensures View() == Act(old(View()), world, id, action, param, now)
      ensures state == if id in old(sessions) && id in old(states) then Some(states[id]) else None
      ensures taken == Tallied(world, old(View()), DoAct(id, action, param, now), old(taken))
      ensures old(Valid()) && Allowed(world, old(View()), DoAct(id, action, param, now)) ==> Valid()
      ensures old(Valid()) && state.Some? ==> Lawful(state.value, taken(id))
    {
      ghost var before := View();
      state := SteerSession(id, action, param, now);
      Tally(before, DoAct(id, action, param, now));
      if Valid() { HeldLawful(View(), taken, id); }
    }

    method SteerSession(id: Id, action: string, param: real, now: int) returns (state: Option<Vehicle>)
      modifies this`sessions, this`states
      ensures View() == Act(old(View()), world, id, action, param, now)
      ensures state == if id in old(sessions) && id in old(states) then Some(states[id]) else None
    {
      if id !in sessions { return None; }
      TouchSession(id, now);
      if id !in states { return None; }
      var v := states[id];
      var m := Steer(world.profile(sessions[id].vehicleType), v.motion, action, param);
      states := states[id := v.(motion := m, timestamp := now)];
      state := Some(states[id]);
    }

    method AttackOnce(id: Id, b: Barrage, draws: Draws, k: nat, ghost v: Vehicle, ghost before: Volley,
                      ghost after: Volley) returns (attack: Attack)
      requires id in states && states[id] == before.vehicle && attacks == b.firstEvent + k
      requires b.decay == None && before == Fire(world, b, v, draws, k) && after == Fire(world, b, v, draws, k + 1)
      modifies this`states, this`attacks
      ensures states == old(states)[id := after.vehicle] && attacks == old(attacks) + 1
      ensures after.events == before.events + [attack]
    {
      FireNext(world, b, v, draws, k);
      attack := GenerateAttack(world, b, draws(k), attacks, k);
      attacks := attacks + 1;
      var state := ApplyAttackToState(states[id], attack, draws(k).appliedAt);
      states := states[id := state];
    }

    method AttackAll(id: Id, b: Barrage, draws: Draws, count: nat) returns (events: seq<Attack>)
      requires id in states && b.decay == None && b.firstEvent == attacks
      modifies this`states, this`attacks
      ensures var r := Fire(world, b, old(states)[id], draws, count);
        events == r.events && states == old(states)[id := r.vehicle] && attacks == old(attacks) + count
    {
      ghost var v := states[id];
      ghost var before := Volley(v, 0.0, []);
      events := [];
      for i := 0 to count
        invariant before == Fire(world, b, v, draws, i) && events == before.events
        invariant states == old(states)[id := before.vehicle] && attacks == b.firstEvent + i
      {
        ghost var after := Fire(world, b, v, draws, i + 1);
        var attack := AttackOnce(id, b, draws, i, v, before, after);
        before := after;
        events := events + [attack];
      }
    }

    // Motion, then every attack of the step.
    method MoveAndAttack(id: Id, dt: real, attackCount: nat, draws: Draws, now: int) returns (events: seq<Attack>)
      requires id in sessions && id in states
      modifies this`states, this`attacks
      ensures var r := StepVolley(old(View()), world, id, dt, attackCount, draws, now);
        events == r.events && states == old(states)[id := r.vehicle] && attacks == old(attacks) + attackCount
    {
      ghost var m, v := View(), states[id];
      var p := world.profile(sessions[id].vehicleType);
      var moved := MoveVehicle(world, p, states[id], 0.0, 0.0, dt, now);
      states := states[id := moved];
      var b := Barrage(id, p, 1.0, Audio, None, attacks);
      assert b == VolleyOf(m, world, id, 1.0) && moved == Moved(world, p, v, dt, now);
      events := AttackAll(id, b, draws, attackCount);
    }

    method ProcessTimeStep(id: Id, dt: real, attackCount: nat, draws: Draws, now: int) returns (events: seq<Attack>)
      requires 1 <= attackCount <= 3
      modifies this
      ensures View() == Step(old(View()), world, id, dt, attackCount, draws, now)
      ensures events == if id in old(sessions) && id in old(states)
                        then StepVolley(old(View()), world, id, dt, attackCount, draws, now).events else []
      ensures taken == Tallied(world, old(View()), DoStep(id, dt, attackCount, draws, now), old(taken))
      ensures old(Valid()) && Allowed(world, old(View()), DoStep(id, dt, attackCount, draws, now)) ==> Valid()
    {
      ghost var m := View();
      events := MoveAttackDecay(id, dt, attackCount, draws, now);
      Tally(m, DoStep(id, dt, attackCount, draws, now));
    }

    method MoveAttackDecay(id: Id, dt: real, attackCount: nat, draws: Draws, now: int) returns (events: seq<Attack>)
      modifies this`sessions, this`states, this`recent, this`attacks
      ensures View() == Step(old(View()), world, id, dt, attackCount, draws, now)
      ensures events == if id in old(sessions) && id in old(states)
                        then StepVolley(old(View()), world, id, dt, attackCount, draws, now).events else []
    {
      if id !in sessions { return []; }
      ghost var m := View();
      TouchSession(id, now);
      if id !in states { return []; }
      ghost var r := StepVolley(m, world, id, dt, attackCount, draws, now);
      assert r == StepVolley(View(), world, id, dt, attackCount, draws, now);
      events := MoveAndAttack(id, dt, attackCount, draws, now);
      recent := recent[id := events];
      var faded := DecayVibration(world.exp, states[id], dt);
      states := states[id := faded];
    }

    method TriggerRockAttack(id: Id, multiplier: real, draws: Draws, now: int) returns (events: seq<Attack>)
      modifies this
      ensures View() == Trigger(old(View()), world, id, multiplier, draws, now)
      ensures events == if id in old(sessions) && id in old(states)
                        then TriggerVolley(old(View()), world, id, multiplier, draws).events else []
      ensures taken == Tallied(world, old(View()), DoTrigger(id, multiplier, draws, now), old(taken))
      ensures old(Valid()) && Allowed(world, old(View()), DoTrigger(id, multiplier, draws, now)) ==> Valid()
    {
      ghost var m := View();
      events := AttackNow(id, multiplier, draws, now);
      Tally(m, DoTrigger(id, multiplier, draws, now));
    }

    method AttackNow(id: Id, multiplier: real, draws: Draws, now: int) returns (events: seq<Attack>)
      modifies this`sessions, this`states, this`recent, this`attacks
      ensures View() == Trigger(old(View()), world, id, multiplier, draws, now)
      ensures events == if id in old(sessions) && id in old(states)
                        then TriggerVolley(old(View()), world, id, multiplier, draws).events else []
    {
      if id !in sessions { return []; }
      ghost var m := View();
      TouchSession(id, now);
      if id !in states { return []; }
      var b := Barrage(id, world.profile(sessions[id].vehicleType), multiplier, Audio, None, attacks);
      assert b == VolleyOf(m, world, id, multiplier);
      events := AttackAll(id, b, draws, 1);
      recent := recent[id := events];
    }

    method ResetSession(id: Id, now: int)
      modifies this
      ensures View() == Reset(old(View()), id, now)
      ensures taken == Tallied(world, old(View()), DoReset(id, now), old(taken))
      ensures old(Valid()) && Allowed(world, old(View()), DoReset(id, now)) ==> Valid()
    {
      ghost var m := View();
      if id !in sessions {
        Tally(m, DoReset(id, now));
        return;
      }
      TouchSession(id, now);
      if id in states {
        var state := states[id];
        state := state.(motion := Motion(0.0, 30.0, 180.0, 0.0, 0.0));
        state := state.(health := 100.0, armor := 100.0, impacts := 0, timestamp := now);
        states := states[id := state];
      }
      if id in recent { recent := recent[id := []]; }
      Tally(m, DoReset(id, now));
    }

    method DropIfExpired(id: Id, timeout: int, now: int)
      requires id in sessions
      modifies this`sessions, this`states, this`recent
      ensures View() == Without(old(View()), id, timeout, now)
    {
      if now - sessions[id].lastActive > timeout {
        states := states - {id};
        recent := recent - {id};
        sessions := sessions - {id};
      }
    }

    method CleanupExpiredSessions(timeout: int, now: int)
      modifies this
      ensures View() == Cleanup(old(View()), timeout, now)
      ensures taken == Tallied(world, old(View()), DoCleanup(timeout, now), old(taken))
      ensures old(Valid()) && Allowed(world, old(View()), DoCleanup(timeout, now)) ==> Valid()
    {
      ghost var m := View();
      var todo := sessions.Keys;
      ghost var done: set<Id> := {};
      while todo != {}
        invariant todo !! done && forall id :: id in todo || id in done <==> id in m.sessions
        invariant Swept(m, View(), done, timeout, now) && taken == old(taken)
        decreases |todo|
      {
        SomeString(todo);
        var id: Id :| id in todo;
        assert !Dropped(m, done, timeout, now, id);
        ghost var n := View();
        DropIfExpired(id, timeout, now);
        todo := todo - {id};
        done := done + {id};
        SweptStep(m, n, View(), done - {id}, id, timeout, now);
      }
      SweptAll(m, View(), done, timeout, now);
      Tally(m, DoCleanup(timeout, now));
    }
  }

  ghost predicate AllHeld(m: Manager, taken: Id -> real) {
    forall id: Id :: Held(m, id, taken(id))
  }

  // The totals after an action.
  function Tallied(w: World, m: Manager, a: Action, taken: Id -> real): Id -> real {
    id => if Clears(m, a, id) then 0.0 else taken(id) + Dealt(w, m, a, id)
  }

  lemma TallyKeeps(w: World, m: Manager, a: Action, n: Manager, taken: Id -> real)
    requires n == Next(w, m, a)
    ensures Damping(w.exp) && AllHeld(m, taken) && Allowed(w, m, a) ==> AllHeld(n, Tallied(w, m, a, taken))
  {
    if Damping(w.exp) && AllHeld(m, taken) && Allowed(w, m, a) {
      forall id: Id ensures Held(n, id, Tallied(w, m, a, taken)(id)) {
        ActionHeld(w, m, a, n, id, taken(id));
      }
    }
  }

  lemma HeldLawful(m: Manager, taken: Id -> real, id: Id)
    requires AllHeld(m, taken)
    ensures id in m.states ==> Lawful(m.states[id], taken(id))
  {
    assert Held(m, id, taken(id));
    if id in m.states { KeptIsLawful(m.states[id], taken(id)); }
  }

  predicate Dropped(m: Manager, done: set<Id>, timeout: int, now: int, id: Id) {
    id in done && id in m.sessions && Expired(m.sessions[id], timeout, now)
  }

  // Cleanup so far: of the sessions seen, exactly the expired ones are gone.
  ghost predicate Swept(m: Manager, n: Manager, done: set<Id>, timeout: int, now: int) {
    && n.created == m.created && n.attacks == m.attacks && n.issued == m.issued
    && forall id: Id :: var gone := Dropped(m, done, timeout, now, id);
         && Rest(m.sessions, n.sessions, id, gone) && Rest(m.states, n.states, id, gone)
         && Rest(m.recent, n.recent, id, gone)
  }

  function Without(m: Manager, id: Id, timeout: int, now: int): Manager
    requires id in m.sessions
  {
    if Expired(m.sessions[id], timeout, now)
    then m.(sessions := m.sessions - {id}, states := m.states - {id}, recent := m.recent - {id})
    else m
  }

  lemma SweptStep(m: Manager, n: Manager, r: Manager, done: set<Id>, id: Id, timeout: int, now: int)
    requires Swept(m, n, done, timeout, now) && id in m.sessions && id !in done
    requires id in n.sessions && n.sessions[id] == m.sessions[id] && r == Without(n, id, timeout, now)
    ensures Swept(m, r, done + {id}, timeout, now)
  {
    forall other: Id
      ensures var gone := Dropped(m, done + {id}, timeout, now, other);
        && Rest(m.sessions, r.sessions, other, gone) && Rest(m.states, r.states, other, gone)
        && Rest(m.recent, r.recent, other, gone)
    {
      assert Dropped(m, done, timeout, now, other) || !Dropped(m, done, timeout, now, other);
    }
  }

  lemma SweptAll(m: Manager, n: Manager, done: set<Id>, timeout: int, now: int)
    requires Swept(m, n, done, timeout, now) && forall id :: id in done <==> id in m.sessions
    ensures n == Cleanup(m, timeout, now)
  {
    var r := Cleanup(m, timeout, now);
    forall id: Id
      ensures Rest(r.sessions, n.sessions, id, false) && Rest(r.states, n.states, id, false)
      ensures Rest(r.recent, n.recent, id, false)
    {
      assert Dropped(m, done, timeout, now, id) <==> id in ExpiredIds(m, timeout, now);
    }
    SameMap(r.sessions, n.sessions);
    SameMap(r.states, n.states);
    SameMap(r.recent, n.recent);
  }
}
