// The session manager of backend/src/user_session/user_session_manager.cpp: the
// second user of the vehicle record, which stores no damage total. The total is
// recovered from the run, and the same damage law holds of it.
module UserSession {
  import opened Collections
  import opened VehicleState
  import opened SessionIds

  datatype Session = Session(id: Id, created: int, lastActive: int, nickname: string, vehicleType: string,
                             vehicleId: nat)

  datatype Manager = Manager(sessions: map<Id, Session>, states: map<Id, Vehicle>, recent: map<Id, seq<Attack>>,
                             created: nat, attacks: nat, issued: nat)

  const EMPTY: Manager := Manager(map[], map[], map[], 0, 0, 0)

  // ---------- the operations ----------

  function Create(m: Manager, nickname: string, vehicleType: string, tail: string, now: int): Manager {
    var id := SessionId(m.issued, tail);
    Manager(m.sessions[id := Session(id, now, now, nickname, vehicleType, m.created % WORD)],
            m.states[id := NewVehicle(id, now)], m.recent[id := []], m.created + 1, m.attacks, m.issued + 1)
  }

  function Destroy(m: Manager, id: Id): Manager {
    m.(sessions := m.sessions - {id}, states := m.states - {id}, recent := m.recent - {id})
  }

  function Touch(m: Manager, id: Id, now: int): Manager
    requires id in m.sessions
  {
    m.(sessions := m.sessions[id := m.sessions[id].(lastActive := now)])
  }

  function Act(m: Manager, w: World, id: Id, action: string, param: real, now: int): Manager {
    if id !in m.sessions then m
    else if id !in m.states then Touch(m, id, now)
    else
      var v := m.states[id];
      var p := w.profile(m.sessions[id].vehicleType);
      Touch(m, id, now).(states := m.states[id := v.(motion := Steered(p, v.motion, action, param), timestamp := now)])
  }

  // This copy does not clamp the damage level.
  function Audio(level: nat): real { level as real / 4.0 }

  function VolleyOf(m: Manager, w: World, id: Id, multiplier: real): Barrage
    requires id in m.sessions
  {
    Barrage(id, w.profile(m.sessions[id].vehicleType), multiplier, Audio, None, m.attacks)
  }

  function Moved(w: World, p: Profile, v: Vehicle, dt: real, now: int): Vehicle {
    v.(motion := Roll(w, p, v.motion, 0.0, 0.0, dt), timestamp := now)
  }

  // The attacks of a time step, all before the one decay.
  function StepVolley(m: Manager, w: World, id: Id, dt: real, count: nat, draws: Draws, now: int): Volley
    requires id in m.sessions && id in m.states
  {
    var b := VolleyOf(m, w, id, 1.0);
    Fire(w, b, Moved(w, b.profile, m.states[id], dt, now), draws, count)
  }

  function Step(m: Manager, w: World, id: Id, dt: real, count: nat, draws: Draws, now: int): Manager {
    if id !in m.sessions then m
    else if id !in m.states then Touch(m, id, now)
    else
      var r := StepVolley(m, w, id, dt, count, draws, now);
      Touch(m, id, now).(states := m.states[id := Decay(w.exp, r.vehicle, dt)], recent := m.recent[id := r.events],
                         attacks := m.attacks + count)
  }

  function TriggerVolley(m: Manager, w: World, id: Id, multiplier: real, draws: Draws): Volley
    requires id in m.sessions && id in m.states
  {
    Fire(w, VolleyOf(m, w, id, multiplier), m.states[id], draws, 1)
  }

  function Trigger(m: Manager, w: World, id: Id, multiplier: real, draws: Draws, now: int): Manager {
    if id !in m.sessions then m
    else if id !in m.states then Touch(m, id, now)
    else
      var r := TriggerVolley(m, w, id, multiplier, draws);
      Touch(m, id, now).(states := m.states[id := r.vehicle], recent := m.recent[id := r.events],
                         attacks := m.attacks + 1)
  }

  // Vibration and pose stay as they are.
  function Restored(v: Vehicle, now: int): Vehicle {
    v.(motion := PARKED, health := 100.0, armor := 100.0, impacts := 0, timestamp := now)
  }

  function Reset(m: Manager, id: Id, now: int): Manager {
    if id !in m.sessions then m
    else
      Touch(m, id, now).(
        states := if id in m.states then m.states[id := Restored(m.states[id], now)] else m.states,
        recent := if id in m.recent then m.recent[id := []] else m.recent)
  }

  predicate Expired(s: Session, timeout: int, now: int) {
    now - s.lastActive > timeout
  }

  function ExpiredIds(m: Manager, timeout: int, now: int): set<Id> {
    set id | id in m.sessions && Expired(m.sessions[id], timeout, now)
  }

  function Cleanup(m: Manager, timeout: int, now: int): Manager {
    var gone := ExpiredIds(m, timeout, now);
    m.(sessions := m.sessions - gone, states := m.states - gone, recent := m.recent - gone)
  }

  // ---------- runs ----------

  datatype Action =
    | DoCreate(nickname: string, vehicleType: string, tail: string, now: int)
    | DoDestroy(id: Id)
    | DoAct(id: Id, action: string, param: real, now: int)
    | DoStep(id: Id, dt: real, count: nat, draws: Draws, now: int)
    | DoTrigger(id: Id, multiplier: real, draws: Draws, now: int)
    | DoReset(id: Id, now: int)
    | DoCleanup(timeout: int, now: int)

  function Next(w: World, m: Manager, a: Action): Manager {
    match a
    case DoCreate(nickname, vehicleType, tail, now) => Create(m, nickname, vehicleType, tail, now)
    case DoDestroy(id) => Destroy(m, id)
    case DoAct(id, action, param, now) => Act(m, w, id, action, param, now)
    case DoStep(id, dt, count, draws, now) => Step(m, w, id, dt, count, draws, now)
    case DoTrigger(id, multiplier, draws, now) => Trigger(m, w, id, multiplier, draws, now)
    case DoReset(id, now) => Reset(m, id, now)
    case DoCleanup(timeout, now) => Cleanup(m, timeout, now)
  }

  ghost predicate Allowed(w: World, m: Manager, a: Action) {
    match a
    case DoCreate(_, _, _, _) => m.issued < COUNTER_LIMIT
    case DoStep(id, dt, count, draws, _) =>
      dt >= 0.0 && 1 <= count <= 3
      && (id in m.sessions ==> FairDraws(draws, w.profile(m.sessions[id].vehicleType)))
    case DoTrigger(id, _, draws, _) =>
      id in m.sessions ==> FairDraws(draws, w.profile(m.sessions[id].vehicleType))
    case _ => true
  }

  ghost predicate Link(w: World, m: Manager, a: Action, n: Manager) {
    Allowed(w, m, a) && n == Next(w, m, a)
  }

  ghost predicate IsRun(w: World, ms: seq<Manager>, actions: seq<Action>) {
    && |ms| == |actions| + 1 && ms[0] == EMPTY
    && forall i :: 0 <= i < |actions| ==> Link(w, ms[i], actions[i], ms[i + 1])
  }

  // Damage an action deals to a session: what the record itself forgets.
  function Dealt(w: World, m: Manager, a: Action, id: Id): real {
    match a
    case DoStep(other, dt, count, draws, now) =>
      if other == id && id in m.sessions && id in m.states then StepVolley(m, w, id, dt, count, draws, now).damage
      else 0.0
    case DoTrigger(other, multiplier, draws, now) =>
      if other == id && id in m.sessions && id in m.states then TriggerVolley(m, w, id, multiplier, draws).damage
      else 0.0
    case _ => 0.0
  }

  predicate Clears(m: Manager, a: Action, id: Id) {
    (a.DoReset? && a.id == id) || (a.DoCreate? && SessionId(m.issued, a.tail) == id)
  }

  // Damage since the session was created or last reset, after k actions.
  function Taken(w: World, ms: seq<Manager>, actions: seq<Action>, k: nat, id: Id): real
    requires k <= |actions| < |ms|
  {
    if k == 0 || Clears(ms[k - 1], actions[k - 1], id) then 0.0
    else Taken(w, ms, actions, k - 1, id) + Dealt(w, ms[k - 1], actions[k - 1], id)
  }

  // ---------- the invariant ----------

  predicate KeysAt(m: Manager, id: Id) {
    (id in m.sessions <==> id in m.states) && (id in m.sessions <==> id in m.recent)
  }

  predicate SlotAt(m: Manager, id: Id)
    requires id in m.states
  {
    var v := m.states[id];
    v.id == id && Counter(id) < m.issued && Steady(v) && OnCourse(v.motion)
  }

  predicate Held(m: Manager, id: Id, total: real) {
    KeysAt(m, id) && (id in m.states ==> SlotAt(m, id) && Ledger(m.states[id], total))
  }

  lemma StepHeld(m: Manager, n: Manager, w: World, id: Id, dt: real, count: nat, draws: Draws, now: int, total: real)
    requires n == Step(m, w, id, dt, count, draws, now)
    requires Held(m, id, total) && id in m.sessions && dt >= 0.0 && Damping(w.exp)
    requires FairDraws(draws, w.profile(m.sessions[id].vehicleType))
    ensures Held(n, id, total + StepVolley(m, w, id, dt, count, draws, now).damage)
  {
    var b, v := VolleyOf(m, w, id, 1.0), m.states[id];
    StaysOnCourse(w, b.profile, v.motion, "", 0.0, 0.0, 0.0, dt);
    VolleyKeeps(w, b, Moved(w, b.profile, v, dt, now), total, draws, count);
    DecaySteady(w.exp, StepVolley(m, w, id, dt, count, draws, now).vehicle, dt);
  }

  lemma TriggerHeld(m: Manager, n: Manager, w: World, id: Id, multiplier: real, draws: Draws, now: int, total: real)
    requires n == Trigger(m, w, id, multiplier, draws, now)
    requires Held(m, id, total) && id in m.sessions && Damping(w.exp)
    requires FairDraws(draws, w.profile(m.sessions[id].vehicleType))
    ensures Held(n, id, total + TriggerVolley(m, w, id, multiplier, draws).damage)
  {
    VolleyKeeps(w, VolleyOf(m, w, id, multiplier), m.states[id], total, draws, 1);
  }

  lemma ActHeld(m: Manager, n: Manager, w: World, id: Id, action: string, param: real, now: int, total: real)
    requires n == Act(m, w, id, action, param, now) && Held(m, id, total) && id in m.sessions
    ensures Held(n, id, total)
  {
    StaysOnCourse(w, w.profile(m.sessions[id].vehicleType), m.states[id].motion, action, param, 0.0, 0.0, 0.0);
  }

  predicate Names(a: Action, id: Id) {
    match a
    case DoCreate(_, _, _, _) => false
    case DoCleanup(_, _) => false
    case _ => a.id == id
  }

  // An action that neither names nor creates a session leaves it alone or, when
  // it is cleanup, drops it whole.
  lemma OthersHeld(w: World, m: Manager, a: Action, n: Manager, id: Id, total: real)
    requires n == Next(w, m, a) && Held(m, id, total) && !Names(a, id) && !Clears(m, a, id)
    ensures Held(n, id, total) && Dealt(w, m, a, id) == 0.0
    ensures id in n.states <==> id in m.states && !(a.DoCleanup? && a.now - m.sessions[id].lastActive > a.timeout)
    ensures id in n.states ==> n.states[id] == m.states[id] && n.recent[id] == m.recent[id]
  {
    OthersKept(w, m, a, n, id);
  }

  lemma OthersKept(w: World, m: Manager, a: Action, n: Manager, id: Id)
    requires n == Next(w, m, a) && KeysAt(m, id) && !Names(a, id) && !Clears(m, a, id)
    ensures KeysAt(n, id) && m.issued <= n.issued
    ensures id in n.states <==> id in m.states && !(a.DoCleanup? && a.now - m.sessions[id].lastActive > a.timeout)
    ensures id in n.states ==> n.states[id] == m.states[id] && n.recent[id] == m.recent[id]
  {
    match a
    case DoCleanup(_, _) =>
    case DoStep(_, _, _, _, _) => VolleyLeaves(w, m, a, n, id);
    case DoTrigger(_, _, _, _) => VolleyLeaves(w, m, a, n, id);
    case _ => QuietLeaves(w, m, a, n, id);
  }

  predicate SameSlot(m: Manager, n: Manager, id: Id) {
    && (id in n.sessions <==> id in m.sessions)
    && (id in n.states <==> id in m.states) && (id in n.states ==> n.states[id] == m.states[id])
    && (id in n.recent <==> id in m.recent) && (id in n.recent ==> n.recent[id] == m.recent[id])
  }

  lemma VolleyLeaves(w: World, m: Manager, a: Action, n: Manager, id: Id)
    requires n == Next(w, m, a) && (a.DoStep? || a.DoTrigger?) && a.id != id
    ensures SameSlot(m, n, id) && n.issued == m.issued
  {}

  lemma QuietLeaves(w: World, m: Manager, a: Action, n: Manager, id: Id)
    requires n == Next(w, m, a) && !a.DoStep? && !a.DoTrigger? && !a.DoCleanup?
    requires !Names(a, id) && !Clears(m, a, id)
    ensures SameSlot(m, n, id) && m.issued <= n.issued
  {}

  lemma NewVehicleHeld(id: Id, now: int, issued: nat)
    requires Counter(id) < issued
    ensures var v := NewVehicle(id, now);
            v.id == id && Ledger(v, 0.0) && Counter(id) < issued && Steady(v) && OnCourse(v.motion)
  {}

  lemma CreateHeld(n: Manager, id: Id, now: int)
    requires id in n.sessions && id in n.recent && id in n.states && n.states[id] == NewVehicle(id, now)
    requires Counter(id) < n.issued
    ensures Held(n, id, 0.0)
  {
    NewVehicleHeld(id, now, n.issued);
  }

  lemma ResetHeld(m: Manager, n: Manager, id: Id, now: int, total: real)
    requires n == Reset(m, id, now) && Held(m, id, total)
    ensures Held(n, id, 0.0)
  {}

  lemma QuietHeld(w: World, m: Manager, a: Action, n: Manager, id: Id, total: real)
    requires n == Next(w, m, a) && Held(m, id, total) && Names(a, id) && id in m.sessions
    requires !a.DoStep? && !a.DoTrigger?
    ensures Held(n, id, if Clears(m, a, id) then 0.0 else total)
  {
    match a
    case DoAct(_, action, param, now) => ActHeld(m, n, w, id, action, param, now, total);
    case DoReset(_, now) => ResetHeld(m, n, id, now, total);
    case DoDestroy(_) =>
  }

  // An action that names a session that is gone leaves it gone.
  lemma GoneStays(w: World, m: Manager, a: Action, n: Manager, id: Id, total: real, total': real)
    requires n == Next(w, m, a) && Held(m, id, total) && Names(a, id) && id !in m.sessions
    ensures Held(n, id, total')
  {}

  lemma NamedHeld(w: World, m: Manager, a: Action, n: Manager, id: Id, total: real)
    requires n == Next(w, m, a) && Allowed(w, m, a) && Damping(w.exp) && Held(m, id, total) && Names(a, id)
    ensures Held(n, id, if Clears(m, a, id) then 0.0 else total + Dealt(w, m, a, id))
  {
    var dealt := Dealt(w, m, a, id);
    if id !in m.sessions {
      GoneStays(w, m, a, n, id, total, if Clears(m, a, id) then 0.0 else total + dealt);
    } else if a.DoStep? {
      StepHeld(m, n, w, id, a.dt, a.count, a.draws, a.now, total);
    } else if a.DoTrigger? {
      TriggerHeld(m, n, w, id, a.multiplier, a.draws, a.now, total);
    } else {
      assert dealt == 0.0;
      QuietHeld(w, m, a, n, id, total);
    }
  }

  lemma ActionHeld(w: World, m: Manager, a: Action, n: Manager, id: Id, total: real)
    requires n == Next(w, m, a) && Allowed(w, m, a) && Damping(w.exp) && Held(m, id, total)
    ensures Held(n, id, if Clears(m, a, id) then 0.0 else total + Dealt(w, m, a, id))
  {
    if Names(a, id) {
      NamedHeld(w, m, a, n, id, total);
    } else if Clears(m, a, id) {
      CounterOfId(m.issued, a.tail);
      CreateHeld(n, id, a.now);
    } else {
      OthersHeld(w, m, a, n, id, total);
    }
  }

  lemma LinkHeld(w: World, ms: seq<Manager>, actions: seq<Action>, k: nat, id: Id, total: real, total': real)
    requires IsRun(w, ms, actions) && k < |actions| && Damping(w.exp) && Held(ms[k], id, total)
    requires total' == if Clears(ms[k], actions[k], id) then 0.0 else total + Dealt(w, ms[k], actions[k], id)
    ensures Held(ms[k + 1], id, total')
  {
    assert Link(w, ms[k], actions[k], ms[k + 1]);
    ActionHeld(w, ms[k], actions[k], ms[k + 1], id, total);
  }

  lemma {:induction false} RunHeld(w: World, ms: seq<Manager>, actions: seq<Action>, k: nat, id: Id)
    requires IsRun(w, ms, actions) && k < |ms| && Damping(w.exp)
    ensures Held(ms[k], id, Taken(w, ms, actions, k, id))
  {
    if k > 0 {
      RunHeld(w, ms, actions, k - 1, id);
      LinkHeld(w, ms, actions, k - 1, id, Taken(w, ms, actions, k - 1, id), Taken(w, ms, actions, k, id));
    }
  }

  // The same damage and pose laws as the VR engine's, with the total recovered
  // from the run.
  lemma ReachableVehicle(w: World, ms: seq<Manager>, actions: seq<Action>, k: nat, id: Id, total: real)
    requires IsRun(w, ms, actions) && k < |ms| && Damping(w.exp) && id in ms[k].states
    requires total == Taken(w, ms, actions, k, id)
    ensures id in ms[k].sessions && id in ms[k].recent && Lawful(ms[k].states[id], total)
  {
    RunHeld(w, ms, actions, k, id);
    KeptIsLawful(ms[k].states[id], total);
  }

  lemma RestoredIsNew(v: Vehicle, now: int)
    ensures Restored(v, now) == NewVehicle(v.id, now) <==> v.vibration == STILL && v.pose == LEVEL
  {
    var r, n := Restored(v, now), NewVehicle(v.id, now);
    assert r.vibration == v.vibration && r.pose == v.pose && n.vibration == STILL && n.pose == LEVEL;
  }

  // The new session is live, unharmed and at rest.
  lemma CreateIsFresh(m: Manager, nickname: string, vehicleType: string, tail: string, now: int, n: Manager)
    requires n == Create(m, nickname, vehicleType, tail, now)
    ensures var id := SessionId(m.issued, tail);
            && id in n.sessions && id in n.states && id in n.recent && n.recent[id] == []
            && n.sessions[id] == Session(id, now, now, nickname, vehicleType, m.created % 0x1_0000_0000)
            && AsNew(n.states[id], id)
    ensures n.created == m.created + 1 && n.issued == m.issued + 1 && n.attacks == m.attacks
  {}

  // An action that names a session marks it active, unless it destroys it.
  lemma NamedIsActive(w: World, m: Manager, a: Action, id: Id)
    requires Names(a, id) && id in m.sessions
    ensures if a.DoDestroy? then Next(w, m, a).sessions == m.sessions - {id}
            else Next(w, m, a).sessions == m.sessions[id := m.sessions[id].(lastActive := a.now)]
  {}

  // A reset makes the vehicle as good as new exactly when it was not shaking:
  // vibration and pose are left over.
  lemma ResetLeavesVibration(m: Manager, id: Id, now: int)
    requires id in m.sessions && id in m.states && m.states[id].id == id
    ensures var v := Reset(m, id, now).states[id];
            && v.vibration == m.states[id].vibration && v.pose == m.states[id].pose
            && v.health == 100.0 && v.armor == 100.0 && v.motion == Motion(0.0, 30.0, 180.0, 0.0, 0.0)
            && (v == NewVehicle(id, now) <==> v.vibration == STILL && v.pose == LEVEL)
            && (v == NewVehicle(id, now) ==> AsNew(v, id))
  {
    RestoredIsNew(m.states[id], now);
    assert Reset(m, id, now).states[id] == Restored(m.states[id], now);
  }

  // It happens: create a session, trigger an attack, reset it. The run leaves a
  // vehicle with full health that still shakes.
  lemma ShakingReset(w: World, nickname: string, vehicleType: string, tail: string, draws: Draws, multiplier: real,
      now: int)
    requires FairDraws(draws, w.profile(vehicleType))
    ensures var id := SessionId(0, tail);
            exists ms: seq<Manager>, actions: seq<Action> ::
              && IsRun(w, ms, actions) && |actions| == 3 && actions[2] == DoReset(id, now) && id in ms[3].states
              && ms[3].states[id].health == 100.0 && ms[3].states[id].vibration.amplitude > 0.0
              && ms[3].states[id] != NewVehicle(id, now)
  {
    var id := SessionId(0, tail);
    var a := [DoCreate(nickname, vehicleType, tail, now), DoTrigger(id, multiplier, draws, now), DoReset(id, now)];
    var m1 := Next(w, EMPTY, a[0]);
    var m2 := Next(w, m1, a[1]);
    var m3 := Next(w, m2, a[2]);
    TriggerShakes(w, m1, m2, id, multiplier, draws, now);
    var ms := [EMPTY, m1, m2, m3];
    assert Link(w, EMPTY, a[0], m1) && Link(w, m1, a[1], m2) && Link(w, m2, a[2], m3);
    assert IsRun(w, ms, a);
  }

  lemma TriggerShakes(w: World, m: Manager, n: Manager, id: Id, multiplier: real, draws: Draws, now: int)
    requires n == Trigger(m, w, id, multiplier, draws, now) && id in m.sessions && id in m.states
    requires m.states[id].vibration == STILL && FairDraws(draws, w.profile(m.sessions[id].vehicleType))
    ensures id in n.sessions && id in n.states && n.states[id].vibration.amplitude > 0.0
  {
    var b, v := VolleyOf(m, w, id, multiplier), m.states[id];
    FireNext(w, b, v, draws, 0);
    FairAttack(w, b, draws(0), 0, Generate(w, b, draws(0), 0));
  }
}
