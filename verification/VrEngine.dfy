// The VR session engine of backend/src/vr_assault/vr_assault_engine.cpp: every
// operation as a function of the four maps, and laws over all runs.
module VrEngine {
  import opened Collections
  import opened VehicleState
  import opened SessionIds

  datatype Mode = FreeDrive | AssaultChallenge | Survival | TimedRace

  datatype Session = Session(id: Id, created: int, lastActive: int, nickname: string, vehicleType: string,
                             vehicleId: nat)

  datatype Result = Result(id: Id, started: int, ended: int, health: real, distance: real, attacks: nat,
                           damage: real, waves: nat, score: real, rank: string)

  datatype Engine = Engine(sessions: map<Id, Session>, states: map<Id, Vehicle>, results: map<Id, Result>,
                           modes: map<Id, Mode>, created: nat, attacks: nat, issued: nat)

  const EMPTY: Engine := Engine(map[], map[], map[], map[], 0, 0, 0)

  // ---------- the operations ----------

  function NewResult(id: Id, now: int): Result {
    Result(id, now, 0, 100.0, 0.0, 0, 0.0, 0, 0.0, "D")
  }

  function StartAs(e: Engine, id: Id, nickname: string, vehicleType: string, mode: Mode, now: int): Engine {
    Engine(e.sessions[id := Session(id, now, now, nickname, vehicleType, e.created % WORD)],
           e.states[id := NewVehicle(id, now)], e.results[id := NewResult(id, now)], e.modes[id := mode],
           e.created + 1, e.attacks, e.issued + 1)
  }

  function Start(e: Engine, nickname: string, vehicleType: string, mode: Mode, tail: string, now: int): Engine {
    StartAs(e, SessionId(e.issued, tail), nickname, vehicleType, mode, now)
  }

  function Score(v: Vehicle): real {
    v.motion.distance * 0.3 + (100.0 - (100.0 - v.health)) * 2.0 + (v.impacts / 5) as real * 50.0
  }

  function Rank(score: real): string {
    if score > 2000.0 then "S" else if score > 1500.0 then "A" else if score > 1000.0 then "B"
    else if score > 500.0 then "C" else "D"
  }

  function Closed(r: Result, v: Vehicle, now: int): Result {
    r.(ended := now, health := v.health, distance := v.motion.distance, attacks := v.impacts,
       waves := v.impacts / 5, score := Score(v), rank := Rank(Score(v)))
  }

  function End(e: Engine, id: Id, now: int): Engine {
    if id !in e.sessions then e
    else
      e.(results := if id in e.states && id in e.results then e.results[id := Closed(e.results[id], e.states[id], now)]
                    else e.results,
         sessions := e.sessions - {id}, modes := e.modes - {id})
  }

  function Touch(e: Engine, id: Id, now: int): Engine
    requires id in e.sessions
  {
    e.(sessions := e.sessions[id := e.sessions[id].(lastActive := now)])
  }

  function Act(e: Engine, w: World, id: Id, action: string, param: real, now: int): Engine {
    if id !in e.sessions then e
    else if id !in e.states then Touch(e, id, now)
    else
      var v := e.states[id];
      var p := w.profile(e.sessions[id].vehicleType);
      Touch(e, id, now).(states := e.states[id := v.(motion := Steered(p, v.motion, action, param), timestamp := now)])
  }

  function AttackCount(mode: Mode, impacts: nat): nat {
    match mode
    case AssaultChallenge => 2
    case Survival => if 1 + impacts / 5 < 5 then 1 + impacts / 5 else 5
    case _ => 1
  }

  function Multiplier(mode: Mode, impacts: nat): real {
    match mode
    case FreeDrive => 0.5
    case AssaultChallenge => 1.0
    case Survival => 1.0 + (impacts / 5) as real * 0.15
    case TimedRace => 0.8
  }

  // Damage levels above 4 count as 4.
  function Audio(level: nat): real {
    (if level < 4 then level else 4) as real / 4.0
  }

  function AddDamage(results: map<Id, Result>, id: Id, damage: real): map<Id, Result> {
    if id in results then results[id := results[id].(damage := results[id].damage + damage)] else results
  }

  function Progress(r: Result, v: Vehicle): Result {
    r.(distance := v.motion.distance, attacks := v.impacts, waves := v.impacts / 5, health := v.health)
  }

  function ModeOf(e: Engine, id: Id): Mode {
    if id in e.modes then e.modes[id] else FreeDrive
  }

  function Moved(w: World, p: Profile, v: Vehicle, dt: real, now: int): Vehicle {
    v.(motion := Roll(w, p, v.motion, 0.0, 0.0, dt), timestamp := now)
  }

  function TickBarrage(e: Engine, w: World, id: Id, dt: real): Barrage
    requires id in e.sessions && id in e.states
  {
    var mode, impacts := ModeOf(e, id), e.states[id].impacts;
    Barrage(id, w.profile(e.sessions[id].vehicleType), Multiplier(mode, impacts), Audio,
            Some(dt / AttackCount(mode, impacts) as real), e.attacks)
  }

  function TickVolley(e: Engine, w: World, id: Id, dt: real, draws: Draws, now: int): Volley
    requires id in e.sessions && id in e.states
  {
    var b, v := TickBarrage(e, w, id, dt), e.states[id];
    Fire(w, b, Moved(w, b.profile, v, dt, now), draws, AttackCount(ModeOf(e, id), v.impacts))
  }

  function Reported(results: map<Id, Result>, id: Id, v: Vehicle): map<Id, Result> {
    if id in results then results[id := Progress(results[id], v)] else results
  }

  function Tick(e: Engine, w: World, id: Id, dt: real, draws: Draws, now: int): Engine {
    if id !in e.sessions then e
    else if id !in e.states then Touch(e, id, now)
    else
      var r := TickVolley(e, w, id, dt, draws, now);
      Touch(e, id, now).(
        states := e.states[id := r.vehicle],
        results := Reported(AddDamage(e.results, e.states[id].id, r.damage), id, r.vehicle),
        attacks := e.attacks + AttackCount(ModeOf(e, id), e.states[id].impacts))
  }

  function TriggerBarrage(e: Engine, w: World, id: Id, multiplier: real): Barrage
    requires id in e.sessions
  {
    Barrage(id, w.profile(e.sessions[id].vehicleType), multiplier, Audio, None, e.attacks)
  }

  function Trigger(e: Engine, w: World, id: Id, multiplier: real, draws: Draws, now: int): Engine {
    if id !in e.sessions then e
    else if id !in e.states then Touch(e, id, now)
    else
      var r := Fire(w, TriggerBarrage(e, w, id, multiplier), e.states[id], draws, 1);
      Touch(e, id, now).(
        states := e.states[id := r.vehicle],
        results := AddDamage(e.results, e.states[id].id, r.damage),
        attacks := e.attacks + 1)
  }

  function Reset(e: Engine, id: Id, now: int): Engine {
    if id !in e.sessions then e
    else
      Touch(e, id, now).(
        states := if id in e.states then e.states[id := NewVehicle(e.states[id].id, now)] else e.states,
        results := if id in e.results then e.results[id := NewResult(e.results[id].id, now)] else e.results)
  }

  predicate Expired(s: Session, timeout: int, now: int) {
    now - s.lastActive > timeout
  }

  function ExpiredIds(e: Engine, timeout: int, now: int): set<Id> {
    set id | id in e.sessions && Expired(e.sessions[id], timeout, now)
  }

  function Cleanup(e: Engine, timeout: int, now: int): Engine {
    var gone := ExpiredIds(e, timeout, now);
    e.(sessions := e.sessions - gone, states := e.states - gone, results := e.results - gone, modes := e.modes - gone)
  }

  // ---------- runs ----------

  datatype Action =
    | DoStart(nickname: string, vehicleType: string, mode: Mode, tail: string, now: int)
    | DoEnd(id: Id, now: int)
    | DoAct(id: Id, action: string, param: real, now: int)
    | DoTick(id: Id, dt: real, draws: Draws, now: int)
    | DoTrigger(id: Id, multiplier: real, draws: Draws, now: int)
    | DoReset(id: Id, now: int)
    | DoCleanup(timeout: int, now: int)

  function Next(w: World, e: Engine, a: Action): Engine {
    match a
    case DoStart(nickname, vehicleType, mode, tail, now) => Start(e, nickname, vehicleType, mode, tail, now)
    case DoEnd(id, now) => End(e, id, now)
    case DoAct(id, action, param, now) => Act(e, w, id, action, param, now)
    case DoTick(id, dt, draws, now) => Tick(e, w, id, dt, draws, now)
    case DoTrigger(id, multiplier, draws, now) => Trigger(e, w, id, multiplier, draws, now)
    case DoReset(id, now) => Reset(e, id, now)
    case DoCleanup(timeout, now) => Cleanup(e, timeout, now)
  }

  // Draws in the ranges of the code, time that does not run backwards, and a
  // session counter that has not wrapped.
  ghost predicate Allowed(w: World, e: Engine, a: Action) {
    match a
    case DoStart(_, _, _, _, _) => e.issued < COUNTER_LIMIT
    case DoTick(id, dt, draws, _) =>
      dt >= 0.0 && (id in e.sessions ==> FairDraws(draws, w.profile(e.sessions[id].vehicleType)))
    case DoTrigger(id, _, draws, _) =>
      id in e.sessions ==> FairDraws(draws, w.profile(e.sessions[id].vehicleType))
    case _ => true
  }

  ghost predicate Link(w: World, e: Engine, a: Action, f: Engine) {
    Allowed(w, e, a) && f == Next(w, e, a)
  }

  ghost predicate IsRun(w: World, es: seq<Engine>, actions: seq<Action>) {
    && |es| == |actions| + 1 && es[0] == EMPTY
    && forall i :: 0 <= i < |actions| ==> Link(w, es[i], actions[i], es[i + 1])
  }

  // ---------- the invariant ----------

  predicate KeysAt(e: Engine, id: Id) {
    && (id in e.sessions <==> id in e.modes) && (id in e.sessions ==> id in e.states)
    && (id in e.states <==> id in e.results)
  }

  predicate SlotAt(e: Engine, id: Id)
    requires id in e.states && id in e.results
  {
    var v := e.states[id];
    && v.id == id && e.results[id].id == id && Counter(id) < e.issued
    && Ledger(v, e.results[id].damage) && Steady(v) && OnCourse(v.motion)
  }

  ghost predicate Inv(e: Engine) {
    forall id: Id :: KeysAt(e, id) && (id in e.states ==> SlotAt(e, id))
  }

  // Everything f holds about other sessions is what e held.
  predicate SameAt(e: Engine, f: Engine, id: Id) {
    && (id in f.sessions <==> id in e.sessions) && (id in f.sessions ==> f.sessions[id] == e.sessions[id])
    && (id in f.states <==> id in e.states) && (id in f.states ==> f.states[id] == e.states[id])
    && (id in f.results <==> id in e.results) && (id in f.results ==> f.results[id] == e.results[id])
    && (id in f.modes <==> id in e.modes) && (id in f.modes ==> f.modes[id] == e.modes[id])
  }

  ghost predicate OnlyChanges(e: Engine, f: Engine, id: Id) {
    e.issued <= f.issued && forall other: Id :: other != id ==> SameAt(e, f, other)
  }

  lemma KeepsOthers(e: Engine, f: Engine, id: Id)
    requires Inv(e) && OnlyChanges(e, f, id) && KeysAt(f, id) && (id in f.states ==> SlotAt(f, id))
    ensures Inv(f)
  {
    forall other: Id | other != id ensures KeysAt(f, other) && (other in f.states ==> SlotAt(f, other)) {
      assert SameAt(e, f, other) && KeysAt(e, other);
    }
  }

  lemma TickIsolated(e: Engine, w: World, id: Id, dt: real, draws: Draws, now: int)
    requires Inv(e)
    ensures OnlyChanges(e, Tick(e, w, id, dt, draws, now), id)
  {
    assert KeysAt(e, id);
  }

  lemma TickAccounted(e: Engine, w: World, id: Id, dt: real, draws: Draws, now: int)
    requires Inv(e) && dt >= 0.0 && Damping(w.exp) && id in e.sessions && id in e.states && id in e.results
    requires FairDraws(draws, w.profile(e.sessions[id].vehicleType))
    ensures var v := Moved(w, w.profile(e.sessions[id].vehicleType), e.states[id], dt, now);
            OnCourse(v.motion) && Accounted(v, e.results[id].damage, TickVolley(e, w, id, dt, draws, now),
                                            AttackCount(ModeOf(e, id), e.states[id].impacts))
  {
    assert KeysAt(e, id) && SlotAt(e, id);
    var b, v := TickBarrage(e, w, id, dt), e.states[id];
    ShareOfTime(dt, AttackCount(ModeOf(e, id), v.impacts));
    StaysOnCourse(w, b.profile, v.motion, "", 0.0, 0.0, 0.0, dt);
    VolleyKeeps(w, b, Moved(w, b.profile, v, dt, now), e.results[id].damage, draws,
                AttackCount(ModeOf(e, id), v.impacts));
  }

  lemma TickKeeps(e: Engine, w: World, id: Id, dt: real, draws: Draws, now: int)
    requires Inv(e) && dt >= 0.0 && Damping(w.exp)
    requires id in e.sessions ==> FairDraws(draws, w.profile(e.sessions[id].vehicleType))
    ensures Inv(Tick(e, w, id, dt, draws, now))
  {
    if id in e.sessions {
      assert KeysAt(e, id) && SlotAt(e, id);
      TickAccounted(e, w, id, dt, draws, now);
      TickIsolated(e, w, id, dt, draws, now);
      KeepsOthers(e, Tick(e, w, id, dt, draws, now), id);
    }
  }

  lemma ShareOfTime(dt: real, count: nat)
    requires dt >= 0.0 && count > 0
    ensures dt / count as real >= 0.0
  {
    assert dt / count as real * count as real == dt;
  }

  lemma TriggerKeeps(e: Engine, w: World, id: Id, multiplier: real, draws: Draws, now: int)
    requires Inv(e) && Damping(w.exp)
    requires id in e.sessions ==> FairDraws(draws, w.profile(e.sessions[id].vehicleType))
    ensures Inv(Trigger(e, w, id, multiplier, draws, now))
    ensures OnlyChanges(e, Trigger(e, w, id, multiplier, draws, now), id)
  {
    assert KeysAt(e, id);
    if id in e.sessions {
      assert SlotAt(e, id);
      VolleyKeeps(w, TriggerBarrage(e, w, id, multiplier), e.states[id], e.results[id].damage, draws, 1);
      KeepsOthers(e, Trigger(e, w, id, multiplier, draws, now), id);
    }
  }

  lemma CountersBelow(e: Engine)
    requires Inv(e)
    ensures forall id :: id in e.states ==> Counter(id) < e.issued
  {
    forall id | id in e.states ensures Counter(id) < e.issued { assert KeysAt(e, id) && SlotAt(e, id); }
  }

  lemma Unissued(e: Engine, tail: string)
    requires Inv(e) && e.issued < COUNTER_LIMIT
    ensures SessionId(e.issued, tail) !in e.states && Counter(SessionId(e.issued, tail)) == e.issued
  {
    CounterOfId(e.issued, tail);
    CountersBelow(e);
  }

  lemma StartKeeps(e: Engine, nickname: string, vehicleType: string, mode: Mode, tail: string, now: int)
    requires Inv(e) && e.issued < COUNTER_LIMIT
    ensures Inv(Start(e, nickname, vehicleType, mode, tail, now))
  {
    Unissued(e, tail);
    StartAsKeeps(e, SessionId(e.issued, tail), nickname, vehicleType, mode, now);
  }

  lemma StartIsolated(e: Engine, nickname: string, vehicleType: string, mode: Mode, tail: string, now: int)
    requires Inv(e) && e.issued < COUNTER_LIMIT
    ensures OnlyChanges(e, Start(e, nickname, vehicleType, mode, tail, now), SessionId(e.issued, tail))
    ensures SessionId(e.issued, tail) !in e.states
  {
    Unissued(e, tail);
    StartAsOnly(e, SessionId(e.issued, tail), nickname, vehicleType, mode, now);
  }

  lemma StartAsKeeps(e: Engine, id: Id, nickname: string, vehicleType: string, mode: Mode, now: int)
    requires Inv(e) && id !in e.states && Counter(id) == e.issued
    ensures Inv(StartAs(e, id, nickname, vehicleType, mode, now))
  {
    StartAsOnly(e, id, nickname, vehicleType, mode, now);
    StartAsSlot(e, id, nickname, vehicleType, mode, now);
    KeepsOthers(e, StartAs(e, id, nickname, vehicleType, mode, now), id);
  }

  lemma StartAsOnly(e: Engine, id: Id, nickname: string, vehicleType: string, mode: Mode, now: int)
    ensures OnlyChanges(e, StartAs(e, id, nickname, vehicleType, mode, now), id)
  {}

  lemma StartAsSlot(e: Engine, id: Id, nickname: string, vehicleType: string, mode: Mode, now: int)
    requires Counter(id) == e.issued
    ensures var f := StartAs(e, id, nickname, vehicleType, mode, now); KeysAt(f, id) && id in f.states && SlotAt(f, id)
  {}

  lemma EndKeeps(e: Engine, id: Id, now: int)
    requires Inv(e)
    ensures Inv(End(e, id, now)) && OnlyChanges(e, End(e, id, now), id)
  {
    assert KeysAt(e, id);
    if id in e.sessions {
      assert SlotAt(e, id);
      KeepsOthers(e, End(e, id, now), id);
    }
  }

  lemma ActKeeps(e: Engine, w: World, id: Id, action: string, param: real, now: int)
    requires Inv(e)
    ensures Inv(Act(e, w, id, action, param, now)) && OnlyChanges(e, Act(e, w, id, action, param, now), id)
  {
    assert KeysAt(e, id);
    if id in e.sessions {
      assert SlotAt(e, id);
      StaysOnCourse(w, w.profile(e.sessions[id].vehicleType), e.states[id].motion, action, param, 0.0, 0.0, 0.0);
      KeepsOthers(e, Act(e, w, id, action, param, now), id);
    }
  }

  lemma ResetKeeps(e: Engine, id: Id, now: int)
    requires Inv(e)
    ensures Inv(Reset(e, id, now))
  {
    assert KeysAt(e, id);
    if id in e.sessions {
      assert SlotAt(e, id);
      ResetIsolated(e, id, now);
      KeepsOthers(e, Reset(e, id, now), id);
    }
  }

  lemma ResetIsolated(e: Engine, id: Id, now: int)
    ensures OnlyChanges(e, Reset(e, id, now), id)
  {}

  lemma CleanupKeeps(e: Engine, timeout: int, now: int)
    requires Inv(e)
    ensures Inv(Cleanup(e, timeout, now))
  {
    var f := Cleanup(e, timeout, now);
    forall id: Id ensures KeysAt(f, id) && (id in f.states ==> SlotAt(f, id)) {
      assert KeysAt(e, id);
      if id in f.states { assert SlotAt(e, id); }
    }
  }

  lemma StepKeeps(w: World, e: Engine, a: Action)
    requires Inv(e) && Allowed(w, e, a) && Damping(w.exp)
    ensures Inv(Next(w, e, a))
  {
    match a
    case DoStart(nickname, vehicleType, mode, tail, now) => StartKeeps(e, nickname, vehicleType, mode, tail, now);
    case DoEnd(id, now) => EndKeeps(e, id, now);
    case DoAct(id, action, param, now) => ActKeeps(e, w, id, action, param, now);
    case DoTick(id, dt, draws, now) => TickKeeps(e, w, id, dt, draws, now);
    case DoTrigger(id, multiplier, draws, now) => TriggerKeeps(e, w, id, multiplier, draws, now);
    case DoReset(id, now) => ResetKeeps(e, id, now);
    case DoCleanup(timeout, now) => CleanupKeeps(e, timeout, now);
  }

  // In every reachable state: the key sets agree, damage law, pose law, course.
  lemma {:induction false} RunKeeps(w: World, es: seq<Engine>, actions: seq<Action>, k: nat)
    requires IsRun(w, es, actions) && k < |es| && Damping(w.exp)
    ensures Inv(es[k])
  {
    if k > 0 {
      RunKeeps(w, es, actions, k - 1);
      assert Link(w, es[k - 1], actions[k - 1], es[k]);
      StepKeeps(w, es[k - 1], actions[k - 1]);
    }
  }

  // ---------- isolation, fresh identifiers, frozen results ----------

  predicate Names(a: Action, id: Id) {
    match a
    case DoStart(_, _, _, _, _) => false
    case DoCleanup(_, _) => false
    case _ => a.id == id
  }

  predicate Forgotten(e: Engine, id: Id) {
    id !in e.sessions && id !in e.states && id !in e.results && id !in e.modes
  }

  // No action touches a session it does not name, except that cleanup drops
  // whole sessions that are live and idle for longer than the timeout.
  lemma Isolated(w: World, e: Engine, a: Action, id: Id)
    requires Inv(e) && Allowed(w, e, a) && Damping(w.exp) && !Names(a, id)
    requires a.DoStart? ==> id in e.states
    ensures if a.DoCleanup? && id in e.sessions && a.now - e.sessions[id].lastActive > a.timeout
            then Forgotten(Next(w, e, a), id) else SameAt(e, Next(w, e, a), id)
  {
    match a
    case DoStart(nickname, vehicleType, mode, tail, now) => StartIsolated(e, nickname, vehicleType, mode, tail, now);
    case DoEnd(other, now) => EndKeeps(e, other, now);
    case DoAct(other, action, param, now) => ActKeeps(e, w, other, action, param, now);
    case DoTick(other, dt, draws, now) => TickIsolated(e, w, other, dt, draws, now);
    case DoTrigger(other, multiplier, draws, now) => TriggerKeeps(e, w, other, multiplier, draws, now);
    case DoReset(other, now) => ResetIsolated(e, other, now);
    case DoCleanup(timeout, now) => assert KeysAt(e, id);
  }

  // An action that names a session marks it active, unless it ends it.
  lemma NamedIsActive(w: World, e: Engine, a: Action, id: Id)
    requires Names(a, id) && id in e.sessions
    ensures if a.DoEnd? then id !in Next(w, e, a).sessions && id !in Next(w, e, a).modes
            else Next(w, e, a).sessions == e.sessions[id := e.sessions[id].(lastActive := a.now)]
  {}

  predicate EndedWith(e: Engine, id: Id, r: Result, v: Vehicle) {
    id !in e.sessions && id in e.results && e.results[id] == r && id in e.states && e.states[id] == v
  }

  lemma EndedStays(w: World, e: Engine, a: Action, f: Engine, id: Id, r: Result, v: Vehicle)
    requires f == Next(w, e, a) && Inv(e) && Allowed(w, e, a) && Damping(w.exp) && EndedWith(e, id, r, v)
    ensures EndedWith(f, id, r, v)
  {
    assert KeysAt(e, id);
    if !Names(a, id) { Isolated(w, e, a, id); }
  }

  // Once a session has ended, its round result never changes again.
  lemma {:induction false} EndedForever(w: World, es: seq<Engine>, actions: seq<Action>, i: nat, j: nat, id: Id,
      r: Result, v: Vehicle)
    requires IsRun(w, es, actions) && Damping(w.exp) && i <= j < |es| && EndedWith(es[i], id, r, v)
    ensures EndedWith(es[j], id, r, v)
    decreases j - i
  {
    if i < j {
      RunKeeps(w, es, actions, i);
      EndedStays(w, es[i], actions[i], es[i + 1], id, r, v);
      EndedForever(w, es, actions, i + 1, j, id, r, v);
    }
  }

  lemma EndCloses(e: Engine, f: Engine, id: Id, now: int)
    requires Inv(e) && id in e.sessions && f == End(e, id, now)
    ensures id in e.results && id in e.states
    ensures EndedWith(f, id, Closed(e.results[id], e.states[id], now), e.states[id])
    ensures Ledger(e.states[id], e.results[id].damage)
  {
    assert KeysAt(e, id) && SlotAt(e, id);
  }

  predicate RankFits(rank: string, score: real) {
    && (rank == "S" <==> score > 2000.0) && (rank == "A" <==> 1500.0 < score <= 2000.0)
    && (rank == "B" <==> 1000.0 < score <= 1500.0) && (rank == "C" <==> 500.0 < score <= 1000.0)
    && (rank == "D" <==> score <= 500.0)
  }

  // What an ended session shows at any later time: the health that the damage
  // law gives for its recorded damage, its impacts and waves, and their score.
  lemma FinalResult(w: World, es: seq<Engine>, actions: seq<Action>, i: nat, j: nat, id: Id, now: int)
    requires IsRun(w, es, actions) && Damping(w.exp) && i < j < |es|
    requires actions[i] == DoEnd(id, now) && id in es[i].sessions
    ensures id in es[j].results && id in es[j].states && id !in es[j].sessions
    ensures var r, v := es[j].results[id], es[j].states[id];
            && r.ended == now && r.health == HealthAfter(r.damage) && r.distance == v.motion.distance
            && r.attacks == v.impacts && r.waves == v.impacts / 5
            && r.score == r.distance * 0.3 + r.health * 2.0 + r.waves as real * 50.0
            && RankFits(r.rank, r.score)
  {
    RunKeeps(w, es, actions, i);
    assert Link(w, es[i], actions[i], es[i + 1]);
    EndCloses(es[i], es[i + 1], id, now);
    EndedForever(w, es, actions, i + 1, j, id, Closed(es[i].results[id], es[i].states[id], now), es[i].states[id]);
  }

  lemma IssuedGrows(w: World, es: seq<Engine>, actions: seq<Action>, i: nat, j: nat)
    requires IsRun(w, es, actions) && i <= j < |es|
    ensures es[i].issued <= es[j].issued
    decreases j - i
  {
    if i < j { IssuedGrows(w, es, actions, i, j - 1); }
  }

  // No two sessions of a run, ended or not, ever get the same identifier.
  lemma NeverReissued(w: World, es: seq<Engine>, actions: seq<Action>, i: nat, j: nat)
    requires IsRun(w, es, actions) && i < j < |actions| && actions[i].DoStart? && actions[j].DoStart?
    ensures SessionId(es[i].issued, actions[i].tail) != SessionId(es[j].issued, actions[j].tail)
  {
    IssuedGrows(w, es, actions, i + 1, j);
    assert Link(w, es[i], actions[i], es[i + 1]) && Link(w, es[j], actions[j], es[j + 1]);
    IdsDistinct(es[i].issued, actions[i].tail, es[j].issued, actions[j].tail);
  }

  // The new session is live, unharmed and at rest, its result is empty.
  lemma StartIsFresh(e: Engine, nickname: string, vehicleType: string, mode: Mode, tail: string, now: int, f: Engine)
    requires f == Start(e, nickname, vehicleType, mode, tail, now)
    ensures var id := SessionId(e.issued, tail);
            && id in f.sessions && id in f.states && id in f.results && id in f.modes && f.modes[id] == mode
            && f.sessions[id] == Session(id, now, now, nickname, vehicleType, e.created % 0x1_0000_0000)
            && AsNew(f.states[id], id) && EmptyResult(f.results[id], id, now)
    ensures f.created == e.created + 1 && f.issued == e.issued + 1 && f.attacks == e.attacks
  {}

  predicate EmptyResult(r: Result, id: Id, now: int) {
    && r.id == id && r.started == now && r.ended == 0 && r.damage == 0.0 && r.attacks == 0 && r.waves == 0
    && r.health == 100.0 && r.distance == 0.0 && r.score == 0.0 && RankFits(r.rank, r.score)
  }

  // A reset gives the session the vehicle and the result of a new one.
  lemma ResetIsFresh(e: Engine, id: Id, now: int)
    requires Inv(e) && id in e.sessions
    ensures var v, r := Reset(e, id, now).states[id], Reset(e, id, now).results[id];
            v == NewVehicle(id, now) && AsNew(v, id) && r == NewResult(id, now) && EmptyResult(r, id, now)
  {
    assert KeysAt(e, id) && SlotAt(e, id);
  }

  // The laws a caller can read off every reachable state, live or ended.
  lemma ReachableVehicle(w: World, es: seq<Engine>, actions: seq<Action>, k: nat, id: Id)
    requires IsRun(w, es, actions) && k < |es| && Damping(w.exp) && id in es[k].states
    ensures id in es[k].results && Lawful(es[k].states[id], es[k].results[id].damage)
  {
    RunKeeps(w, es, actions, k);
    InvLaws(es[k], id);
  }

  lemma InvLaws(e: Engine, id: Id)
    requires Inv(e)
    ensures id in e.states <==> id in e.results
    ensures id in e.states ==> e.results[id].id == id && Lawful(e.states[id], e.results[id].damage)
  {
    assert KeysAt(e, id);
    if id in e.states {
      assert SlotAt(e, id);
      KeptIsLawful(e.states[id], e.results[id].damage);
    }
  }

  // ---------- survival mode ----------

  // Between resets a tick never brings fewer attacks than an earlier one.
  lemma AttackCountNeverFalls(w: World, e: Engine, a: Action, id: Id)
    requires Inv(e) && Allowed(w, e, a) && Damping(w.exp) && id in e.states && id in Next(w, e, a).states
    requires a.DoReset? ==> a.id != id
    ensures var n, m := e.states[id].impacts, Next(w, e, a).states[id].impacts;
            n <= m && 1 <= AttackCount(Survival, n) <= AttackCount(Survival, m) <= 5
  {
    ImpactsMove(w, e, a, id);
  }

  function Landed(e: Engine, a: Action, id: Id): nat
    requires id in e.states
  {
    if id !in e.sessions || !Names(a, id) then 0
    else if a.DoTick? then AttackCount(ModeOf(e, id), e.states[id].impacts)
    else if a.DoTrigger? then 1 else 0
  }

  // Impacts grow by the attacks of the ticks and triggers that name the session.
  lemma ImpactsMove(w: World, e: Engine, a: Action, id: Id)
    requires Inv(e) && Allowed(w, e, a) && Damping(w.exp) && id in e.states && id in Next(w, e, a).states
    requires a.DoReset? ==> a.id != id
    ensures Next(w, e, a).states[id].impacts == e.states[id].impacts + Landed(e, a, id)
  {
    assert KeysAt(e, id) && SlotAt(e, id);
    if !Names(a, id) {
      Isolated(w, e, a, id);
    } else if id in e.sessions {
      NamedImpacts(w, e, a, Next(w, e, a), id);
    }
  }

  lemma NamedImpacts(w: World, e: Engine, a: Action, f: Engine, id: Id)
    requires f == Next(w, e, a) && Inv(e) && Allowed(w, e, a) && Damping(w.exp) && Names(a, id) && !a.DoReset?
    requires id in e.sessions && id in e.states && id in e.results && id in f.states
    ensures f.states[id].impacts == e.states[id].impacts + Landed(e, a, id)
  {
    match a
    case DoTick(_, dt, draws, now) => TickImpacts(e, w, id, dt, draws, now);
    case DoTrigger(_, multiplier, draws, now) => TriggerImpacts(e, w, id, multiplier, draws, now);
    case DoEnd(_, _) =>
    case DoAct(_, _, _, _) =>
  }

  lemma TriggerImpacts(e: Engine, w: World, id: Id, multiplier: real, draws: Draws, now: int)
    requires Inv(e) && Damping(w.exp) && id in e.sessions && id in e.states
    requires FairDraws(draws, w.profile(e.sessions[id].vehicleType))
    ensures Trigger(e, w, id, multiplier, draws, now).states[id].impacts == e.states[id].impacts + 1
  {
    assert KeysAt(e, id) && SlotAt(e, id);
    VolleyKeeps(w, TriggerBarrage(e, w, id, multiplier), e.states[id], e.results[id].damage, draws, 1);
  }

  lemma TickImpacts(e: Engine, w: World, id: Id, dt: real, draws: Draws, now: int)
    requires Inv(e) && dt >= 0.0 && Damping(w.exp) && id in e.sessions && id in e.states
    requires FairDraws(draws, w.profile(e.sessions[id].vehicleType))
    ensures Tick(e, w, id, dt, draws, now).states[id].impacts
            == e.states[id].impacts + AttackCount(ModeOf(e, id), e.states[id].impacts)
  {
    assert KeysAt(e, id);
    TickAccounted(e, w, id, dt, draws, now);
  }

  function ImpactsAfter(ticks: nat): nat {
    if ticks == 0 then 0 else ImpactsAfter(ticks - 1) + AttackCount(Survival, ImpactsAfter(ticks - 1))
  }

  // From the eleventh tick on: five impacts, and so one wave, per tick.
  lemma {:induction false} ImpactsClosedForm(ticks: nat)
    requires ticks >= 11
    ensures ImpactsAfter(ticks) == 21 + 5 * (ticks - 11)
    ensures ImpactsAfter(ticks) / 5 == ticks - 7
  {
    if ticks == 11 {
      assert ImpactsAfter(3) == 3;
      assert ImpactsAfter(5) == 5;
      assert ImpactsAfter(7) == 9;
      assert ImpactsAfter(9) == 14;
    } else {
      ImpactsClosedForm(ticks - 1);
    }
    WholeWaves(ticks - 11);
  }

  lemma WholeWaves(k: nat)
    ensures (21 + 5 * k) / 5 == 4 + k
  {}

  function TickCount(actions: seq<Action>, i: nat, j: nat, id: Id): nat
    requires i <= j <= |actions|
    decreases j - i
  {
    if i == j then 0
    else TickCount(actions, i, j - 1, id) + if actions[j - 1].DoTick? && actions[j - 1].id == id then 1 else 0
  }

  ghost predicate Surviving(e: Engine, id: Id, ticks: nat) {
    && id in e.sessions && id in e.states && id in e.results && id in e.modes && e.modes[id] == Survival
    && e.states[id].impacts == ImpactsAfter(ticks) && e.results[id].waves == ImpactsAfter(ticks) / 5
  }

  lemma SurvivalStep(w: World, e: Engine, a: Action, f: Engine, id: Id, ticks: nat, ticks': nat)
    requires f == Next(w, e, a) && ticks' == if Names(a, id) then ticks + 1 else ticks
    requires Inv(e) && Allowed(w, e, a) && Damping(w.exp) && Surviving(e, id, ticks)
    requires (Names(a, id) ==> a.DoTick?) && id in f.sessions
    ensures Surviving(f, id, ticks')
  {
    if Names(a, id) {
      TickSurvives(w, e, a, f, id, ticks);
    } else {
      Isolated(w, e, a, id);
    }
  }

  lemma TickSurvives(w: World, e: Engine, a: Action, f: Engine, id: Id, ticks: nat)
    requires f == Next(w, e, a) && a.DoTick? && a.id == id
    requires Inv(e) && Allowed(w, e, a) && Damping(w.exp) && Surviving(e, id, ticks)
    ensures Surviving(f, id, ticks + 1)
  {
    assert KeysAt(e, id) && SlotAt(e, id);
    TickImpacts(e, w, id, a.dt, a.draws, a.now);
  }

  lemma OnlyStartCreates(w: World, e: Engine, a: Action, id: Id)
    requires id !in e.sessions && id in Next(w, e, a).sessions
    ensures a.DoStart? && id == SessionId(e.issued, a.tail)
  {}

  lemma StillLive(w: World, es: seq<Engine>, actions: seq<Action>, i: nat, j: nat, id: Id)
    requires IsRun(w, es, actions) && i + 1 < j < |es|
    requires actions[i].DoStart? && id == SessionId(es[i].issued, actions[i].tail) && id in es[j].sessions
    ensures id in es[j - 1].sessions
  {
    if id !in es[j - 1].sessions {
      OnlyStartCreates(w, es[j - 1], actions[j - 1], id);
      NeverReissued(w, es, actions, i, j - 1);
    }
  }

  lemma StartsSurviving(w: World, e: Engine, a: Action, f: Engine)
    requires a.DoStart? && a.mode == Survival && f == Next(w, e, a)
    ensures Surviving(f, SessionId(e.issued, a.tail), 0)
  {}

  // A survival session that nobody but tick touches, among any actions on other
  // sessions: its impacts depend on the number of its ticks alone.
  lemma {:induction false} SurvivalRun(w: World, es: seq<Engine>, actions: seq<Action>, i: nat, j: nat, id: Id)
    requires IsRun(w, es, actions) && Damping(w.exp) && i < j < |es|
    requires actions[i].DoStart? && actions[i].mode == Survival && id == SessionId(es[i].issued, actions[i].tail)
    requires forall k :: i < k < j && Names(actions[k], id) ==> actions[k].DoTick?
    requires id in es[j].sessions
    ensures Surviving(es[j], id, TickCount(actions, i + 1, j, id))
    decreases j - i
  {
    if j == i + 1 {
      StartsSurviving(w, es[i], actions[i], es[j]);
    } else {
      StillLive(w, es, actions, i, j, id);
      SurvivalRun(w, es, actions, i, j - 1, id);
      RunKeeps(w, es, actions, j - 1);
      SurvivalStep(w, es[j - 1], actions[j - 1], es[j], id, TickCount(actions, i + 1, j - 1, id),
                   TickCount(actions, i + 1, j, id));
    }
  }

  lemma SurvivalPace(w: World, es: seq<Engine>, actions: seq<Action>, i: nat, j: nat, id: Id)
    requires IsRun(w, es, actions) && Damping(w.exp) && i < j < |es|
    requires actions[i].DoStart? && actions[i].mode == Survival && id == SessionId(es[i].issued, actions[i].tail)
    requires forall k :: i < k < j && Names(actions[k], id) ==> actions[k].DoTick?
    requires id in es[j].sessions && TickCount(actions, i + 1, j, id) >= 11
    ensures id in es[j].states && id in es[j].results
    ensures var ticks := TickCount(actions, i + 1, j, id);
            es[j].states[id].impacts == 21 + 5 * (ticks - 11) && es[j].results[id].waves == ticks - 7
  {
    SurvivalRun(w, es, actions, i, j, id);
    ImpactsClosedForm(TickCount(actions, i + 1, j, id));
  }
}
