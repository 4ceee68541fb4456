// The plasticity task pool of backend/src/impact_simulator/impact_simulator.cpp
// as a step machine: submitters, workers, callers of run_simulation, cleanup
// and stop interleave one locked region or atomic access at a time.
module TaskPool {
  import opened Collections

  datatype SensorData = SensorData(
    vehicleId: int, timestampMs: int, material: string, thickness: real,
    rockMass: real, rockVelocity: real, impactX: real, impactY: real, ambientTemp: real)

  datatype SimulationResult = SimulationResult(
    simulationId: int, vehicleId: int, energy: real, plasticStrain: real,
    maxDeformation: real, vonMises: real, penetration: real, damageLevel: int, failureMode: string)

  // A task object. tasks_ and a worker may share it, so the model keeps every
  // object ever submitted in a store and tasks_ as the set of its keys.
  datatype Task = Task(input: SensorData, result: Option<SimulationResult>, completed: bool)

  // Where a worker thread stands: at the loop test, inside pop_next_task, with
  // a task in hand, with the calculation done but not marked, or returned.
  datatype Worker = AtLoop | InPop | Holding(id: int) | Computed(id: int) | Exited

  // Where the call of run_simulation that submitted a task stands.
  datatype Caller = Submitted | Waiting | Returned(r: Option<SimulationResult>) | Done(r: Option<SimulationResult>)

  // The queue and its history: all ids in enqueue order with the place of
  // each, and how many have left.
  datatype Line = Line(queue: seq<int>, enqueued: seq<int>, pos: map<int, int>, left: int)

  // The threads and flags; holder is which worker took which id.
  datatype Crew = Crew(running: bool, stopping: bool, workers: seq<Worker>, holder: map<int, int>)

  // The pool, with what stops discarded.
  datatype Pool = Pool(
    nextId: int, drawn: map<int, SensorData>, store: map<int, Task>, tasks: set<int>,
    line: Line, crew: Crew, callers: map<int, Caller>, discarded: set<int>)

  datatype Action =
    | Draw(input: SensorData) | Enqueue(id: int)
    | Start(n: int) | Work(w: int) | StopFlag | StopClear
    | Lookup(id: int) | Await(id: int) | Remove(id: int) | Cleanup

  // run_plasticity_calc, a function of the task id and its input.
  type Calc = (int, SensorData) -> SimulationResult

  predicate CanWork(s: Pool, w: int) {
    0 <= w < |s.crew.workers|
    && match s.crew.workers[w]
       case AtLoop => true
       case InPop => s.line.queue != [] || !s.crew.running
       case Holding(id) => id in s.store
       case Computed(id) => id in s.store
       case Exited => false
  }

  predicate Enabled(s: Pool, a: Action) {
    match a
    case Draw(_) => true
    case Enqueue(id) => id in s.drawn
    case Start(n) => n > 0 && !s.crew.running && !s.crew.stopping
    case Work(w) => CanWork(s, w)
    case StopFlag => s.crew.running
    case StopClear => s.crew.stopping && forall w :: 0 <= w < |s.crew.workers| ==> s.crew.workers[w] == Exited
    case Lookup(id) => id in s.callers && s.callers[id].Submitted?
    case Await(id) => id in s.callers && s.callers[id].Waiting? && id in s.store && s.store[id].completed
    case Remove(id) => id in s.callers && s.callers[id].Returned?
    case Cleanup => true
  }

  ghost predicate OnlyWorker(before: seq<Worker>, w: int, after: seq<Worker>) {
    |after| == |before| && forall v :: 0 <= v < |before| && v != w ==> after[v] == before[v]
  }

  // A worker at the loop test goes on or returns; one that finds the queue
  // empty after stop goes back to the test.
  function LoopStep(s: Pool, w: int): (t: Pool)
    requires 0 <= w < |s.crew.workers|
    ensures OnlyWorker(s.crew.workers, w, t.crew.workers)
  {
    var next := if s.crew.workers[w] == InPop then AtLoop else if s.crew.running then InPop else Exited;
    s.(crew := s.crew.(workers := s.crew.workers[w := next]))
  }

  // The queue's front leaves it; an id no longer in tasks_ gives no task.
  function PopStep(s: Pool, w: int): (t: Pool)
    requires 0 <= w < |s.crew.workers| && s.line.queue != []
    ensures OnlyWorker(s.crew.workers, w, t.crew.workers)
  {
    var id := s.line.queue[0];
    var line := s.line.(queue := s.line.queue[1..], left := s.line.left + 1);
    if id in s.tasks then
      s.(line := line,
         crew := s.crew.(workers := s.crew.workers[w := Holding(id)], holder := s.crew.holder[id := w]))
    else s.(line := line, crew := s.crew.(workers := s.crew.workers[w := AtLoop]))
  }

  function CalcStep(s: Pool, w: int, id: int, compute: Calc): (t: Pool)
    requires 0 <= w < |s.crew.workers| && id in s.store
    ensures OnlyWorker(s.crew.workers, w, t.crew.workers)
  {
    s.(store := s.store[id := s.store[id].(result := Some(compute(id, s.store[id].input)))],
       crew := s.crew.(workers := s.crew.workers[w := Computed(id)]))
  }

  function CompleteStep(s: Pool, w: int, id: int): (t: Pool)
    requires 0 <= w < |s.crew.workers| && id in s.store
    ensures OnlyWorker(s.crew.workers, w, t.crew.workers)
  {
    s.(store := s.store[id := s.store[id].(completed := true)],
       crew := s.crew.(workers := s.crew.workers[w := AtLoop], holder := s.crew.holder - {id}))
  }

  // A worker submits nothing and discards nothing.
  function WorkStep(s: Pool, w: int, compute: Calc): (t: Pool)
    requires CanWork(s, w)
    ensures t.crew.running == s.crew.running && t.line.enqueued == s.line.enqueued && t.discarded == s.discarded
    ensures OnlyWorker(s.crew.workers, w, t.crew.workers)
  {
    var k := s.crew.workers[w];
    if k.Holding? then CalcStep(s, w, k.id, compute)
    else if k.Computed? then CompleteStep(s, w, k.id)
    else if k == InPop && s.line.queue != [] then PopStep(s, w)
    else LoopStep(s, w)
  }

  function DrawStep(s: Pool, input: SensorData): Pool {
    s.(nextId := s.nextId + 1, drawn := s.drawn[s.nextId := input])
  }

  function EnqueueStep(s: Pool, id: int): Pool
    requires id in s.drawn
  {
    s.(drawn := s.drawn - {id}, store := s.store[id := Task(s.drawn[id], None, false)],
       tasks := s.tasks + {id}, callers := s.callers[id := Submitted],
       line := s.line.(queue := s.line.queue + [id], enqueued := s.line.enqueued + [id],
                       pos := s.line.pos[id := |s.line.enqueued|]))
  }

  function StartStep(s: Pool, n: nat): Pool {
    s.(crew := s.crew.(running := true, workers := seq(n, _ => AtLoop)))
  }

  function StopFlagStep(s: Pool): Pool {
    s.(crew := s.crew.(running := false, stopping := true))
  }

  function StopClearStep(s: Pool): Pool {
    s.(crew := s.crew.(stopping := false, workers := []),
       line := s.line.(queue := [], left := |s.line.enqueued|),
       discarded := s.discarded + (set id | id in s.line.queue))
  }

  function LookupStep(s: Pool, id: int): Pool {
    s.(callers := s.callers[id := if id in s.tasks then Waiting else Returned(None)])
  }

  function AwaitStep(s: Pool, id: int): Pool
    requires id in s.store
  {
    s.(callers := s.callers[id := Returned(s.store[id].result)])
  }

  function RemoveStep(s: Pool, id: int): Pool
    requires id in s.callers && s.callers[id].Returned?
  {
    s.(tasks := s.tasks - {id}, callers := s.callers[id := Done(s.callers[id].r)])
  }

  function CleanupStep(s: Pool): Pool {
    s.(tasks := (set id | id in s.tasks && !(id in s.store && s.store[id].completed)))
  }

  function Apply(s: Pool, a: Action, compute: Calc): Pool
    requires Enabled(s, a)
  {
    match a
    case Draw(input) => DrawStep(s, input)
    case Enqueue(id) => EnqueueStep(s, id)
    case Start(n) => StartStep(s, n)
    case Work(w) => WorkStep(s, w, compute)
    case StopFlag => StopFlagStep(s)
    case StopClear => StopClearStep(s)
    case Lookup(id) => LookupStep(s, id)
    case Await(id) => AwaitStep(s, id)
    case Remove(id) => RemoveStep(s, id)
    case Cleanup => CleanupStep(s)
  }

  function InitPool(): Pool {
    Pool(1, map[], map[], {}, Line([], [], map[], 0), Crew(false, false, [], map[]), map[], {})
  }

  // ---------- the invariant ----------

  function HeldId(w: Worker): Option<int> {
    match w
    case Holding(id) => Some(id)
    case Computed(id) => Some(id)
    case _ => None
  }

  // Every id sits at its own place in the enqueue order; the queue is the part
  // that has not left yet.
  ghost predicate InLine(l: Line) {
    && (forall id :: id in l.pos ==> 0 <= l.pos[id] < |l.enqueued| && l.enqueued[l.pos[id]] == id)
    && (forall i :: 0 <= i < |l.enqueued| ==> l.enqueued[i] in l.pos && l.pos[l.enqueued[i]] == i)
    && 0 <= l.left <= |l.enqueued| && l.queue == l.enqueued[l.left..]
  }

  ghost predicate Ids(s: Pool) {
    && InLine(s.line)
    && s.line.pos.Keys == s.store.Keys == s.callers.Keys
    && (forall id :: id in s.store ==> id < s.nextId && id !in s.drawn)
    && (forall id :: id in s.drawn ==> id < s.nextId)
    && s.tasks <= s.store.Keys
  }

  // holder is who has what, one worker for each id.
  ghost predicate Holders(c: Crew) {
    && (forall id :: id in c.holder ==>
          0 <= c.holder[id] < |c.workers| && HeldId(c.workers[c.holder[id]]) == Some(id))
    && (forall w :: 0 <= w < |c.workers| && HeldId(c.workers[w]).Some? ==>
          c.workers[w].id in c.holder && c.holder[c.workers[w].id] == w)
  }

  ghost predicate Threads(c: Crew) {
    && (c.stopping ==> !c.running)
    && (c.running ==> |c.workers| > 0 && forall w :: 0 <= w < |c.workers| ==> c.workers[w] != Exited)
    && (!c.running && !c.stopping ==> c.workers == [])
  }

  // Each object is in one place.
  ghost predicate Places(s: Pool) {
    && s.line.pos.Keys == s.store.Keys
    && s.crew.holder.Keys <= s.store.Keys && s.discarded <= s.store.Keys
    && (forall id :: id in s.store && s.line.pos[id] >= s.line.left ==>
          !s.store[id].completed && id !in s.crew.holder && id !in s.discarded)
    && (forall id :: id in s.crew.holder ==> !s.store[id].completed && id !in s.discarded)
    && (forall id :: id in s.discarded ==> !s.store[id].completed)
    && (forall id :: id in s.store ==>
          s.line.pos[id] >= s.line.left || id in s.crew.holder || s.store[id].completed || id in s.discarded)
  }

  // tasks_ loses only completed tasks.
  ghost predicate Kept(s: Pool) {
    forall id :: id in s.store && !s.store[id].completed ==> id in s.tasks
  }

  ghost predicate OwnResult(s: Pool, id: int, compute: Calc)
    requires id in s.store
  {
    s.store[id].result == Some(compute(id, s.store[id].input))
  }

  ghost predicate Results(s: Pool, compute: Calc) {
    && (forall id :: id in s.store && s.store[id].completed ==> OwnResult(s, id, compute))
    && (forall w :: 0 <= w < |s.crew.workers| && s.crew.workers[w].Computed? && s.crew.workers[w].id in s.store
          ==> OwnResult(s, s.crew.workers[w].id, compute))
  }

  ghost predicate Answer(s: Pool, id: int, r: Option<SimulationResult>, compute: Calc)
    requires id in s.store
  {
    s.store[id].completed && (r == Some(compute(id, s.store[id].input)) || r == None)
  }

  ghost predicate Answers(s: Pool, compute: Calc) {
    forall id :: id in s.callers && id in s.store && (s.callers[id].Returned? || s.callers[id].Done?)
      ==> Answer(s, id, s.callers[id].r, compute)
  }

  ghost predicate Inv(s: Pool, compute: Calc) {
    && Ids(s) && Holders(s.crew) && Threads(s.crew) && Places(s) && Kept(s)
    && Results(s, compute) && Answers(s, compute)
  }

  lemma InitInv(compute: Calc)
    ensures Inv(InitPool(), compute)
  {}

  // ---------- every step keeps the invariant ----------

  lemma NextInQueue(s: Pool)
    requires Ids(s) && s.line.queue != []
    ensures s.line.left < |s.line.enqueued| && s.line.queue[0] == s.line.enqueued[s.line.left]
    ensures s.line.queue[0] in s.store && s.line.pos[s.line.queue[0]] == s.line.left
    ensures s.line.queue[1..] == s.line.enqueued[s.line.left + 1..]
  {}

  lemma QueuedMeans(s: Pool, id: int)
    requires Ids(s)
    ensures id in s.line.queue <==> id in s.store && s.line.pos[id] >= s.line.left
  {
    if id in s.store && s.line.pos[id] >= s.line.left {
      assert s.line.queue[s.line.pos[id] - s.line.left] == id;
    }
  }

  lemma DrawKeeps(s: Pool, input: SensorData, compute: Calc)
    requires Inv(s, compute)
    ensures Inv(DrawStep(s, input), compute)
  {}

  lemma EnqueuePlaces(s: Pool, id: int)
    requires Ids(s) && Places(s) && id in s.drawn
    ensures Places(EnqueueStep(s, id))
  {
    assert id !in s.store;
  }

  lemma EnqueueKeeps(s: Pool, id: int, compute: Calc)
    requires Inv(s, compute) && id in s.drawn
    ensures Inv(EnqueueStep(s, id), compute)
  {
    assert id !in s.store;
    EnqueueLine(s.line, id);
    EnqueuePlaces(s, id);
  }

  lemma EnqueueLine(l: Line, id: int)
    requires InLine(l) && id !in l.pos
    ensures InLine(Line(l.queue + [id], l.enqueued + [id], l.pos[id := |l.enqueued|], l.left))
  {}

  lemma PopLine(l: Line)
    requires InLine(l) && l.queue != []
    ensures InLine(l.(queue := l.queue[1..], left := l.left + 1))
  {}

  // A worker without a task gets one that nobody has.
  lemma TakeCrew(c: Crew, w: int, id: int)
    requires Holders(c) && Threads(c) && 0 <= w < |c.workers| && HeldId(c.workers[w]) == None && id !in c.holder
    ensures var d := c.(workers := c.workers[w := Holding(id)], holder := c.holder[id := w]);
            Holders(d) && Threads(d)
  {}

  lemma PopPlaces(s: Pool, w: int)
    requires Ids(s) && Places(s) && 0 <= w < |s.crew.workers| && s.line.queue != [] && s.line.queue[0] in s.tasks
    ensures Places(PopStep(s, w))
  {
    NextInQueue(s);
  }

  lemma PopKeeps(s: Pool, w: int, compute: Calc)
    requires Inv(s, compute) && 0 <= w < |s.crew.workers| && s.crew.workers[w] == InPop && s.line.queue != []
    ensures Inv(PopStep(s, w), compute) && s.line.queue[0] in s.tasks
  {
    NextInQueue(s);
    PopLine(s.line);
    assert s.line.queue[0] in s.tasks && s.line.queue[0] !in s.crew.holder;
    TakeCrew(s.crew, w, s.line.queue[0]);
    PopPlaces(s, w);
    PopRest(s, w, compute);
  }

  lemma PopRest(s: Pool, w: int, compute: Calc)
    requires Kept(s) && Results(s, compute) && Answers(s, compute)
    requires 0 <= w < |s.crew.workers| && s.line.queue != []
    ensures var t := PopStep(s, w); Kept(t) && Results(t, compute) && Answers(t, compute)
  {
    var t := PopStep(s, w);
    forall v | 0 <= v < |t.crew.workers| && t.crew.workers[v].Computed? && t.crew.workers[v].id in t.store
      ensures OwnResult(t, t.crew.workers[v].id, compute)
    {
      assert OwnResult(s, s.crew.workers[v].id, compute);
    }
  }

  lemma LoopKeeps(s: Pool, w: int, compute: Calc)
    requires Inv(s, compute) && 0 <= w < |s.crew.workers|
    requires s.crew.workers[w] == AtLoop || (s.crew.workers[w] == InPop && s.line.queue == [] && !s.crew.running)
    ensures Inv(LoopStep(s, w), compute)
  {
    LoopCrew(s, w);
    assert Places(LoopStep(s, w));
  }

  lemma LoopCrew(s: Pool, w: int)
    requires Holders(s.crew) && Threads(s.crew) && 0 <= w < |s.crew.workers|
    requires s.crew.workers[w] == AtLoop || (s.crew.workers[w] == InPop && !s.crew.running)
    ensures Holders(LoopStep(s, w).crew) && Threads(LoopStep(s, w).crew)
  {}

  lemma CalcKeeps(s: Pool, w: int, id: int, compute: Calc)
    requires Inv(s, compute) && 0 <= w < |s.crew.workers| && s.crew.workers[w] == Holding(id) && id in s.store
    ensures Inv(CalcStep(s, w, id, compute), compute)
  {
    var t := CalcStep(s, w, id, compute);
    CalcHolders(s.crew, w, id);
    assert Places(t) && Kept(t);
    CalcResults(s, w, id, compute);
  }

  lemma CalcHolders(c: Crew, w: int, id: int)
    requires Holders(c) && Threads(c) && 0 <= w < |c.workers| && c.workers[w] == Holding(id)
    ensures id in c.holder
    ensures var d := c.(workers := c.workers[w := Computed(id)]); Holders(d) && Threads(d)
  {}

  lemma CalcResults(s: Pool, w: int, id: int, compute: Calc)
    requires Results(s, compute) && Answers(s, compute) && 0 <= w < |s.crew.workers|
    requires id in s.store && !s.store[id].completed
    ensures Results(CalcStep(s, w, id, compute), compute) && Answers(CalcStep(s, w, id, compute), compute)
  {
    var t := CalcStep(s, w, id, compute);
    forall k | k in t.store && k != id ensures t.store[k] == s.store[k] {}
    assert OwnResult(t, id, compute);
    forall v | 0 <= v < |t.crew.workers| && t.crew.workers[v].Computed? && t.crew.workers[v].id in t.store
      ensures OwnResult(t, t.crew.workers[v].id, compute)
    {
      if t.crew.workers[v].id != id { assert OwnResult(s, s.crew.workers[v].id, compute); }
    }
    forall k | k in t.callers && k in t.store && (t.callers[k].Returned? || t.callers[k].Done?)
      ensures Answer(t, k, t.callers[k].r, compute)
    {
      assert Answer(s, k, s.callers[k].r, compute);
    }
  }

  lemma ReleaseCrew(c: Crew, w: int, id: int)
    requires Holders(c) && Threads(c) && 0 <= w < |c.workers| && c.workers[w] == Computed(id)
    ensures id in c.holder
    ensures var d := c.(workers := c.workers[w := AtLoop], holder := c.holder - {id}); Holders(d) && Threads(d)
  {}

  lemma CompletePlaces(s: Pool, w: int, id: int)
    requires Places(s) && id in s.crew.holder && id in s.store && 0 <= w < |s.crew.workers|
    ensures Places(CompleteStep(s, w, id)) && !s.store[id].completed
  {}

  lemma CompleteResults(s: Pool, w: int, id: int, compute: Calc)
    requires Results(s, compute) && Answers(s, compute) && id in s.store && !s.store[id].completed
    requires 0 <= w < |s.crew.workers| && s.crew.workers[w] == Computed(id)
    ensures Results(CompleteStep(s, w, id), compute) && Answers(CompleteStep(s, w, id), compute)
  {
    var t := CompleteStep(s, w, id);
    assert OwnResult(s, s.crew.workers[w].id, compute);
    forall v | 0 <= v < |t.crew.workers| && t.crew.workers[v].Computed? && t.crew.workers[v].id in t.store
      ensures OwnResult(t, t.crew.workers[v].id, compute)
    {
      assert OwnResult(s, s.crew.workers[v].id, compute);
    }
    forall k | k in t.callers && k in t.store && (t.callers[k].Returned? || t.callers[k].Done?)
      ensures Answer(t, k, t.callers[k].r, compute)
    {
      assert Answer(s, k, s.callers[k].r, compute);
    }
  }

  lemma CompleteKeeps(s: Pool, w: int, id: int, compute: Calc)
    requires Inv(s, compute) && 0 <= w < |s.crew.workers| && s.crew.workers[w] == Computed(id) && id in s.store
    ensures Inv(CompleteStep(s, w, id), compute)
  {
    ReleaseCrew(s.crew, w, id);
    CompletePlaces(s, w, id);
    CompleteResults(s, w, id, compute);
  }

  lemma WorkKeeps(s: Pool, w: int, compute: Calc)
    requires Inv(s, compute) && CanWork(s, w)
    ensures Inv(WorkStep(s, w, compute), compute)
  {
    var k := s.crew.workers[w];
    if k.Holding? {
      CalcKeeps(s, w, k.id, compute);
    } else if k.Computed? {
      CompleteKeeps(s, w, k.id, compute);
    } else if k == InPop && s.line.queue != [] {
      PopKeeps(s, w, compute);
    } else {
      LoopKeeps(s, w, compute);
    }
  }

  lemma StartKeeps(s: Pool, n: nat, compute: Calc)
    requires Inv(s, compute) && n > 0 && !s.crew.running && !s.crew.stopping
    ensures Inv(StartStep(s, n), compute)
  {}

  lemma StopFlagKeeps(s: Pool, compute: Calc)
    requires Inv(s, compute) && s.crew.running
    ensures Inv(StopFlagStep(s), compute)
  {}

  lemma HolderWorks(c: Crew, id: int)
    requires Holders(c)
    ensures id in c.holder ==> exists w :: 0 <= w < |c.workers| && c.workers[w] != Exited
  {
    if id in c.holder { assert c.workers[c.holder[id]] != Exited; }
  }

  lemma StopClearKeeps(s: Pool, compute: Calc)
    requires Inv(s, compute) && Enabled(s, StopClear)
    ensures Inv(StopClearStep(s), compute)
  {
    var t := StopClearStep(s);
    forall id ensures id in t.discarded <==> id in s.discarded || (id in s.store && s.line.pos[id] >= s.line.left) {
      QueuedMeans(s, id);
    }
    forall id ensures id !in s.crew.holder {
      HolderWorks(s.crew, id);
    }
  }

  lemma LookupKeeps(s: Pool, id: int, compute: Calc)
    requires Inv(s, compute) && id in s.callers && s.callers[id].Submitted?
    ensures Inv(LookupStep(s, id), compute)
  {}

  lemma AwaitKeeps(s: Pool, id: int, compute: Calc)
    requires Inv(s, compute) && Enabled(s, Await(id))
    ensures Inv(AwaitStep(s, id), compute)
  {}

  lemma RemoveKeeps(s: Pool, id: int, compute: Calc)
    requires Inv(s, compute) && id in s.callers && s.callers[id].Returned?
    ensures Inv(RemoveStep(s, id), compute)
  {
    assert Answer(s, id, s.callers[id].r, compute);
  }

  lemma CleanupKeeps(s: Pool, compute: Calc)
    requires Inv(s, compute)
    ensures Inv(CleanupStep(s), compute)
  {}

  lemma StepKeeps(s: Pool, a: Action, compute: Calc)
    requires Inv(s, compute) && Enabled(s, a)
    ensures Inv(Apply(s, a, compute), compute)
  {
    match a
    case Draw(input) => DrawKeeps(s, input, compute);
    case Enqueue(id) => EnqueueKeeps(s, id, compute);
    case Start(n) => StartKeeps(s, n, compute);
    case Work(w) => WorkKeeps(s, w, compute);
    case StopFlag => StopFlagKeeps(s, compute);
    case StopClear => StopClearKeeps(s, compute);
    case Lookup(id) => LookupKeeps(s, id, compute);
    case Await(id) => AwaitKeeps(s, id, compute);
    case Remove(id) => RemoveKeeps(s, id, compute);
    case Cleanup => CleanupKeeps(s, compute);
  }

  // ---------- runs ----------

  ghost predicate IsRun(s: Pool, acts: seq<Action>, t: Pool, compute: Calc)
    decreases |acts|
  {
    if acts == [] then s == t
    else Enabled(s, acts[0]) && IsRun(Apply(s, acts[0], compute), acts[1..], t, compute)
  }

  lemma EnqueuedGrows(s: Pool, a: Action, compute: Calc)
    requires Ids(s) && Enabled(s, a)
    ensures var t := Apply(s, a, compute); s.line.enqueued <= t.line.enqueued && s.line.left <= t.line.left
  {}

  lemma {:induction false} RunKeeps(s: Pool, acts: seq<Action>, t: Pool, compute: Calc)
    requires Inv(s, compute) && IsRun(s, acts, t, compute)
    ensures Inv(t, compute) && s.line.enqueued <= t.line.enqueued && s.line.left <= t.line.left
    decreases |acts|
  {
    if acts != [] {
      StepKeeps(s, acts[0], compute);
      EnqueuedGrows(s, acts[0], compute);
      RunKeeps(Apply(s, acts[0], compute), acts[1..], t, compute);
    }
  }

  ghost predicate Reachable(t: Pool, compute: Calc) {
    exists acts :: IsRun(InitPool(), acts, t, compute)
  }

  lemma ReachableInv(t: Pool, compute: Calc)
    requires Reachable(t, compute)
    ensures Inv(t, compute)
  {
    var acts :| IsRun(InitPool(), acts, t, compute);
    InitInv(compute);
    RunKeeps(InitPool(), acts, t, compute);
  }

  lemma {:induction false} RunAppend(s: Pool, acts: seq<Action>, t: Pool, a: Action, compute: Calc)
    requires IsRun(s, acts, t, compute) && Enabled(t, a)
    ensures IsRun(s, acts + [a], Apply(t, a, compute), compute)
    decreases |acts|
  {
    if acts == [] {
      assert [a][1..] == [] && acts + [a] == [a];
    } else {
      RunAppend(Apply(s, acts[0], compute), acts[1..], t, a, compute);
      assert (acts + [a])[1..] == acts[1..] + [a];
    }
  }

  lemma ReachableStep(t: Pool, a: Action, compute: Calc)
    requires Reachable(t, compute) && Enabled(t, a)
    ensures Reachable(Apply(t, a, compute), compute)
  {
    var acts :| IsRun(InitPool(), acts, t, compute);
    RunAppend(InitPool(), acts, t, a, compute);
  }

  ghost predicate IsHeldBy(s: Pool, id: int, w: int) {
    0 <= w < |s.crew.workers| && HeldId(s.crew.workers[w]) == Some(id)
  }

  ghost predicate IsHeld(s: Pool, id: int) {
    exists w :: IsHeldBy(s, id, w)
  }

  ghost predicate IsCompleted(s: Pool, id: int) { id in s.store && s.store[id].completed }

  // In every reachable state a submitted task is in exactly one place - the
  // queue, one worker's hands, completed, discarded by a stop - and a queued or
  // held one is still in tasks_.
  lemma ExactlyOnePlace(t: Pool, id: int, compute: Calc)
    requires Reachable(t, compute) && id in t.line.enqueued
    ensures id in t.line.queue || IsHeld(t, id) || IsCompleted(t, id) || id in t.discarded
    ensures id in t.line.queue ==> !IsHeld(t, id) && !IsCompleted(t, id) && id !in t.discarded && id in t.tasks
    ensures IsHeld(t, id) ==> !IsCompleted(t, id) && id !in t.discarded && id in t.tasks
    ensures IsCompleted(t, id) ==> id !in t.discarded
    ensures forall v, w :: IsHeldBy(t, id, v) && IsHeldBy(t, id, w) ==> v == w
  {
    ReachableInv(t, compute);
    QueuedMeans(t, id);
    assert id in t.store;
    forall w | IsHeldBy(t, id, w) ensures id in t.crew.holder && t.crew.holder[id] == w {}
    if id in t.crew.holder { assert IsHeldBy(t, id, t.crew.holder[id]); }
  }

  // Between two moments of a run the tasks that left the queue are the next
  // ones in enqueue order, and no id is enqueued twice.
  lemma LeaveInOrder(s: Pool, acts: seq<Action>, t: Pool, compute: Calc)
    requires Reachable(s, compute) && IsRun(s, acts, t, compute)
    ensures 0 <= s.line.left <= t.line.left <= |t.line.enqueued| && |s.line.enqueued| <= |t.line.enqueued|
    ensures t.line.enqueued[s.line.left..t.line.left] + t.line.queue
         == s.line.queue + t.line.enqueued[|s.line.enqueued|..]
    ensures forall i, j :: 0 <= i < j < |t.line.enqueued| ==> t.line.enqueued[i] != t.line.enqueued[j]
  {
    ReachableInv(s, compute);
    RunKeeps(s, acts, t, compute);
    var e, n := t.line.enqueued, |s.line.enqueued|;
    assert s.line.enqueued == e[..n];
    assert s.line.queue == e[s.line.left..n];
    assert e[s.line.left..t.line.left] + e[t.line.left..] == e[s.line.left..] == e[s.line.left..n] + e[n..];
    forall i, j | 0 <= i < j < |e| ensures e[i] != e[j] {
      assert t.line.pos[e[i]] == i && t.line.pos[e[j]] == j;
    }
  }

  // ---------- what run_simulation returns ----------

  // This step is a cleanup that takes the finished task before its caller has
  // looked it up.
  ghost predicate SweptNow(s: Pool, a: Action, id: int) {
    a.Cleanup? && IsCompleted(s, id) && id in s.callers && s.callers[id].Submitted?
  }

  ghost predicate Swept(s: Pool, acts: seq<Action>, compute: Calc, id: int)
    decreases |acts|
  {
    acts != [] && Enabled(s, acts[0])
    && (SweptNow(s, acts[0], id) || Swept(Apply(s, acts[0], compute), acts[1..], compute, id))
  }

  // Where the caller stands tells whether its task was swept.
  ghost predicate Traced(s: Pool, id: int, swept: bool) {
    if id !in s.callers then !swept
    else match s.callers[id]
      case Submitted => id !in s.tasks <==> swept
      case Waiting => !swept
      case Returned(r) => r == None <==> swept
      case Done(r) => r == None <==> swept
  }

  lemma StepTraced(s: Pool, a: Action, compute: Calc, id: int, swept: bool)
    requires Inv(s, compute) && Enabled(s, a) && Traced(s, id, swept)
    ensures Traced(Apply(s, a, compute), id, swept || SweptNow(s, a, id))
  {
    match a
    case Work(w) => WorkLeaves(s, w, compute);
    case Cleanup => SweepTraced(s, compute, id, swept);
    case Await(i) => if i == id { assert OwnResult(s, id, compute); }
    case _ =>
  }

  lemma WorkLeaves(s: Pool, w: int, compute: Calc)
    requires CanWork(s, w)
    ensures WorkStep(s, w, compute).callers == s.callers && WorkStep(s, w, compute).tasks == s.tasks
  {}

  lemma SweepTraced(s: Pool, compute: Calc, id: int, swept: bool)
    requires Ids(s) && Kept(s) && Traced(s, id, swept)
    ensures Traced(CleanupStep(s), id, swept || SweptNow(s, Cleanup, id))
  {}

  lemma {:induction false} RunTraced(s: Pool, acts: seq<Action>, t: Pool, compute: Calc, id: int, swept: bool)
    requires Inv(s, compute) && IsRun(s, acts, t, compute) && Traced(s, id, swept)
    ensures Traced(t, id, swept || Swept(s, acts, compute, id))
    decreases |acts|
  {
    if acts != [] {
      StepKeeps(s, acts[0], compute);
      StepTraced(s, acts[0], compute, id, swept);
      RunTraced(Apply(s, acts[0], compute), acts[1..], t, compute, id, swept || SweptNow(s, acts[0], id));
    }
  }

  // The inputs drawn in a run, in order: the first gets id 1.
  function Inputs(acts: seq<Action>): seq<SensorData> {
    if acts == [] then [] else (if acts[0].Draw? then [acts[0].input] else []) + Inputs(acts[1..])
  }

  // Every id stands for the input it was drawn for.
  ghost predicate Given(s: Pool, inputs: seq<SensorData>) {
    && s.nextId == |inputs| + 1
    && (forall id :: id in s.drawn ==> 1 <= id <= |inputs| && s.drawn[id] == inputs[id - 1])
    && (forall id :: id in s.store ==> 1 <= id <= |inputs| && s.store[id].input == inputs[id - 1])
  }

  lemma StepGiven(s: Pool, a: Action, compute: Calc, inputs: seq<SensorData>)
    requires Enabled(s, a) && Given(s, inputs)
    ensures Given(Apply(s, a, compute), inputs + Inputs([a]))
  {
    assert [a][1..] == [];
    assert Inputs([a]) == if a.Draw? then [a.input] else [];
    match a
    case Draw(input) => DrawGiven(s, input, inputs);
    case Work(w) => SameGiven(s, WorkStep(s, w, compute), inputs);
    case Enqueue(id) => EnqueueGiven(s, id, inputs);
    case _ => SameGiven(s, Apply(s, a, compute), inputs);
  }

  lemma DrawGiven(s: Pool, input: SensorData, inputs: seq<SensorData>)
    requires Given(s, inputs)
    ensures Given(DrawStep(s, input), inputs + [input])
  {}

  lemma EnqueueGiven(s: Pool, id: int, inputs: seq<SensorData>)
    requires Given(s, inputs) && id in s.drawn
    ensures Given(EnqueueStep(s, id), inputs + [])
  {
    assert inputs + [] == inputs;
  }

  lemma SameGiven(s: Pool, t: Pool, inputs: seq<SensorData>)
    requires Given(s, inputs) && t.nextId == s.nextId && t.drawn == s.drawn && t.store.Keys == s.store.Keys
    requires forall id :: id in s.store ==> t.store[id].input == s.store[id].input
    ensures Given(t, inputs + [])
  {
    assert inputs + [] == inputs;
  }

  lemma {:induction false} RunGiven(s: Pool, acts: seq<Action>, t: Pool, compute: Calc, inputs: seq<SensorData>)
    requires IsRun(s, acts, t, compute) && Given(s, inputs)
    ensures Given(t, inputs + Inputs(acts))
    decreases |acts|
  {
    if acts != [] {
      var now := Inputs([acts[0]]);
      StepGiven(s, acts[0], compute, inputs);
      RunGiven(Apply(s, acts[0], compute), acts[1..], t, compute, inputs + now);
      assert [acts[0]][1..] == [];
      assert inputs + now + Inputs(acts[1..]) == inputs + Inputs(acts);
    }
  }

  // In every run the task of an id holds the input drawn with it.
  lemma OwnInput(acts: seq<Action>, t: Pool, id: int, compute: Calc)
    requires IsRun(InitPool(), acts, t, compute) && id in t.store
    ensures 1 <= id <= |Inputs(acts)| && t.store[id].input == Inputs(acts)[id - 1]
  {
    RunGiven(InitPool(), acts, t, compute, []);
    assert [] + Inputs(acts) == Inputs(acts);
  }

  // run_simulation returns the calculation for its own input exactly when no
  // cleanup came between the completion of its task and its lookup; otherwise
  // it returns the empty result.
  lemma AnswerIsOwn(acts: seq<Action>, t: Pool, id: int, compute: Calc)
    requires IsRun(InitPool(), acts, t, compute)
    requires id in t.callers && (t.callers[id].Returned? || t.callers[id].Done?)
    ensures 1 <= id <= |Inputs(acts)| && id in t.store && t.store[id].result == Some(compute(id, Inputs(acts)[id - 1]))
    ensures t.callers[id].r == Some(compute(id, Inputs(acts)[id - 1])) <==> !Swept(InitPool(), acts, compute, id)
    ensures t.callers[id].r == None <==> Swept(InitPool(), acts, compute, id)
  {
    InitInv(compute);
    RunKeeps(InitPool(), acts, t, compute);
    RunTraced(InitPool(), acts, t, compute, id, false);
    OwnInput(acts, t, id, compute);
    assert Answer(t, id, t.callers[id].r, compute);
  }

  lemma {:induction false} NotSwept(s: Pool, acts: seq<Action>, compute: Calc, id: int)
    requires forall a :: a in acts ==> !a.Cleanup?
    ensures !Swept(s, acts, compute, id)
    decreases |acts|
  {
    if acts != [] && Enabled(s, acts[0]) {
      assert acts[0] in acts;
      NotSwept(Apply(s, acts[0], compute), acts[1..], compute, id);
    }
  }

  // Without cleanup every answer is there.
  lemma AnswerWithoutCleanup(acts: seq<Action>, t: Pool, id: int, compute: Calc)
    requires IsRun(InitPool(), acts, t, compute) && forall a :: a in acts ==> !a.Cleanup?
    requires id in t.callers && (t.callers[id].Returned? || t.callers[id].Done?)
    ensures 1 <= id <= |Inputs(acts)| && t.callers[id].r == Some(compute(id, Inputs(acts)[id - 1]))
  {
    NotSwept(InitPool(), acts, compute, id);
    AnswerIsOwn(acts, t, id, compute);
  }

  // ---------- what the table holds ----------

  // This step takes the task out of tasks_: its caller is done with it, or a
  // cleanup finds it completed.
  predicate DropsNow(s: Pool, a: Action, id: int) {
    a == Remove(id) || (a.Cleanup? && id in s.store && s.store[id].completed)
  }

  ghost predicate Dropped(s: Pool, acts: seq<Action>, compute: Calc, id: int)
    decreases |acts|
  {
    acts != [] && Enabled(s, acts[0])
    && (DropsNow(s, acts[0], id) || Dropped(Apply(s, acts[0], compute), acts[1..], compute, id))
  }

  ghost predicate Tabled(s: Pool, id: int, dropped: bool) {
    && (id in s.tasks <==> id in s.store && !dropped) && (dropped ==> id in s.store)
    && (id in s.callers && s.callers[id].Done? ==> dropped)
  }

  lemma StepTabled(s: Pool, a: Action, compute: Calc, id: int, dropped: bool)
    requires Ids(s) && Enabled(s, a) && Tabled(s, id, dropped)
    ensures Tabled(Apply(s, a, compute), id, dropped || DropsNow(s, a, id))
  {
    match a
    case Work(w) =>
      WorkLeaves(s, w, compute);
      assert WorkStep(s, w, compute).store.Keys == s.store.Keys;
    case _ =>
  }

  lemma {:induction false} RunTabled(s: Pool, acts: seq<Action>, t: Pool, compute: Calc, id: int, dropped: bool)
    requires Inv(s, compute) && IsRun(s, acts, t, compute) && Tabled(s, id, dropped)
    ensures Tabled(t, id, dropped || Dropped(s, acts, compute, id))
    decreases |acts|
  {
    if acts != [] {
      StepKeeps(s, acts[0], compute);
      StepTabled(s, acts[0], compute, id, dropped);
      RunTabled(Apply(s, acts[0], compute), acts[1..], t, compute, id, dropped || DropsNow(s, acts[0], id));
    }
  }

  // After any run tasks_ holds exactly the submitted tasks that no caller has
  // taken out and no cleanup has found completed: nothing of a caller that is done.
  lemma TableHolds(acts: seq<Action>, t: Pool, id: int, compute: Calc)
    requires IsRun(InitPool(), acts, t, compute)
    ensures id in t.tasks <==> id in t.line.enqueued && !Dropped(InitPool(), acts, compute, id)
    ensures id in t.callers && t.callers[id].Done? ==> id !in t.tasks
  {
    InitInv(compute);
    RunKeeps(InitPool(), acts, t, compute);
    RunTabled(InitPool(), acts, t, compute, id, false);
    if id in t.store { assert t.line.enqueued[t.line.pos[id]] == id; }
  }

  // A pool of one worker with one task submitted, the worker at w.
  function Lone(input: SensorData, queued: bool, task: Task, w: Worker): Pool {
    Pool(2, map[], map[1 := task], {1},
         Line(if queued then [1] else [], [1], map[1 := 0], if queued then 0 else 1),
         Crew(true, false, [w], if HeldId(w) == Some(1) then map[1 := 0] else map[]), map[1 := Submitted], {})
  }

  lemma LoneQueued(input: SensorData, compute: Calc)
    ensures Reachable(Lone(input, true, Task(input, None, false), AtLoop), compute)
  {
    var s, t := DrawStep(InitPool(), input), Lone(input, true, Task(input, None, false), AtLoop);
    assert IsRun(InitPool(), [], InitPool(), compute);
    ReachableStep(InitPool(), Draw(input), compute);
    ReachableStep(s, Enqueue(1), compute);
    ReachableStep(EnqueueStep(s, 1), Start(1), compute);
    assert StartStep(EnqueueStep(s, 1), 1) == t;
  }

  lemma LoneTaken(input: SensorData, compute: Calc)
    ensures Reachable(Lone(input, false, Task(input, None, false), Holding(1)), compute)
  {
    LoneQueued(input, compute);
    var raw := Task(input, None, false);
    var s, t := Lone(input, true, raw, AtLoop), Lone(input, true, raw, InPop);
    ReachableStep(s, Work(0), compute);
    assert LoopStep(s, 0) == t;
    ReachableStep(t, Work(0), compute);
    assert PopStep(t, 0) == Lone(input, false, raw, Holding(1));
  }

  lemma LoneFinished(input: SensorData, compute: Calc)
    ensures Reachable(Lone(input, false, Task(input, Some(compute(1, input)), true), AtLoop), compute)
  {
    LoneTaken(input, compute);
    var s := Lone(input, false, Task(input, None, false), Holding(1));
    ReachableStep(s, Work(0), compute);
    var r := Some(compute(1, input));
    var t := Lone(input, false, Task(input, r, false), Computed(1));
    assert CalcStep(s, 0, 1, compute) == t;
    ReachableStep(t, Work(0), compute);
    assert CompleteStep(t, 0, 1) == Lone(input, false, Task(input, r, true), AtLoop);
  }

  // The swept case happens: one task, one worker, and a cleanup in the gap.
  lemma CleanupRace(input: SensorData, compute: Calc)
    ensures exists t :: Reachable(t, compute) && 1 in t.callers && t.callers[1] == Returned(None)
  {
    LoneFinished(input, compute);
    var s := Lone(input, false, Task(input, Some(compute(1, input)), true), AtLoop);
    ReachableStep(s, Cleanup, compute);
    ReachableStep(CleanupStep(s), Lookup(1), compute);
    assert Reachable(LookupStep(CleanupStep(s), 1), compute);
  }

  lemma {:induction false} DiscardedStays(s: Pool, acts: seq<Action>, t: Pool, compute: Calc)
    requires IsRun(s, acts, t, compute)
    ensures s.discarded <= t.discarded
    decreases |acts|
  {
    if acts != [] {
      DiscardedStays(Apply(s, acts[0], compute), acts[1..], t, compute);
    }
  }

  // A caller whose task a stop discarded never returns, however the run goes on.
  lemma DiscardedWaits(s: Pool, acts: seq<Action>, t: Pool, id: int, compute: Calc)
    requires Reachable(s, compute) && id in s.discarded && IsRun(s, acts, t, compute)
    ensures id in t.callers && (t.callers[id].Submitted? || t.callers[id].Waiting?)
    ensures !Enabled(t, Await(id)) && id in t.tasks
  {
    ReachableInv(s, compute);
    RunKeeps(s, acts, t, compute);
    DiscardedStays(s, acts, t, compute);
    assert id in t.store && !t.store[id].completed;
  }

  lemma PopTakes(t: Pool, w: int, compute: Calc)
    requires Reachable(t, compute) && CanWork(t, w) && t.crew.workers[w] == InPop && t.line.queue != []
    ensures t.line.queue[0] in t.tasks && t.line.queue[0] in t.store
  {
    ReachableInv(t, compute);
    PopKeeps(t, w, compute);
  }

  lemma FreshId(t: Pool, id: int, compute: Calc)
    requires Reachable(t, compute) && id in t.drawn
    ensures id !in t.store
  {
    ReachableInv(t, compute);
  }

  lemma CompletedResult(t: Pool, id: int, compute: Calc)
    requires Reachable(t, compute) && IsCompleted(t, id)
    ensures t.store[id].result == Some(compute(id, t.store[id].input))
  {
    ReachableInv(t, compute);
  }

  // ---------- progress ----------

  // 2 * queued + held, and a finer rank that every worker step lowers.
  function HeldWeight(w: Worker): nat {
    if HeldId(w).Some? then 1 else 0
  }

  function Rank(w: Worker, running: bool): nat {
    match w
    case AtLoop => 1
    case InPop => if running then 0 else 2
    case Holding(_) => 5
    case Computed(_) => 4
    case Exited => 0
  }

  function Held(ws: seq<Worker>): nat {
    if ws == [] then 0 else HeldWeight(ws[0]) + Held(ws[1..])
  }

  function Ranks(ws: seq<Worker>, running: bool): nat {
    if ws == [] then 0 else Rank(ws[0], running) + Ranks(ws[1..], running)
  }

  function Backlog(s: Pool): nat {
    2 * |s.line.queue| + Held(s.crew.workers)
  }

  function Measure(s: Pool): nat {
    6 * |s.line.queue| + Ranks(s.crew.workers, s.crew.running)
  }

  lemma {:induction false} SumsUpdate(ws: seq<Worker>, i: int, w: Worker, running: bool)
    requires 0 <= i < |ws|
    ensures Held(ws[i := w]) == Held(ws) - HeldWeight(ws[i]) + HeldWeight(w)
    ensures Ranks(ws[i := w], running) == Ranks(ws, running) - Rank(ws[i], running) + Rank(w, running)
    decreases |ws|
  {
    if i == 0 {
      assert ws[i := w][1..] == ws[1..];
    } else {
      SumsUpdate(ws[1..], i - 1, w, running);
      assert ws[i := w][1..] == ws[1..][i - 1 := w];
    }
  }

  // The id at the front of the queue is in tasks_.
  ghost predicate FrontKept(s: Pool) {
    s.line.queue == [] || s.line.queue[0] in s.tasks
  }

  lemma ReachableFront(t: Pool, compute: Calc)
    requires Reachable(t, compute)
    ensures FrontKept(t)
  {
    ReachableInv(t, compute);
    if t.line.queue != [] { NextInQueue(t); }
  }

  // Taking a task or finishing one lowers the backlog by one, other worker
  // steps leave it; the measure falls with every worker step.
  lemma WorkProgress(s: Pool, w: int, compute: Calc)
    requires FrontKept(s) && CanWork(s, w)
    ensures var t := WorkStep(s, w, compute);
            var moves := s.crew.workers[w].Computed? || (s.crew.workers[w].InPop? && s.line.queue != []);
            Backlog(t) == Backlog(s) - (if moves then 1 else 0) && Measure(t) < Measure(s)
  {
    var t := WorkStep(s, w, compute);
    assert t.crew.workers == s.crew.workers[w := t.crew.workers[w]];
    SumsUpdate(s.crew.workers, w, t.crew.workers[w], s.crew.running);
  }

  // Worker steps alone cannot go on for longer than the measure.
  lemma {:induction false} WorkBounded(s: Pool, acts: seq<Action>, t: Pool, compute: Calc)
    requires Reachable(s, compute) && IsRun(s, acts, t, compute) && forall a :: a in acts ==> a.Work?
    ensures |acts| <= Measure(s) && t.crew.running == s.crew.running
         && t.line.enqueued == s.line.enqueued && t.discarded == s.discarded
    decreases |acts|
  {
    if acts != [] {
      assert acts[0] in acts;
      var next := WorkStep(s, acts[0].w, compute);
      ReachableFront(s, compute);
      WorkProgress(s, acts[0].w, compute);
      ReachableStep(s, acts[0], compute);
      WorkBounded(next, acts[1..], t, compute);
    }
  }

  // While the pool runs, workers stop stepping only when every submitted task
  // is completed or was discarded by an earlier stop.
  lemma QuietMeansDone(s: Pool, compute: Calc)
    requires Reachable(s, compute) && s.crew.running && forall w :: !CanWork(s, w)
    ensures s.line.queue == [] && forall id :: id in s.line.enqueued ==> IsCompleted(s, id) || id in s.discarded
  {
    ReachableInv(s, compute);
    assert !CanWork(s, 0);
    forall id | id in s.line.enqueued ensures IsCompleted(s, id) || id in s.discarded {
      assert id in s.store && s.line.pos[id] < s.line.left;
      assert id in s.crew.holder ==> CanWork(s, s.crew.holder[id]);
    }
  }

  // Calculating and completing change one object of the store and a worker.
  lemma TaskStepStore(s: Pool, w: int, compute: Calc)
    requires CanWork(s, w) && HeldId(s.crew.workers[w]).Some?
    ensures var t, id := WorkStep(s, w, compute), s.crew.workers[w].id; var old' := s.store[id];
            && t.line == s.line && t.tasks == s.tasks && t.nextId == s.nextId && t.crew.running == s.crew.running
            && t.store == s.store[id := if s.crew.workers[w].Computed? then old'.(completed := true)
                                        else old'.(result := Some(compute(id, old'.input)))]
  {}

  // ---------- the class ----------

  class PlasticityTask {
    const taskId: int
    const sensorData: SensorData
    var completed: bool
    var result: Option<SimulationResult>

    constructor (id: int, data: SensorData)
      ensures taskId == id && sensorData == data && !completed && result == None
    {
      taskId, sensorData := id, data;
      completed, result := false, None;
    }
  }

  // The fields under the mutex and the atomic flags. Each method is one atomic
  // step; objs keeps every task object, st the state of the machine above.
  class ImpactSimulator {
    const compute: Calc
    var tasks: map<int, PlasticityTask>
    var taskQueue: seq<int>
    var nextTaskId: int
    var workersRunning: bool
    ghost var objs: map<int, PlasticityTask>
    ghost var st: Pool

    // The object holds the state of task id.
    ghost static predicate Shows(o: PlasticityTask, id: int, t: Task)
      reads o
    {
      o.taskId == id && Task(o.sensorData, o.result, o.completed) == t
    }

    ghost predicate Linked()
      reads this, objs.Values
    {
      && taskQueue == st.line.queue && nextTaskId == st.nextId && workersRunning == st.crew.running
      && objs.Keys == st.store.Keys
      && tasks.Keys == st.tasks
      && (forall id :: id in tasks ==> id in objs && tasks[id] == objs[id])
      && (forall id :: id in objs ==> Shows(objs[id], id, st.store[id]))
    }

    ghost predicate Valid()
      reads this, objs.Values
    {
      Reachable(st, compute) && Linked()
    }

    constructor (compute: Calc)
      ensures Valid() && st == InitPool() && this.compute == compute
    {
      this.compute := compute;
      tasks, taskQueue, nextTaskId, workersRunning := map[], [], 1, false;
      objs, st := map[], InitPool();
      new;
      assert IsRun(InitPool(), [], InitPool(), compute);
    }

    // next_task_id_.fetch_add, outside the mutex.
    method DrawId(data: SensorData) returns (id: int)
      requires Valid()
      modifies this`nextTaskId, this`st
      ensures Valid() && st == Apply(old(st), Draw(data), compute) && id == old(st.nextId)
    {
      id := nextTaskId;
      nextTaskId := nextTaskId + 1;
      ReachableStep(st, Draw(data), compute);
      st := Apply(st, Draw(data), compute);
    }

    method EnqueueTask(id: int, data: SensorData) returns (task: PlasticityTask)
      requires Valid() && id in st.drawn && st.drawn[id] == data
      modifies this`tasks, this`taskQueue, this`objs, this`st
      ensures Valid() && st == Apply(old(st), Enqueue(id), compute)
      ensures fresh(task) && objs == old(objs)[id := task]
    {
      task := new PlasticityTask(id, data);
      AddTask(id, task);
    }

    method AddTask(id: int, task: PlasticityTask)
      requires Valid() && id in st.drawn && task !in objs.Values
      requires task.taskId == id && task.sensorData == st.drawn[id] && !task.completed && task.result == None
      modifies this`tasks, this`taskQueue, this`objs, this`st
      ensures Valid() && st == Apply(old(st), Enqueue(id), compute) && objs == old(objs)[id := task]
    {
      FreshId(st, id, compute);
      ReachableStep(st, Enqueue(id), compute);
      tasks := tasks[id := task];
      taskQueue := taskQueue + [id];
      objs := objs[id := task];
      st := Apply(st, Enqueue(id), compute);
    }

    // The locked region of pop_next_task for worker w; null for no task.
    method PopNextTask(ghost w: int) returns (task: PlasticityTask?)
      requires Valid() && CanWork(st, w) && st.crew.workers[w].InPop?
      modifies this`taskQueue, this`st
      ensures Valid() && st == WorkStep(old(st), w, compute)
      ensures task == null <==> old(st.line.queue) == []
      ensures task != null ==> st.crew.workers[w] == Holding(task.taskId) && task.taskId == old(st.line.queue)[0]
                               && task.taskId in objs && objs[task.taskId] == task
    {
      ReachableStep(st, Work(w), compute);
      if taskQueue == [] {
        st := WorkStep(st, w, compute);
        return null;
      }
      var id := taskQueue[0];
      taskQueue := taskQueue[1..];
      PopTakes(st, w, compute);
      st := WorkStep(st, w, compute);
      if id !in tasks {
        return null;
      }
      task := tasks[id];
    }

    method RunTask(ghost w: int, task: PlasticityTask)
      requires Valid() && CanWork(st, w) && st.crew.workers[w] == Holding(task.taskId)
      requires task.taskId in objs && objs[task.taskId] == task
      modifies this`st, task`result
      ensures Valid() && st == WorkStep(old(st), w, compute)
    {
      task.result := Some(compute(task.taskId, task.sensorData));
      ReachableStep(st, Work(w), compute);
      TaskStepStore(st, w, compute);
      st := WorkStep(st, w, compute);
    }

    method CompleteTask(ghost w: int, task: PlasticityTask)
      requires Valid() && CanWork(st, w) && st.crew.workers[w] == Computed(task.taskId)
      requires task.taskId in objs && objs[task.taskId] == task
      modifies this`st, task`completed
      ensures Valid() && st == WorkStep(old(st), w, compute)
    {
      task.completed := true;
      ReachableStep(st, Work(w), compute);
      TaskStepStore(st, w, compute);
      st := WorkStep(st, w, compute);
    }

    // The first half of get_task_result, for any id: the lookup under the
    // mutex. It moves the caller of run_simulation that it is the first for.
    method LookupTask(id: int) returns (task: PlasticityTask?)
      requires Valid()
      modifies this`st
      ensures Valid() && st == if Enabled(old(st), Lookup(id)) then Apply(old(st), Lookup(id), compute) else old(st)
      ensures task == null <==> id !in st.tasks
      ensures task != null ==> id in objs && task == objs[id]
    {
      task := if id in tasks then tasks[id] else null;
      if Enabled(st, Lookup(id)) {
        ReachableStep(st, Lookup(id), compute);
        st := Apply(st, Lookup(id), compute);
      }
    }

    // The end of its wait, taken once the task is seen completed.
    method TakeResult(id: int, task: PlasticityTask) returns (r: Option<SimulationResult>)
      requires Valid() && id in objs && objs[id] == task && task.completed
      modifies this`st
      ensures Valid() && st == if Enabled(old(st), Await(id)) then Apply(old(st), Await(id), compute) else old(st)
      ensures r == Some(compute(id, task.sensorData))
      ensures Enabled(old(st), Await(id)) ==> st.callers[id] == Returned(r)
    {
      r := task.result;
      CompletedResult(st, id, compute);
      if Enabled(st, Await(id)) {
        ReachableStep(st, Await(id), compute);
        st := Apply(st, Await(id), compute);
      }
    }

    method RemoveTask(id: int)
      requires Valid() && Enabled(st, Remove(id))
      modifies this`tasks, this`st
      ensures Valid() && st == Apply(old(st), Remove(id), compute)
    {
      tasks := tasks - {id};
      ReachableStep(st, Remove(id), compute);
      st := Apply(st, Remove(id), compute);
    }

    method CleanupCompletedTasks()
      requires Valid()
      modifies this`tasks, this`st
      ensures Valid() && st == Apply(old(st), Cleanup, compute)
    {
      assert forall id :: id in tasks ==> tasks[id].completed == st.store[id].completed;
      tasks := EraseCompleted(tasks);
      ReachableStep(st, Cleanup, compute);
      st := Apply(st, Cleanup, compute);
      assert forall id :: id in tasks.Keys <==> id in st.tasks;
    }

    static method EraseCompleted(all: map<int, PlasticityTask>) returns (kept: map<int, PlasticityTask>)
      ensures forall id :: id in kept <==> id in all && !all[id].completed
      ensures forall id :: id in kept ==> kept[id] == all[id]
    {
      kept := all;
      var todo: set<int> := all.Keys;
      while todo != {}
        invariant todo <= kept.Keys && kept.Keys <= all.Keys
        invariant forall id :: id in kept ==> kept[id] == all[id]
        invariant forall id :: id in all && id !in todo ==> (id in kept <==> !all[id].completed)
        decreases todo
      {
        SomeInt(todo);
        var id: int :| id in todo;
        if kept[id].completed {
          kept := kept - {id};
        }
        todo := todo - {id};
      }
    }

    method StartWorkers(poolSize: int)
      requires Valid() && !st.crew.stopping
      modifies this`workersRunning, this`st
      ensures Valid()
      ensures st == if old(workersRunning) then old(st)
                    else Apply(old(st), Start(if poolSize > 1 then poolSize else 1), compute)
      ensures !old(workersRunning) ==> |st.crew.workers| == (if poolSize > 1 then poolSize else 1) && st.crew.running
    {
      if workersRunning {
        return;
      }
      workersRunning := true;
      var n := if poolSize > 1 then poolSize else 1;
      ReachableStep(st, Start(n), compute);
      st := Apply(st, Start(n), compute);
    }

    // stop_workers: the flag first, then, once every thread has joined, the queue.
    method StopWorkersFlag() returns (was: bool)
      requires Valid()
      modifies this`workersRunning, this`st
      ensures Valid() && was == old(workersRunning)
      ensures st == if was then Apply(old(st), StopFlag, compute) else old(st)
    {
      was := workersRunning;
      workersRunning := false;
      if was {
        ReachableStep(st, StopFlag, compute);
        st := Apply(st, StopFlag, compute);
      }
    }

    method StopWorkersClear()
      requires Valid() && Enabled(st, StopClear)
      modifies this`taskQueue, this`st
      ensures Valid() && st == Apply(old(st), StopClear, compute)
    {
      taskQueue := [];
      ReachableStep(st, StopClear, compute);
      st := Apply(st, StopClear, compute);
    }

    method IsTaskComplete(id: int) returns (done: bool)
      requires Valid()
      ensures done <==> id in st.tasks && IsCompleted(st, id)
    {
      done := id in tasks && tasks[id].completed;
    }
  }
}
