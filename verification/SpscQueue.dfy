// The single-producer single-consumer ring buffer of
// backend/include/common/lockfree_queue.h, one atomic step at a time.
module SpscQueue {

  // Where the producer stands inside push: after loading its own index, after
  // passing the full test, and after writing its slot.
  datatype Producer<T> =
    | PIdle
    | PLoaded(item: T, cur: nat)
    | PClear(item: T, cur: nat)
    | PWritten(item: T, cur: nat)

  // The same for the consumer inside pop.
  datatype Consumer<T> =
    | CIdle
    | CLoaded(cur: nat)
    | CClear(cur: nat)
    | CTaken(out: T, cur: nat)

  // pushed and popped are the whole history: every item stored and every item
  // handed out, in order.
  datatype State<T> = State(
    slots: nat, head: nat, tail: nat, data: seq<T>,
    producer: Producer<T>, consumer: Consumer<T>,
    pushed: seq<T>, popped: seq<T>)

  // TakeSlot moves the item out and leaves some unspecified value behind.
  datatype Step<T> =
    | LoadTail(item: T) | TestFull | WriteSlot | StoreTail
    | LoadHead | TestEmpty | TakeSlot(husk: T) | StoreHead

  ghost predicate Shape<T(!new)>(s: State<T>) {
    && s.slots > 0 && |s.data| == s.slots && s.head < s.slots && s.tail < s.slots
    && (!s.producer.PIdle? ==> s.producer.cur < s.slots)
    && (!s.consumer.CIdle? ==> s.consumer.cur < s.slots)
  }

  predicate Enabled<T>(s: State<T>, a: Step<T>) {
    match a
    case LoadTail(_) => s.producer.PIdle?
    case TestFull => s.producer.PLoaded?
    case WriteSlot => s.producer.PClear?
    case StoreTail => s.producer.PWritten?
    case LoadHead => s.consumer.CIdle?
    case TestEmpty => s.consumer.CLoaded?
    case TakeSlot(_) => s.consumer.CClear?
    case StoreHead => s.consumer.CTaken?
  }

  // The full and empty tests of lines 74 and 84.
  predicate SeesFull<T>(s: State<T>)
    requires s.slots > 0 && s.producer.PLoaded?
  {
    (s.producer.cur + 1) % s.slots == s.head
  }

  predicate SeesEmpty<T>(s: State<T>)
    requires s.consumer.CLoaded?
  {
    s.consumer.cur == s.tail
  }

  function Apply<T(!new)>(s: State<T>, a: Step<T>): State<T>
    requires Shape(s) && Enabled(s, a)
  {
    match a
    case LoadTail(x) => s.(producer := PLoaded(x, s.tail))
    case TestFull =>
      s.(producer := if SeesFull(s) then PIdle else PClear(s.producer.item, s.producer.cur))
    case WriteSlot =>
      s.(data := s.data[s.producer.cur := s.producer.item],
         producer := PWritten(s.producer.item, s.producer.cur))
    case StoreTail =>
      s.(tail := (s.producer.cur + 1) % s.slots,
         pushed := s.pushed + [s.producer.item], producer := PIdle)
    case LoadHead => s.(consumer := CLoaded(s.head))
    case TestEmpty =>
      s.(consumer := if SeesEmpty(s) then CIdle else CClear(s.consumer.cur))
    case TakeSlot(husk) =>
      s.(consumer := CTaken(s.data[s.consumer.cur], s.consumer.cur),
         data := s.data[s.consumer.cur := husk])
    case StoreHead =>
      s.(head := (s.consumer.cur + 1) % s.slots,
         popped := s.popped + [s.consumer.out], consumer := CIdle)
  }

  // ---------- index arithmetic ----------

  lemma MulSign(n: nat, k: int)
    requires n > 0
    ensures k >= 1 ==> n * k >= n
    ensures k <= -1 ==> n * k + n <= 0
  {}

  lemma ModUnique(a: nat, n: nat, q: nat, r: nat)
    requires n > 0 && r < n && a == n * q + r
    ensures a % n == r && a / n == q
  {
    assert n * (q - a / n) == a % n - r;
    MulSign(n, q - a / n);
  }

  lemma ModStep(b: nat, n: nat)
    requires n > 0
    ensures (b + n) % n == b % n
  {
    assert b + n == n * (b / n + 1) + b % n;
    ModUnique(b + n, n, b / n + 1, b % n);
  }

  lemma ModGap(a: nat, b: nat, n: nat)
    requires n > 0 && b <= a <= b + n
    ensures a % n == b % n <==> (a == b || a == b + n)
  {
    ModStep(b, n);
    if a % n == b % n {
      var k := a / n - b / n;
      assert a - b == n * k;
      MulSign(n, k);
      MulSign(n, k - 1);
      assert n * (k - 1) == n * k - n;
      assert k == 0 ==> n * k == 0;
    }
  }

  lemma ModSucc(a: nat, n: nat)
    requires n > 0
    ensures (a % n + 1) % n == (a + 1) % n
  {
    var q, r := a / n, a % n;
    if r + 1 < n {
      ModUnique(a + 1, n, q, r + 1);
      ModUnique(r + 1, n, 0, r + 1);
    } else {
      assert a + 1 == n * (q + 1) + 0;
      ModUnique(a + 1, n, q + 1, 0);
      ModUnique(r + 1, n, 1, 0);
    }
  }

  // ---------- the invariant ----------

  function Size<T>(s: State<T>): int {
    |s.pushed| - |s.popped|
  }

  ghost predicate Indices<T(!new)>(s: State<T>) {
    && Shape(s)
    && s.popped <= s.pushed
    && Size(s) <= s.slots - 1
    && s.head == |s.popped| % s.slots
    && s.tail == |s.pushed| % s.slots
  }

  // Every item between the two counters is in its slot, except one already
  // moved out by a pop that has not stored its index yet.
  ghost predicate Filled<T(!new)>(s: State<T>)
    requires Shape(s)
  {
    forall i :: |s.popped| <= i < |s.pushed| && !(s.consumer.CTaken? && i == |s.popped|)
      ==> s.data[i % s.slots] == s.pushed[i]
  }

  ghost predicate ProducerFine<T(!new)>(s: State<T>)
    requires Shape(s)
  {
    match s.producer
    case PIdle => true
    case PLoaded(_, cur) => cur == s.tail
    case PClear(_, cur) => cur == s.tail && Size(s) < s.slots - 1
    case PWritten(x, cur) => cur == s.tail && Size(s) < s.slots - 1 && s.data[cur] == x
  }

  ghost predicate ConsumerFine<T(!new)>(s: State<T>)
    requires Shape(s)
  {
    match s.consumer
    case CIdle => true
    case CLoaded(cur) => cur == s.head
    case CClear(cur) => cur == s.head && Size(s) > 0
    case CTaken(out, cur) => cur == s.head && Size(s) > 0 && out == s.pushed[|s.popped|]
  }

  ghost predicate Inv<T(!new)>(s: State<T>) {
    Indices(s) && Filled(s) && ProducerFine(s) && ConsumerFine(s)
  }

  ghost predicate Init<T(!new)>(s: State<T>, capacity: nat) {
    && s.slots == capacity + 1 && |s.data| == s.slots && s.head == 0 && s.tail == 0
    && s.producer.PIdle? && s.consumer.CIdle? && s.pushed == [] && s.popped == []
  }

  lemma InitInv<T(!new)>(s: State<T>, capacity: nat)
    requires Init(s, capacity)
    ensures Inv(s)
  {
    ModUnique(0, s.slots, 0, 0);
  }

  // The tests decide on the true contents at the moment of the deciding load.
  lemma TestsExact<T(!new)>(s: State<T>)
    requires Inv(s)
    ensures s.producer.PLoaded? ==> (SeesFull(s) <==> Size(s) == s.slots - 1)
    ensures s.consumer.CLoaded? ==> (SeesEmpty(s) <==> Size(s) == 0)
  {
    var c, p := |s.popped|, |s.pushed|;
    ModSucc(p, s.slots);
    ModGap(p + 1, c, s.slots);
    ModGap(p, c, s.slots);
  }

  // The slot being written is never a slot still to be read.
  lemma FreeSlot<T(!new)>(s: State<T>)
    requires Inv(s) && Size(s) < s.slots - 1
    ensures forall i :: |s.popped| <= i < |s.pushed| ==> i % s.slots != s.tail
  {
    forall i | |s.popped| <= i < |s.pushed| ensures i % s.slots != s.tail {
      ModGap(|s.pushed|, i, s.slots);
    }
  }

  lemma SlotsDisjoint<T(!new)>(s: State<T>)
    requires Inv(s)
    requires s.producer.PClear? || s.producer.PWritten?
    requires s.consumer.CClear? || s.consumer.CTaken?
    ensures s.producer.cur != s.consumer.cur
  {
    FreeSlot(s);
    assert |s.popped| < |s.pushed|;
  }

  lemma TakeKeeps<T(!new)>(s: State<T>, husk: T)
    requires Inv(s) && s.consumer.CClear?
    ensures Inv(Apply(s, TakeSlot(husk)))
  {
    var t := Apply(s, TakeSlot(husk));
    forall i | |s.popped| < i < |s.pushed| ensures t.data[i % s.slots] == s.pushed[i] {
      ModGap(i, |s.popped|, s.slots);
    }
    if s.producer.PWritten? { FreeSlot(s); }
    assert s.data[|s.popped| % s.slots] == s.pushed[|s.popped|];
  }

  lemma WriteKeeps<T(!new)>(s: State<T>)
    requires Inv(s) && s.producer.PClear?
    ensures Inv(Apply(s, WriteSlot))
  {
    FreeSlot(s);
  }

  lemma StoreTailKeeps<T(!new)>(s: State<T>)
    requires Inv(s) && s.producer.PWritten?
    ensures Inv(Apply(s, StoreTail))
  {
    ModSucc(|s.pushed|, s.slots);
    var t := Apply(s, StoreTail);
    assert Indices(t) by { assert t.popped <= t.pushed; }
    assert Filled(t);
  }

  lemma StoreHeadKeeps<T(!new)>(s: State<T>)
    requires Inv(s) && s.consumer.CTaken?
    ensures Inv(Apply(s, StoreHead))
  {
    ModSucc(|s.popped|, s.slots);
    var t := Apply(s, StoreHead);
    assert t.popped <= t.pushed;
  }

  lemma StepKeeps<T(!new)>(s: State<T>, a: Step<T>)
    requires Inv(s) && Enabled(s, a)
    ensures Inv(Apply(s, a))
  {
    match a
    case TakeSlot(husk) => TakeKeeps(s, husk);
    case WriteSlot => WriteKeeps(s);
    case StoreTail => StoreTailKeeps(s);
    case StoreHead => StoreHeadKeeps(s);
    case _ => TestsExact(s);
  }

  // ---------- refinement of a bounded FIFO ----------

  // What is in the ring, read off the indices and the slots alone; an item
  // moved out by an unfinished pop is with the consumer.
  function Contents<T(!new)>(s: State<T>): seq<T>
    requires Shape(s)
  {
    var n := if s.head <= s.tail then s.tail - s.head else s.slots - s.head + s.tail;
    seq(n, (k: nat) requires k < n && Shape(s) =>
      if s.consumer.CTaken? && k == 0 then s.consumer.out else s.data[(s.head + k) % s.slots])
  }

  lemma RingDistance(p: nat, c: nat, n: nat)
    requires n > 0 && c <= p < c + n
    ensures var h, t := c % n, p % n;
            p - c == if h <= t then t - h else n - h + t
  {
    var k := p / n - c / n;
    assert p - c == n * k + (p % n - c % n);
    MulSign(n, k);
    MulSign(n, k - 1);
    assert n * (k - 1) == n * k - n;
    assert k == 0 ==> n * k == 0;
  }

  lemma ModTurns(a: nat, q: nat, n: nat)
    requires n > 0
    ensures (a + n * q) % n == a % n
  {
    assert n * (a / n + q) == n * (a / n) + n * q;
    ModUnique(a + n * q, n, a / n + q, a % n);
  }

  lemma ModPlus(c: nat, k: nat, n: nat)
    requires n > 0
    ensures (c % n + k) % n == (c + k) % n
  {
    var q, r := c / n, c % n;
    assert r + k + n * q == c + k;
    ModTurns(r + k, q, n);
  }

  // Nothing is lost, duplicated or reordered, and the bound holds.
  lemma Fifo<T(!new)>(s: State<T>)
    requires Inv(s)
    ensures s.pushed == s.popped + Contents(s)
    ensures |Contents(s)| <= s.slots - 1
  {
    var c, p := |s.popped|, |s.pushed|;
    RingDistance(p, c, s.slots);
    var q := Contents(s);
    forall k: nat | k < |q| ensures q[k] == s.pushed[c + k] {
      ModPlus(c, k, s.slots);
    }
    assert s.pushed == s.popped + s.pushed[c..];
    assert q == s.pushed[c..];
  }

  // One step of a bounded FIFO holding q: an item in, the oldest item out, or
  // nothing; a push or pop is refused only at the full or empty queue.
  ghost predicate FifoStep<T(!new)>(s: State<T>, a: Step<T>, t: State<T>)
    requires Shape(s) && Shape(t) && Enabled(s, a)
  {
    var q, q' := Contents(s), Contents(t);
    match a
    case StoreTail => |q| < s.slots - 1 && q' == q + [s.producer.item]
    case StoreHead => q != [] && s.consumer.out == q[0] && q' == q[1..]
    case TestFull => q' == q && (t.producer.PIdle? <==> |q| == s.slots - 1)
    case TestEmpty => q' == q && (t.consumer.CIdle? <==> q == [])
    case _ => q' == q
  }

  lemma StepRefines<T(!new)>(s: State<T>, a: Step<T>)
    requires Inv(s) && Enabled(s, a)
    ensures Inv(Apply(s, a)) && FifoStep(s, a, Apply(s, a))
  {
    var t := Apply(s, a);
    StepKeeps(s, a);
    Fifo(s);
    Fifo(t);
    TestsExact(s);
    var q, q' := Contents(s), Contents(t);
    assert q == s.pushed[|s.popped|..] && q' == t.pushed[|t.popped|..];
  }

  // ---------- runs ----------

  // steps is one interleaving of the producer's and the consumer's steps.
  ghost predicate IsRun<T(!new)>(s: State<T>, steps: seq<Step<T>>, t: State<T>)
    decreases |steps|
  {
    if steps == [] then s == t
    else Shape(s) && Enabled(s, steps[0]) && IsRun(Apply(s, steps[0]), steps[1..], t)
  }

  lemma {:induction false} RunKeeps<T(!new)>(s: State<T>, steps: seq<Step<T>>, t: State<T>)
    requires Inv(s) && IsRun(s, steps, t)
    ensures Inv(t) && s.pushed <= t.pushed && s.popped <= t.popped && s.slots == t.slots
    decreases |steps|
  {
    if steps != [] {
      StepKeeps(s, steps[0]);
      RunKeeps(Apply(s, steps[0]), steps[1..], t);
    }
  }

  // From a new queue, under every interleaving: items pushed are items popped
  // followed by the contents, within the requested capacity, and the slots in
  // use by the two sides differ.
  lemma EveryRun<T(!new)>(s: State<T>, capacity: nat, steps: seq<Step<T>>, t: State<T>)
    requires Init(s, capacity) && IsRun(s, steps, t)
    ensures Shape(t) && t.pushed == t.popped + Contents(t) && |Contents(t)| <= capacity
    ensures (t.producer.PClear? || t.producer.PWritten?) && (t.consumer.CClear? || t.consumer.CTaken?)
      ==> t.producer.cur != t.consumer.cur
    ensures t.producer.PLoaded? ==> (SeesFull(t) <==> |Contents(t)| == capacity)
    ensures t.consumer.CLoaded? ==> (SeesEmpty(t) <==> Contents(t) == [])
  {
    InitInv(s, capacity);
    RunKeeps(s, steps, t);
    Fifo(t);
    TestsExact(t);
    if (t.producer.PClear? || t.producer.PWritten?) && (t.consumer.CClear? || t.consumer.CTaken?) {
      SlotsDisjoint(t);
    }
  }

  // approx_size loads head in one state and tail in a later one.
  function ApproxSize(slots: nat, h: nat, t: nat): int {
    if t >= h then t - h else slots - h + t
  }

  // Between the two loads the answer is the pushes so far less the pops at the
  // first load, up to whole turns of the ring, and never above the capacity;
  // when nothing was pushed over the size bound meanwhile it is that difference.
  lemma ApproxSizeBetween<T(!new)>(s: State<T>, steps: seq<Step<T>>, t: State<T>)
    requires Inv(s) && IsRun(s, steps, t)
    ensures var n := ApproxSize(s.slots, s.head, t.tail);
            var seen := |t.pushed| - |s.popped|;
            0 <= n <= s.slots - 1 && n == seen % s.slots
            && (n == seen <==> seen <= s.slots - 1)
            && (steps == [] ==> n == |Contents(s)|)
  {
    RunKeeps(s, steps, t);
    ApproxSizeArithmetic(|t.pushed|, |s.popped|, s.slots);
    if steps == [] { Fifo(s); }
  }

  lemma ApproxSizeArithmetic(p: nat, c: nat, n: nat)
    requires n > 0 && c <= p
    ensures ApproxSize(n, c % n, p % n) == (p - c) % n
    ensures (p - c) % n == p - c <==> p - c < n
  {
    var q, r := (p - c) / n, (p - c) % n;
    assert p == c + r + n * q;
    ModTurns(c + r, q, n);
    RingDistance(c + r, c, n);
    if p - c < n { ModUnique(p - c, n, 0, p - c); }
  }

  // ---------- the class ----------

  // Each method below is one atomic step; Push and Pop run their steps in
  // order. The ghost state ties the object to the step machine above.
  class LockFreeQueue<T(0, !new)> {
    const slots: nat
    const data: array<T>
    var head: nat
    var tail: nat
    ghost var st: State<T>

    ghost predicate Valid()
      reads this, data
    {
      Inv(st) && st.slots == slots && st.head == head && st.tail == tail && st.data == data[..]
    }

    constructor (capacity: nat)
      ensures Valid() && fresh(data) && Init(st, capacity)
    {
      slots := capacity + 1;
      data := new T[capacity + 1];
      head, tail := 0, 0;
      new;
      st := State(slots, 0, 0, data[..], PIdle, CIdle, [], []);
      InitInv(st, capacity);
    }

    method LoadTailStep(item: T) returns (cur: nat)
      requires Valid() && st.producer.PIdle?
      modifies this`st
      ensures Valid() && st == Apply(old(st), LoadTail(item)) && st.producer == PLoaded(item, cur)
    {
      cur := tail;
      StepKeeps(st, LoadTail(item));
      st := Apply(st, LoadTail(item));
    }

    method TestFullStep(ghost item: T, cur: nat) returns (full: bool, next: nat)
      requires Valid() && st.producer == PLoaded(item, cur)
      modifies this`st
      ensures Valid() && st == Apply(old(st), TestFull) && full == SeesFull(old(st))
      ensures next == (cur + 1) % slots
    {
      next := (cur + 1) % slots;
      full := next == head;
      StepKeeps(st, TestFull);
      st := Apply(st, TestFull);
    }

    method WriteSlotStep(item: T, cur: nat)
      requires Valid() && st.producer == PClear(item, cur)
      modifies this`st, data
      ensures Valid() && st == Apply(old(st), WriteSlot)
    {
      StepKeeps(st, WriteSlot);
      data[cur] := item;
      st := Apply(st, WriteSlot);
      assert data[..] == st.data;
    }

    method StoreTailStep(ghost item: T, ghost cur: nat, next: nat)
      requires Valid() && st.producer == PWritten(item, cur) && next == (cur + 1) % slots
      modifies this`st, this`tail
      ensures Valid() && st == Apply(old(st), StoreTail)
    {
      tail := next;
      StepKeeps(st, StoreTail);
      st := Apply(st, StoreTail);
    }

    method LoadHeadStep() returns (cur: nat)
      requires Valid() && st.consumer.CIdle?
      modifies this`st
      ensures Valid() && st == Apply(old(st), LoadHead) && st.consumer == CLoaded(cur)
    {
      cur := head;
      StepKeeps(st, LoadHead);
      st := Apply(st, LoadHead);
    }

    method TestEmptyStep(cur: nat) returns (empty: bool)
      requires Valid() && st.consumer == CLoaded(cur)
      modifies this`st
      ensures Valid() && st == Apply(old(st), TestEmpty) && empty == SeesEmpty(old(st))
    {
      empty := cur == tail;
      StepKeeps(st, TestEmpty);
      st := Apply(st, TestEmpty);
    }

    method TakeSlotStep(cur: nat, husk: T) returns (out: T)
      requires Valid() && st.consumer == CClear(cur)
      modifies this`st, data
      ensures Valid() && st == Apply(old(st), TakeSlot(husk)) && st.consumer == CTaken(out, cur)
    {
      StepKeeps(st, TakeSlot(husk));
      out := data[cur];
      data[cur] := husk;
      st := Apply(st, TakeSlot(husk));
      assert data[..] == st.data;
    }

    method StoreHeadStep(ghost out: T, cur: nat)
      requires Valid() && st.consumer == CTaken(out, cur)
      modifies this`st, this`head
      ensures Valid() && st == Apply(old(st), StoreHead)
    {
      head := (cur + 1) % slots;
      StepKeeps(st, StoreHead);
      st := Apply(st, StoreHead);
    }

    // A push with no consumer step in between; a pop may be halfway.
    method Push(item: T) returns (ok: bool)
      requires Valid() && st.producer.PIdle?
      modifies this, data
      ensures Valid() && st.producer.PIdle? && st.consumer == old(st.consumer)
      ensures ok <==> |old(Contents(st))| < slots - 1
      ensures Contents(st) == if ok then old(Contents(st)) + [item] else old(Contents(st))
    {
      StepRefines(st, LoadTail(item));
      var cur := LoadTailStep(item);
      StepRefines(st, TestFull);
      var full, next := TestFullStep(item, cur);
      if full {
        return false;
      }
      StepRefines(st, WriteSlot);
      WriteSlotStep(item, cur);
      StepRefines(st, StoreTail);
      StoreTailStep(item, cur, next);
      return true;
    }

    // The half of a pop behind the empty test; husk is what moving out of a
    // slot leaves in it.
    method FinishPop(cur: nat, husk: T) returns (out: T)
      requires Valid() && st.consumer == CClear(cur)
      modifies this, data
      ensures Valid() && st.consumer.CIdle? && st.producer == old(st.producer)
      ensures old(Contents(st)) == [out] + Contents(st)
    {
      ghost var q := Contents(st);
      StepRefines(st, TakeSlot(husk));
      out := TakeSlotStep(cur, husk);
      StepRefines(st, StoreHead);
      StoreHeadStep(out, cur);
      assert q == [q[0]] + q[1..];
    }

    method Pop(husk: T, unset: T) returns (ok: bool, out: T)
      requires Valid() && st.consumer.CIdle?
      modifies this, data
      ensures Valid() && st.consumer.CIdle? && st.producer == old(st.producer)
      ensures ok <==> old(Contents(st)) != []
      ensures ok ==> old(Contents(st)) == [out] + Contents(st)
      ensures !ok ==> Contents(st) == [] && out == unset
    {
      StepRefines(st, LoadHead);
      var cur := LoadHeadStep();
      StepRefines(st, TestEmpty);
      var empty := TestEmptyStep(cur);
      if empty {
        return false, unset;
      }
      out := FinishPop(cur, husk);
      return true, out;
    }

    method ApproxSizeNow() returns (n: int)
      requires Valid()
      ensures n == |Contents(st)|
    {
      n := ApproxSize(slots, head, tail);
    }
  }
}
