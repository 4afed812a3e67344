/**
 The event scheduler: an intrusive singly linked list of events ordered by trigger time
 (src/EventScheduler.h, src/EventScheduler.cpp). Time runs at twice the visible clock: even
 times are PHI1 slots, odd times are PHI2 slots.

 This file holds the list algorithm on values, the stable priority queue it refines, and the
 proof. EventScheduler.dfy holds the linked list itself.
 */
module EventQueue {

  datatype Phase = Phi1 | Phi2 {
    function Bit(): nat { if Phi1? then 0 else 1 }
  }

  /** A pending event. The stamp is the number of insertions made before this one. */
  datatype Entry<E> = Entry(event: E, time: nat, stamp: nat)

  /** The trigger time of a phased request: the next slot of that phase, plus whole cycles. */
  function PhasedTime(now: nat, cycles: nat, phase: Phase): nat {
    now + (if now % 2 == phase.Bit() then 0 else 1) + 2 * cycles
  }

  /** The trigger time of a request in the current phase. */
  function PlainTime(now: nat, cycles: nat): nat {
    now + 2 * cycles
  }

  function GetTime(now: nat, phase: Phase): nat {
    (now + 1 - phase.Bit()) / 2
  }

  /** With no extra cycles a phased request fires in the earliest slot of that phase, and that slot is
      the one GetTime names; extra cycles move it by exactly that many cycles. */
  lemma PhasedTimeIsEarliest(now: nat, cycles: nat, phase: Phase)
    ensures var slot := PhasedTime(now, cycles, phase) - 2 * cycles;
            && now <= slot
            && slot % 2 == phase.Bit()
            && (forall t | now <= t && t % 2 == phase.Bit() :: slot <= t)
            && slot == 2 * GetTime(now, phase) + phase.Bit()
  {
    var slot := PhasedTime(now, cycles, phase) - 2 * cycles;
    assert slot % 2 == phase.Bit();
  }

  /** A plain request waits whole cycles: either phase is that many cycles further, and so it fires in the phase it was
      made in. */
  lemma PlainTimeIsWholeCycles(now: nat, cycles: nat, phase: Phase)
    ensures PlainTime(now, cycles) >= now && PlainTime(now, cycles) % 2 == now % 2
    ensures GetTime(PlainTime(now, cycles), phase) == GetTime(now, phase) + cycles
    ensures now % 2 == phase.Bit() ==> PlainTime(now, cycles) == PhasedTime(now, cycles, phase)
  {
  }

  // ----- The list algorithm on values -----

  /** Walks past every event that is due no later, then links the new event in. */
  function Insert<E>(q: seq<Entry<E>>, e: Entry<E>): seq<Entry<E>> {
    if q == [] || q[0].time > e.time then [e] + q else [q[0]] + Insert(q[1..], e)
  }

  /** Unlinks the first occurrence of the event; a missing event changes nothing. */
  function Remove<E(==)>(q: seq<Entry<E>>, event: E): seq<Entry<E>> {
    if q == [] then [] else if q[0].event == event then q[1..] else [q[0]] + Remove(q[1..], event)
  }

  predicate IsPending<E(==)>(q: seq<Entry<E>>, event: E) {
    exists i | 0 <= i < |q| :: q[i].event == event
  }

  datatype Queue<E> = Queue(entries: seq<Entry<E>>, now: nat, next: nat)

  datatype Op<E> =
    | Schedule(event: E, cycles: nat)
    | SchedulePhased(event: E, cycles: nat, phase: Phase)
    | Cancel(event: E)
    | Clock

  /** What the source demands of its callers: no event is inserted twice, and there is one to fire. */
  predicate Enabled<E(==)>(q: Queue<E>, op: Op<E>) {
    match op
    case Schedule(e, _) => !IsPending(q.entries, e)
    case SchedulePhased(e, _, _) => !IsPending(q.entries, e)
    case Cancel(_) => true
    case Clock => q.entries != []
  }

  function Add<E>(q: Queue<E>, event: E, time: nat): Queue<E> {
    Queue(Insert(q.entries, Entry(event, time, q.next)), q.now, q.next + 1)
  }

  function Step<E(==)>(q: Queue<E>, op: Op<E>): Queue<E>
    requires Enabled(q, op)
  {
    match op
    case Schedule(e, cycles) => Add(q, e, PlainTime(q.now, cycles))
    case SchedulePhased(e, cycles, phase) => Add(q, e, PhasedTime(q.now, cycles, phase))
    case Cancel(e) => q.(entries := Remove(q.entries, e))
    case Clock => q.(entries := q.entries[1..], now := q.entries[0].time)
  }

  // ----- The reference: a stable priority queue -----

  /** Earlier trigger time first, and among equal times first come first served. */
  predicate Before<E>(a: Entry<E>, b: Entry<E>) {
    a.time < b.time || (a.time == b.time && a.stamp < b.stamp)
  }

  ghost predicate IsFirst<E>(m: Entry<E>, items: set<Entry<E>>) {
    m in items && forall x | x in items && x != m :: Before(m, x)
  }

  datatype Bag<E(==)> = Bag(items: set<Entry<E>>, now: nat, next: nat)

  /** The reference: entries are added to and struck from a set. */
  ghost function BagUpdate<E>(b: Bag<E>, op: Op<E>): Bag<E>
    requires !op.Clock?
  {
    match op
    case Schedule(e, cycles) => Bag(b.items + {Entry(e, PlainTime(b.now, cycles), b.next)}, b.now, b.next + 1)
    case SchedulePhased(e, cycles, phase) =>
      Bag(b.items + {Entry(e, PhasedTime(b.now, cycles, phase), b.next)}, b.now, b.next + 1)
    case Cancel(e) => b.(items := set x | x in b.items && x.event != e)
  }

  /** Firing the event m takes it from the set and moves time to it. */
  ghost function BagFire<E>(b: Bag<E>, m: Entry<E>): Bag<E> {
    b.(items := b.items - {m}, now := m.time)
  }

  // ----- Refinement -----

  ghost predicate Sorted<E>(q: seq<Entry<E>>) {
    forall i, j | 0 <= i < j < |q| :: Before(q[i], q[j])
  }

  ghost predicate Distinct<E>(q: seq<Entry<E>>) {
    forall i, j | 0 <= i < j < |q| :: q[i].event != q[j].event
  }

  ghost predicate Valid<E>(q: Queue<E>) {
    && Sorted(q.entries)
    && Distinct(q.entries)
    && forall i | 0 <= i < |q.entries| :: q.now <= q.entries[i].time && q.entries[i].stamp < q.next
  }

  ghost function Items<T>(q: seq<T>): set<T> { set x | x in q }

  ghost function ToBag<E>(q: Queue<E>): Bag<E> { Bag(Items(q.entries), q.now, q.next) }

  /** The walk stops at the only place that keeps the order. */
  lemma {:induction false} InsertAt<E>(q: seq<Entry<E>>, e: Entry<E>, k: nat)
    requires k <= |q|
    requires forall i | 0 <= i < k :: q[i].time <= e.time
    requires k < |q| ==> q[k].time > e.time
    ensures Insert(q, e) == q[..k] + [e] + q[k..]
  {
    if k == 0 {
      assert Insert(q, e) == [e] + q;
    } else {
      InsertAt(q[1..], e, k - 1);
      assert q[..k] + [e] + q[k..] == [q[0]] + (q[1..][..k-1] + [e] + q[1..][k-1..]);
    }
  }

  lemma {:induction false} InsertPosition<E>(q: seq<Entry<E>>, e: Entry<E>) returns (k: nat)
    requires Sorted(q)
    ensures k <= |q|
    ensures forall i | 0 <= i < k :: q[i].time <= e.time
    ensures forall i | k <= i < |q| :: q[i].time > e.time
    ensures Insert(q, e) == q[..k] + [e] + q[k..]
  {
    k := 0;
    while k < |q| && q[k].time <= e.time
      invariant k <= |q|
      invariant forall i | 0 <= i < k :: q[i].time <= e.time
    {
      k := k + 1;
    }
    forall i | k <= i < |q| ensures q[i].time > e.time {
      assert i > k ==> Before(q[k], q[i]);
    }
    InsertAt(q, e, k);
  }

  /** Unlinking removes exactly the one entry of that event, wherever it is. */
  lemma {:induction false} RemoveAt<E>(q: seq<Entry<E>>, event: E, k: nat)
    requires k < |q| && q[k].event == event
    requires forall i | 0 <= i < k :: q[i].event != event
    ensures Remove(q, event) == q[..k] + q[k+1..]
  {
    if k > 0 {
      assert q[0].event != q[k].event;
      RemoveAt(q[1..], event, k - 1);
      assert q[..k] + q[k+1..] == [q[0]] + (q[1..][..k-1] + q[1..][k..]);
    }
  }

  lemma {:induction false} RemoveMissing<E>(q: seq<Entry<E>>, event: E)
    requires !IsPending(q, event)
    ensures Remove(q, event) == q
  {
    if q != [] {
      forall i | 0 <= i < |q[1..]| ensures q[1..][i].event != event {
        assert q[1..][i] == q[i + 1];
      }
      RemoveMissing(q[1..], event);
      assert q[0].event != event;
    }
  }

  lemma SpliceItems<E>(q: seq<E>, e: E, k: nat)
    requires k <= |q|
    ensures Items(q[..k] + [e] + q[k..]) == Items(q) + {e}
  {
    var r := q[..k] + [e] + q[k..];
    assert q == q[..k] + q[k..];
    forall x ensures x in r <==> x in q || x == e {
      assert x in r <==> x in q[..k] || x == e || x in q[k..];
    }
  }

  lemma StepAdd<E>(q: Queue<E>, event: E, time: nat)
    requires Valid(q) && !IsPending(q.entries, event) && q.now <= time
    ensures Valid(Add(q, event, time))
    ensures Items(Add(q, event, time).entries) == Items(q.entries) + {Entry(event, time, q.next)}
  {
    var e := Entry(event, time, q.next);
    var k := InsertPosition(q.entries, e);
    SpliceItems(q.entries, e, k);
    var r := q.entries[..k] + [e] + q.entries[k..];
    forall i, j | 0 <= i < j < |r| ensures Before(r[i], r[j]) && r[i].event != r[j].event {
      var i', j' := if i < k then i else i - 1, if j < k then j else j - 1;
      if i != k && j != k {
        assert r[i] == q.entries[i'] && r[j] == q.entries[j'];
      } else if i == k {
        assert r[i] == e && r[j] == q.entries[j'];
      } else {
        assert r[j] == e && r[i] == q.entries[i'];
      }
    }
    forall i | 0 <= i < |r| ensures q.now <= r[i].time && r[i].stamp < q.next + 1 {
      assert i != k ==> r[i] == q.entries[if i < k then i else i - 1];
    }
  }

  lemma CutItems<E>(q: seq<Entry<E>>, event: E, k: nat)
    requires Distinct(q) && k < |q| && q[k].event == event
    ensures Items(q[..k] + q[k+1..]) == set x | x in q && x.event != event
  {
    var r := q[..k] + q[k+1..];
    assert q == q[..k] + [q[k]] + q[k+1..];
    forall x ensures x in r <==> x in q && x.event != event {
      if x in q[..k] {
        var i :| 0 <= i < k && q[i] == x;
      }
      if x in q[k+1..] {
        var i :| 0 <= i < |q[k+1..]| && q[k+1..][i] == x;
        assert q[k + 1 + i] == x;
      }
    }
  }

  lemma CutValid<E>(q: Queue<E>, k: nat)
    requires Valid(q) && k < |q.entries|
    ensures Valid(q.(entries := q.entries[..k] + q.entries[k+1..]))
  {
    var r := q.entries[..k] + q.entries[k+1..];
    forall i | 0 <= i < |r| ensures r[i] == q.entries[if i < k then i else i + 1] {}
  }

  lemma StepCancel<E>(q: Queue<E>, event: E)
    requires Valid(q)
    ensures Valid(Step(q, Cancel(event)))
    ensures Items(Remove(q.entries, event)) == set x | x in q.entries && x.event != event
  {
    if IsPending(q.entries, event) {
      var k :| 0 <= k < |q.entries| && q.entries[k].event == event;
      RemoveAt(q.entries, event, k);
      CutItems(q.entries, event, k);
      CutValid(q, k);
    } else {
      RemoveMissing(q.entries, event);
      assert forall x | x in q.entries :: x.event != event;
    }
  }

  /** Every step of the list is a step of the stable priority queue, keeps the list well formed and
      never turns time back. */
  lemma StepRefines<E>(q: Queue<E>, op: Op<E>)
    requires Valid(q) && Enabled(q, op)
    ensures Valid(Step(q, op))
    ensures q.now <= Step(q, op).now
    ensures !op.Clock? ==> ToBag(Step(q, op)) == BagUpdate(ToBag(q), op)
    ensures op.Clock? ==> IsFirst(q.entries[0], Items(q.entries)) && ToBag(Step(q, op)) == BagFire(ToBag(q), q.entries[0])
  {
    match op
    case Schedule(e, cycles) => StepAdd(q, e, PlainTime(q.now, cycles));
    case SchedulePhased(e, cycles, phase) => StepAdd(q, e, PhasedTime(q.now, cycles, phase));
    case Cancel(e) => StepCancel(q, e);
    case Clock =>
      var m := q.entries[0];
      assert IsFirst(m, Items(q.entries));
      assert q.entries == [m] + q.entries[1..];
      assert Items(q.entries[1..]) == Items(q.entries) - {m};
  }

  /** A run of the list: every operation is enabled where it is issued. */
  ghost predicate IsRun<E>(q: Queue<E>, ops: seq<Op<E>>)
    decreases |ops|
  {
    ops == [] || (Enabled(q, ops[0]) && IsRun(Step(q, ops[0]), ops[1..]))
  }

  ghost function Run<E>(q: Queue<E>, ops: seq<Op<E>>): (Queue<E>, seq<E>)
    requires IsRun(q, ops)
    decreases |ops|
  {
    if ops == [] then (q, [])
    else
      var (q', fired) := Run(Step(q, ops[0]), ops[1..]);
      (q', (if ops[0].Clock? then [q.entries[0].event] else []) + fired)
  }

  /** What the reference allows: the events it may fire, in order, and where it may end. */
  ghost predicate BagRun<E>(b: Bag<E>, ops: seq<Op<E>>, fired: seq<E>, end: Bag<E>)
    decreases |ops|
  {
    if ops == [] then fired == [] && end == b
    else if ops[0].Clock? then
      exists m | m in b.items :: IsFirst(m, b.items) && fired != [] && fired[0] == m.event &&
                                 BagRun(BagFire(b, m), ops[1..], fired[1..], end)
    else
      BagRun(BagUpdate(b, ops[0]), ops[1..], fired, end)
  }

  /** Under any mix of schedule, cancel and clock the linked list fires the events the stable priority
      queue fires, in the same order. */
  lemma {:induction false} RunRefinesPriorityQueue<E>(q: Queue<E>, ops: seq<Op<E>>)
    requires Valid(q) && IsRun(q, ops)
    ensures var (q', fired) := Run(q, ops);
            Valid(q') && q.now <= q'.now && BagRun(ToBag(q), ops, fired, ToBag(q'))
    decreases |ops|
  {
    if ops != [] {
      StepRefines(q, ops[0]);
      RunRefinesPriorityQueue(Step(q, ops[0]), ops[1..]);
      var (q', rest) := Run(Step(q, ops[0]), ops[1..]);
      if ops[0].Clock? {
        assert ([q.entries[0].event] + rest)[1..] == rest;
      } else {
        assert [] + rest == rest;
      }
    }
  }

  /** The reference leaves no choice: a set of pending entries has at most one first entry. */
  lemma FirstIsUnique<E>(a: Entry<E>, b: Entry<E>, items: set<Entry<E>>)
    requires IsFirst(a, items) && IsFirst(b, items)
    ensures a == b
  {
    assert a != b ==> Before(a, b) && Before(b, a);
  }
}
