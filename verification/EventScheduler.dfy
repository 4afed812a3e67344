/**
 The intrusive linked list of pending events (src/EventScheduler.h, src/EventScheduler.cpp,
 src/Event.h), proved against the list on values in EventQueue.
 */
module Scheduling {
  import opened EventQueue

  class Event {
    var next: Event?
    var triggerTime: nat

    constructor ()
    {
      next, triggerTime := null, 0;
    }
  }

  lemma CutMembers<T>(s: seq<T>, k: nat)
    requires k < |s| && forall i, j | 0 <= i < j < |s| :: s[i] != s[j]
    ensures Items(s[..k] + s[k+1..]) == Items(s) - {s[k]}
  {
    assert s == s[..k] + [s[k]] + s[k+1..];
  }

  /** The chain of nodes holds these entries. */
  ghost predicate StandFor(ns: seq<Event>, entries: seq<Entry<Event>>)
    reads ns`triggerTime
  {
    |entries| == |ns| && forall i | 0 <= i < |ns| :: entries[i].event == ns[i] && entries[i].time == ns[i].triggerTime
  }

  lemma SpliceStandsFor(ns: seq<Event>, entries: seq<Entry<Event>>, event: Event, stamp: nat, i: nat)
    requires StandFor(ns, entries) && i <= |ns|
    ensures StandFor(ns[..i] + [event] + ns[i..], entries[..i] + [Entry(event, event.triggerTime, stamp)] + entries[i..])
  {
  }

  lemma CutStandsFor(ns: seq<Event>, entries: seq<Entry<Event>>, i: nat)
    requires StandFor(ns, entries) && i < |ns|
    ensures StandFor(ns[..i] + ns[i+1..], entries[..i] + entries[i+1..])
  {
  }

  /** What the chain has become where event k was put in a second time, in front of node i: the event is its own
      successor, or the events between the two places are cut off. */
  ghost predicate KnottedAt(event: Event, ns: seq<Event>, k: nat, i: nat)
    reads event`next
  {
    && k < i <= |ns| && ns[k] == event
    && event.next == if i == k + 1 then event else if i < |ns| then ns[i] else null
  }

  ghost predicate Knotted(event: Event, ns: seq<Event>)
    reads event`next
  {
    exists k, i :: KnottedAt(event, ns, k, i)
  }

  class EventScheduler {
    var firstEvent: Event?
    var currentTime: nat
    ghost var nodes: seq<Event>   // the events on the chain, in order
    ghost var queue: Queue<Event> // what they stand for

    /** The node at position i of the chain, or null past its end. */
    ghost function At(i: nat): Event?
      reads this
    {
      if i < |nodes| then nodes[i] else null
    }

    /** The events on the chain. */
    ghost function Chain(): set<Event>
      reads this
    {
      Items(nodes)
    }

    ghost predicate Linked()
      reads this, nodes
    {
      && firstEvent == At(0)
      && (forall i, j | 0 <= i < j < |nodes| :: nodes[i] != nodes[j] && (j == i + 1 ==> nodes[i].next == nodes[j]))
      && (nodes != [] ==> nodes[|nodes| - 1].next == null)
    }

    ghost predicate Valid()
      reads this, nodes
    {
      Linked() && StandFor(nodes, queue.entries) && currentTime == queue.now && EventQueue.Valid(queue)
    }

    constructor ()
      ensures Valid() && queue == Queue([], 0, 0)
    {
      firstEvent, currentTime, nodes, queue := null, 0, [], Queue([], 0, 0);
    }

    /** Walks the chain past every event that is due no later than the given time. */
    method FindSlot(time: nat) returns (prev: Event?, scan: Event?, ghost i: nat)
      requires Linked()
      ensures i <= |nodes| && scan == At(i)
      ensures if i == 0 then prev == null else prev == nodes[i - 1]
      ensures forall j | 0 <= j < i :: nodes[j].triggerTime <= time
      ensures i < |nodes| ==> nodes[i].triggerTime > time
    {
      prev, scan, i := null, firstEvent, 0;
      while scan != null && scan.triggerTime <= time
        invariant i <= |nodes| && scan == At(i)
        invariant if i == 0 then prev == null else prev == nodes[i - 1]
        invariant forall j | 0 <= j < i :: nodes[j].triggerTime <= time
        decreases |nodes| - i
      {
        assert scan.next == At(i + 1);
        prev, scan, i := scan, scan.next, i + 1;
      }
    }

    /** Walks the chain to the given event or past its end. */
    method FindEvent(event: Event) returns (prev: Event?, scan: Event?, ghost i: nat)
      requires Linked()
      ensures i <= |nodes| && scan == At(i)
      ensures if i == 0 then prev == null else prev == nodes[i - 1]
      ensures event !in nodes[..i] && (scan == null ==> i == |nodes|)
      ensures scan != null ==> scan == event
    {
      prev, scan, i := null, firstEvent, 0;
      while scan != null && scan != event
        invariant i <= |nodes| && scan == At(i)
        invariant if i == 0 then prev == null else prev == nodes[i - 1]
        invariant event !in nodes[..i]
        decreases |nodes| - i
      {
        assert scan.next == At(i + 1);
        prev, scan, i := scan, scan.next, i + 1;
      }
    }

    /** The writes that put the event between prev and scan. */
    method Splice(event: Event, prev: Event?, scan: Event?, ghost i: nat)
      requires Linked()
      requires i <= |nodes| && scan == At(i)
      requires if i == 0 then prev == null else prev == nodes[i - 1]
      modifies this`firstEvent, this`nodes, nodes`next, event`next
      ensures event !in old(nodes) ==> Linked() && nodes == old(nodes)[..i] + [event] + old(nodes)[i..]
      ensures event in old(nodes) ==> nodes == old(nodes) && event.next == if prev == event then event else scan
    {
      event.next := scan;
      if prev == null {
        firstEvent := event;
      } else {
        prev.next := event;
      }
      if event !in nodes {
        nodes := nodes[..i] + [event] + nodes[i..];
      }
    }

    /** The write that takes scan out of the chain. */
    method Unsplice(prev: Event?, scan: Event, ghost i: nat)
      requires Linked()
      requires i < |nodes| && scan == nodes[i]
      requires if i == 0 then prev == null else prev == nodes[i - 1]
      modifies this`firstEvent, this`nodes, nodes`next
      ensures Linked()
      ensures nodes == old(nodes)[..i] + old(nodes)[i+1..]
    {
      if prev == null {
        firstEvent := scan.next;
      } else {
        prev.next := scan.next;
      }
      nodes := nodes[..i] + nodes[i+1..];
    }

    /** The walk and the writes of an insertion; the caller does not say whether the event is queued already. */
    method LinkUnguarded(event: Event, ghost entries: seq<Entry<Event>>, ghost stamp: nat, ghost k: nat)
      requires Linked() && (event !in nodes ==> StandFor(nodes, entries))
      requires event in nodes ==> k < |nodes| && nodes[k] == event
      modifies this`firstEvent, this`nodes, nodes`next, event`next
      ensures event !in old(nodes) ==> Linked() && StandFor(nodes, Insert(entries, Entry(event, event.triggerTime, stamp)))
                                       && Chain() == old(Chain()) + {event}
      ensures event in old(nodes) && (forall j | 0 <= j <= k :: old(nodes)[j].triggerTime <= event.triggerTime) ==>
                Knotted(event, old(nodes))
    {
      hide Insert;
      var prev, scan, i := FindSlot(event.triggerTime);
      if event !in nodes {
        InsertAt(entries, Entry(event, event.triggerTime, stamp), i);
        SpliceItems(nodes, event, i);
        SpliceStandsFor(nodes, entries, event, stamp, i);
      }
      Splice(event, prev, scan, i);
      assert k < i && event in old(nodes) ==> KnottedAt(event, old(nodes), k, i);
    }

    /** Links the event in behind every event that is due no later. */
    method Link(event: Event, ghost entries: seq<Entry<Event>>, ghost stamp: nat)
      requires Linked() && StandFor(nodes, entries) && event !in nodes
      modifies this`firstEvent, this`nodes, nodes`next, event`next
      ensures Linked() && StandFor(nodes, Insert(entries, Entry(event, event.triggerTime, stamp)))
      ensures Chain() == old(Chain()) + {event}
    {
      LinkUnguarded(event, entries, stamp, 0);
    }

    /** Takes the event out of the chain if it is there. */
    method Unlink(event: Event, ghost entries: seq<Entry<Event>>)
      requires Linked() && StandFor(nodes, entries)
      modifies this`firstEvent, this`nodes, nodes`next
      ensures Linked() && StandFor(nodes, Remove(entries, event))
      ensures Chain() == old(Chain()) - {event}
    {
      hide Remove;
      var prev, scan, i := FindEvent(event);
      if scan != null {
        RemoveAt(entries, event, i);
        CutMembers(nodes, i);
        CutStandsFor(nodes, entries, i);
        Unsplice(prev, scan, i);
      } else {
        RemoveMissing(entries, event);
      }
    }

    /** Adds the event to the queue in the given phase. */
    method SchedulePhased(event: Event, cycles: nat, phase: Phase)
      requires Valid() && event !in Chain()
      modifies this`firstEvent, this`nodes, this`queue, Chain()`next, event
      ensures Valid() && queue == Add(old(queue), event, PhasedTime(currentTime, cycles, phase))
      ensures Chain() == old(Chain()) + {event}
      ensures event.triggerTime == PhasedTime(currentTime, cycles, phase)
    {
      hide EventQueue.Valid, Insert;
      event.triggerTime := PhasedTime(currentTime, cycles, phase);
      StepAdd(queue, event, event.triggerTime);
      Link(event, queue.entries, queue.next);
      queue := Add(queue, event, event.triggerTime);
    }

    /** The same without the caller's promise that the event is not queued yet. */
    method ScheduleUnguarded(event: Event, cycles: nat, phase: Phase)
      requires Valid()
      modifies this`firstEvent, this`nodes, this`queue, Chain()`next, event
      ensures event.triggerTime == PhasedTime(currentTime, cycles, phase)
      ensures event !in old(Chain()) ==>
                && Valid() && queue == Add(old(queue), event, event.triggerTime)
                && Chain() == old(Chain()) + {event}
      ensures event in old(Chain()) && old(event.triggerTime) <= event.triggerTime ==> Knotted(event, old(nodes))
    {
      hide EventQueue.Valid, Insert;
      ghost var k := if event in nodes then Position(event) else 0;
      if event in nodes {
        Earlier(k);
      } else {
        StepAdd(queue, event, PhasedTime(currentTime, cycles, phase));
      }
      event.triggerTime := PhasedTime(currentTime, cycles, phase);
      LinkUnguarded(event, queue.entries, queue.next, k);
      if event !in old(nodes) {
        queue := Add(queue, event, event.triggerTime);
      }
    }

    ghost function Position(event: Event): (k: nat)
      requires event in nodes
      reads this
      ensures k < |nodes| && nodes[k] == event
    {
      var k :| 0 <= k < |nodes| && nodes[k] == event;
      k
    }

    /** The nodes of the chain are in order of time. */
    lemma Earlier(k: nat)
      requires Valid() && k < |nodes|
      ensures forall j | 0 <= j <= k :: nodes[j].triggerTime <= nodes[k].triggerTime
    {
      forall j | 0 <= j < k ensures nodes[j].triggerTime <= nodes[k].triggerTime {
        assert Before(queue.entries[j], queue.entries[k]);
      }
    }

    /** Adds the event to the queue in the current phase. */
    method Schedule(event: Event, cycles: nat)
      requires Valid() && event !in Chain()
      modifies this`firstEvent, this`nodes, this`queue, Chain()`next, event
      ensures Valid() && queue == Add(old(queue), event, PlainTime(currentTime, cycles))
      ensures Chain() == old(Chain()) + {event}
      ensures event.triggerTime == PlainTime(currentTime, cycles)
    {
      hide EventQueue.Valid, Insert;
      event.triggerTime := PlainTime(currentTime, cycles);
      StepAdd(queue, event, event.triggerTime);
      Link(event, queue.entries, queue.next);
      queue := Add(queue, event, event.triggerTime);
    }

    /** Unlinks the event if it is pending. */
    method Cancel(event: Event)
      requires Valid()
      modifies this`firstEvent, this`nodes, this`queue, Chain()`next
      ensures Valid() && queue == Step(old(queue), EventQueue.Cancel(event))
      ensures Chain() == old(Chain()) - {event}
    {
      StepCancel(queue, event);
      Unlink(event, queue.entries);
      queue := Step(queue, EventQueue.Cancel(event));
    }

    /** Takes the first event from the chain and moves time to it; the caller runs its handler. */
    method Clock() returns (event: Event)
      requires Valid() && queue.entries != []
      modifies this
      ensures Valid() && queue == Step(old(queue), EventQueue.Clock)
      ensures event == old(nodes[0]) && currentTime == event.triggerTime
      ensures Chain() == old(Chain()) - {event}
    {
      StepRefines(queue, EventQueue.Clock);
      CutMembers(nodes, 0);
      event := firstEvent;
      firstEvent := firstEvent.next;
      currentTime := event.triggerTime;
      nodes := nodes[1..];
      queue := Step(queue, EventQueue.Clock);
    }

    method IsPending(event: Event) returns (pending: bool)
      requires Valid()
      ensures pending <==> event in Chain()
    {
      var prev, scan, i := FindEvent(event);
      pending := scan != null;
    }

    /** Forgets every pending event and restarts time. */
    method Reset()
      modifies this
      ensures Valid() && queue == Queue([], 0, 0)
    {
      firstEvent, currentTime, nodes, queue := null, 0, [], Queue([], 0, 0);
    }
  }
}
