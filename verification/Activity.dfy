/**
  `ActivityTracker` of pbxsense_agent/pulse.py: phone recoveries, cleared queues and calm busy
  periods.  As in `Availability`, the class carries the history of its snapshots, and its fields
  are tied to functions of that history.
 */
module Activity {
  import opened Common
  import opened PhoneHistory

  datatype Queue = Queue(name: string, waiting: int)

  /** One snapshot reduced to what the tracker compares. */
  datatype Moment = Moment(phones: Snapshot, queues: map<string, nat>, abandonments: set<string>)

  datatype Event =
    | QueueCleared(queue: string, at: int)
    | CalmBusyPeriod(queue: string, at: int)
    | PhonesRecovered(phones: set<string>, all: bool, at: int)

  // ---------------------------------------------------------------- moments

  function PhonesOf(endpoints: seq<Endpoint>): (phones: map<string, bool>)
    ensures forall p :: p in phones <==> exists e :: e in endpoints && e.role != "trunk" && e.extension == p
    ensures forall p :: p in phones ==>
              (phones[p] <==> exists e :: e in endpoints && e.role != "trunk" && e.extension == p && e.unavailable)
  {
    if endpoints == [] then map[]
    else
      var e := endpoints[|endpoints| - 1];
      var before := PhonesOf(endpoints[..|endpoints| - 1]);
      if e.role == "trunk" then before
      else before[e.extension := e.unavailable || Get(before, e.extension) == Some(true)]
  }

  function QueuesOf(queues: seq<Queue>): map<string, nat> {
    if queues == [] then map[]
    else
      var q := queues[|queues| - 1];
      var before := QueuesOf(queues[..|queues| - 1]);
      var waiting := if q.waiting < 0 then 0 else q.waiting;
      before[q.name := if waiting < Get(before, q.name).GetOr(0) then before[q.name] else waiting]
  }

  ghost predicate CallersWait(queues: seq<Queue>, name: string) {
    exists q :: q in queues && q.name == name && q.waiting > 0
  }

  /** Of several entries of one queue the longest counts; a negative one counts as empty. */
  lemma {:induction false} QueuesOfMeaning(queues: seq<Queue>, name: string)
    ensures name in QueuesOf(queues) <==> exists q :: q in queues && q.name == name
    ensures forall q :: q in queues && q.name == name ==> QueuesOf(queues)[name] >= q.waiting
    ensures name in QueuesOf(queues) && QueuesOf(queues)[name] > 0 ==>
              exists q :: q in queues && q.name == name && q.waiting == QueuesOf(queues)[name]
  {
    if queues != [] {
      QueuesOfMeaning(queues[..|queues| - 1], name);
      assert queues == queues[..|queues| - 1] + [queues[|queues| - 1]];
    }
  }

  function MomentOf(reachable: bool, endpoints: seq<Endpoint>, queues: seq<Queue>,
                    abandonments: set<string>, now: int): Moment
  {
    Moment(Snapshot(reachable, PhonesOf(endpoints), now), QueuesOf(queues), abandonments)
  }

  function Waiting(m: Moment, queue: string): nat {
    Get(m.queues, queue).GetOr(0)
  }

  function Unavailable(m: Moment): set<string> {
    set p | p in m.phones.phones && m.phones.phones[p]
  }

  // ---------------------------------------------------------------- history functions

  function Phones(h: seq<Moment>): (phones: History)
    ensures |phones| == |h| && forall i :: 0 <= i < |h| ==> phones[i] == h[i].phones
  {
    seq(|h|, i requires 0 <= i < |h| => h[i].phones)
  }

  /** Of the confirmed outages and the confirmed recoveries of the phone, the latest is an outage. */
  function Outstanding(h: History, phone: string, outage: int, recovery: int): bool {
    h != []
    && (Confirmed(h, phone, true, outage)
        || (!Confirmed(h, phone, false, recovery) && Outstanding(h[..|h| - 1], phone, outage, recovery)))
  }

  /** The last snapshot is the one that ends an outstanding outage. */
  predicate Recovers(h: History, phone: string, outage: int, recovery: int) {
    Confirmed(h, phone, false, recovery) && Outstanding(h[..|h| - 1], phone, outage, recovery)
  }

  predicate Enters(h: History, phone: string, outage: int, recovery: int) {
    Confirmed(h, phone, true, outage) && !Outstanding(h[..|h| - 1], phone, outage, recovery)
  }

  function Recoveries(h: History, phone: string, outage: int, recovery: int): nat {
    if h == [] then 0
    else Recoveries(h[..|h| - 1], phone, outage, recovery) + (if Recovers(h, phone, outage, recovery) then 1 else 0)
  }

  function Entries(h: History, phone: string, outage: int, recovery: int): nat {
    if h == [] then 0
    else Entries(h[..|h| - 1], phone, outage, recovery) + (if Enters(h, phone, outage, recovery) then 1 else 0)
  }

  /** Every report answers one outage: outages entered minus recoveries reported is the outstanding one. */
  lemma {:induction false} RecoveryAccounting(h: History, phone: string, outage: int, recovery: int)
    ensures Entries(h, phone, outage, recovery) - Recoveries(h, phone, outage, recovery)
         == if Outstanding(h, phone, outage, recovery) then 1 else 0
  {
    if h != [] {
      RecoveryAccounting(h[..|h| - 1], phone, outage, recovery);
    }
  }

  /** The first i snapshots confirm an outage, and no longer prefix confirms a recovery. */
  ghost predicate OutageSince(h: History, i: nat, phone: string, outage: int, recovery: int) {
    && 0 < i <= |h| && Confirmed(h[..i], phone, true, outage)
    && forall j :: i < j <= |h| ==> !Confirmed(h[..j], phone, false, recovery)
  }

  /** The latest confirmation decides. */
  lemma {:induction false} OutstandingMeaning(h: History, phone: string, outage: int, recovery: int)
    ensures Outstanding(h, phone, outage, recovery) <==> exists i: nat :: OutageSince(h, i, phone, outage, recovery)
  {
    if h != [] {
      OutstandingMeaning(h[..|h| - 1], phone, outage, recovery);
      OutageSinceStep(h, phone, outage, recovery);
      if Confirmed(h, phone, true, outage) {
        assert OutageSince(h, |h|, phone, outage, recovery);
      } else if Outstanding(h, phone, outage, recovery) {
        var i: nat :| OutageSince(h[..|h| - 1], i, phone, outage, recovery);
        assert OutageSince(h, i, phone, outage, recovery);
      }
    }
  }

  lemma OutageSinceStep(h: History, phone: string, outage: int, recovery: int)
    requires h != []
    ensures OutageSince(h, |h|, phone, outage, recovery) <==> Confirmed(h, phone, true, outage)
    ensures forall i: nat :: i < |h| ==>
              (OutageSince(h, i, phone, outage, recovery)
               <==> OutageSince(h[..|h| - 1], i, phone, outage, recovery) && !Confirmed(h, phone, false, recovery))
  {
    var before := h[..|h| - 1];
    assert h[..|h|] == h;
    assert forall i :: 0 <= i <= |before| ==> h[..i] == before[..i];
  }

  /** The abandonment keys at the first moment since the queue was last empty that had two callers waiting. */
  function Baseline(h: seq<Moment>, queue: string): Option<set<string>> {
    if h == [] then None
    else
      var before, last := h[..|h| - 1], h[|h| - 1];
      if !last.phones.reachable then Baseline(before, queue)
      else if Waiting(last, queue) == 0 then None
      else if Baseline(before, queue).Some? then Baseline(before, queue)
      else if Waiting(last, queue) >= 2 then Some(last.abandonments)
      else None
  }

  predicate Waits(m: Moment, queue: string, callers: nat) {
    m.phones.reachable && Waiting(m, queue) >= callers
  }

  /** Moment i is the first with two waiting callers since the queue was last empty. */
  ghost predicate FirstBusy(h: seq<Moment>, i: nat, queue: string) {
    && i < |h| && Waits(h[i], queue, 2)
    && (forall k :: i <= k < |h| && h[k].phones.reachable ==> Waits(h[k], queue, 1))
    && (forall j :: 0 <= j < i && Waits(h[j], queue, 2) ==>
          exists k :: j < k < i && h[k].phones.reachable && !Waits(h[k], queue, 1))
  }

  /** Moment j had two callers waiting, and the queue has not been empty since. */
  ghost predicate BusySince(h: seq<Moment>, j: nat, queue: string) {
    && j < |h| && Waits(h[j], queue, 2)
    && forall k :: j < k < |h| && h[k].phones.reachable ==> Waits(h[k], queue, 1)
  }

  ghost predicate NotBusy(h: seq<Moment>, queue: string) {
    forall j: nat :: !BusySince(h, j, queue)
  }

  /** The baseline is the abandonment keys of the first busy moment, and none if there is no such moment. */
  ghost predicate BaselineIsFirstBusy(h: seq<Moment>, queue: string) {
    && (forall i: nat :: FirstBusy(h, i, queue) ==> Baseline(h, queue) == Some(h[i].abandonments))
    && (Baseline(h, queue).Some? ==> exists i: nat :: FirstBusy(h, i, queue))
    && (Baseline(h, queue).None? ==> NotBusy(h, queue))
  }

  lemma {:induction false} BaselineMeaning(h: seq<Moment>, queue: string)
    ensures BaselineIsFirstBusy(h, queue)
  {
    if h != [] {
      BaselineMeaning(h[..|h| - 1], queue);
      BaselineMeaningStep(h, queue);
    }
  }

  lemma BaselineMeaningStep(h: seq<Moment>, queue: string)
    requires h != [] && BaselineIsFirstBusy(h[..|h| - 1], queue)
    ensures BaselineIsFirstBusy(h, queue)
  {
    hide FirstBusy, BusySince;
    var before, last := h[..|h| - 1], h[|h| - 1];
    assert forall k :: 0 <= k < |before| ==> h[k] == before[k];
    FirstBusyStep(h, queue);
    BusySinceStep(h, queue);
    FirstBusyIsBusy(before, queue);
    FirstBusyIsBusy(h, queue);
    if last.phones.reachable && !Waits(last, queue, 1) {
      assert Baseline(h, queue).None?;
    } else if Baseline(before, queue).Some? {
      var i: nat :| FirstBusy(before, i, queue);
      assert FirstBusy(h, i, queue);
      assert Baseline(h, queue) == Baseline(before, queue);
    } else {
      assert FirstBusy(h, |before|, queue) <==> Waits(last, queue, 2);
      assert Baseline(h, queue) == if Waits(last, queue, 2) then Some(last.abandonments) else None;
    }
  }

  lemma FirstBusyIsBusy(h: seq<Moment>, queue: string)
    ensures forall i: nat :: FirstBusy(h, i, queue) ==> i < |h| && BusySince(h, i, queue)
  {
  }

  lemma BusySinceStep(h: seq<Moment>, queue: string)
    requires h != []
    ensures forall j: nat :: BusySince(h, j, queue) ==> j < |h|
    ensures forall j: nat :: j < |h| - 1 ==>
              (BusySince(h, j, queue) <==> BusySince(h[..|h| - 1], j, queue)
                                           && (h[|h| - 1].phones.reachable ==> Waits(h[|h| - 1], queue, 1)))
    ensures BusySince(h, |h| - 1, queue) <==> Waits(h[|h| - 1], queue, 2)
  {
    var before := h[..|h| - 1];
    assert forall i :: 0 <= i < |before| ==> h[i] == before[i];
  }

  /** How one more moment changes the first busy one. */
  lemma FirstBusyStep(h: seq<Moment>, queue: string)
    requires h != []
    ensures forall i: nat :: i < |h| - 1 ==>
              (FirstBusy(h, i, queue) <==> FirstBusy(h[..|h| - 1], i, queue)
                                           && (h[|h| - 1].phones.reachable ==> Waits(h[|h| - 1], queue, 1)))
    ensures FirstBusy(h, |h| - 1, queue) <==>
              Waits(h[|h| - 1], queue, 2) && NotBusy(h[..|h| - 1], queue)
  {
    var before := h[..|h| - 1];
    assert forall i :: 0 <= i < |before| ==> h[i] == before[i];
    if FirstBusy(h, |h| - 1, queue) {
      forall j: nat | j < |before| ensures !BusySince(before, j, queue) {
        if Waits(h[j], queue, 2) {
          var k :| j < k < |before| && h[k].phones.reachable && !Waits(h[k], queue, 1);
          assert before[k] == h[k];
        }
      }
    } else if Waits(h[|h| - 1], queue, 2) {
      var j :| 0 <= j < |before| && Waits(h[j], queue, 2)
               && !exists k :: j < k < |before| && h[k].phones.reachable && !Waits(h[k], queue, 1);
      assert BusySince(before, j, queue);
    }
  }

  // ---------------------------------------------------------------- retention

  /** Whether the PBX state the event describes still holds. */
  predicate StillCurrent(e: Event, m: Moment) {
    match e
    case QueueCleared(queue, _) => Waiting(m, queue) == 0
    case CalmBusyPeriod(_, _) => true
    case PhonesRecovered(phones, all, _) => if all then Unavailable(m) == {} else phones !! Unavailable(m)
  }

  /** An entry of the snapshot speaks against the event: callers wait in its queue, or one of its phones,
      or any phone if all were reported, is unavailable. */
  ghost predicate Contradicted(e: Event, endpoints: seq<Endpoint>, queues: seq<Queue>) {
    match e
    case QueueCleared(queue, _) => CallersWait(queues, queue)
    case CalmBusyPeriod(_, _) => false
    case PhonesRecovered(phones, all, _) =>
      exists p :: p in endpoints && p.role != "trunk" && p.unavailable && (all || p.extension in phones)
  }

  lemma StillCurrentMeaning(e: Event, endpoints: seq<Endpoint>, queues: seq<Queue>, abandonments: set<string>,
                            now: int)
    ensures StillCurrent(e, MomentOf(true, endpoints, queues, abandonments, now))
       <==> !Contradicted(e, endpoints, queues)
  {
    match e
    case QueueCleared(queue, _) => QueuesOfMeaning(queues, queue);
    case CalmBusyPeriod(_, _) =>
    case PhonesRecovered(phones, all, _) =>
      var down := Unavailable(MomentOf(true, endpoints, queues, abandonments, now));
      assert forall p :: p in endpoints && p.role != "trunk" && p.unavailable ==> p.extension in down;
      if !StillCurrent(e, MomentOf(true, endpoints, queues, abandonments, now)) {
        var x :| x in down && (all || x in phones);
        assert exists p :: p in endpoints && p.role != "trunk" && p.extension == x && p.unavailable;
      }
  }

  function CurrentAt(m: Moment): Event -> bool { (e: Event) => StillCurrent(e, m) }

  function NotBefore(cutoff: int): Event -> bool { (e: Event) => e.at >= cutoff }

  /** What a moment leaves of the events before it and the new ones. */
  function Current(m: Moment, events: seq<Event>, news: seq<Event>): seq<Event> {
    if m.phones.reachable then Filter(CurrentAt(m), events + news) else events
  }

  function InWindow(cutoff: int, events: seq<Event>): seq<Event> {
    Filter(NotBefore(cutoff), events)
  }

  lemma WhatIsKept(reachable: bool, endpoints: seq<Endpoint>, queues: seq<Queue>, abandonments: set<string>, now: int,
                   keepFor: nat, events: seq<Event>, news: seq<Event>)
    requires !reachable ==> news == []
    ensures var m := MomentOf(reachable, endpoints, queues, abandonments, now);
            forall e :: e in InWindow(now - keepFor, Current(m, events, news)) <==>
              && (e in events || e in news) && e.at >= now - keepFor
              && (reachable ==> !Contradicted(e, endpoints, queues))
  {
    var m := MomentOf(reachable, endpoints, queues, abandonments, now);
    FilterMembers(NotBefore(now - keepFor), Current(m, events, news));
    FilterMembers(CurrentAt(m), events + news);
    assert m.phones.reachable == reachable;
    hide StillCurrent, Contradicted, MomentOf;
    forall e ensures reachable ==> (CurrentAt(m)(e) <==> !Contradicted(e, endpoints, queues)) {
      StillCurrentMeaning(e, endpoints, queues, abandonments, now);
    }
  }

  predicate InTimeOrder(events: seq<Event>) {
    forall i, j :: 0 <= i < j < |events| ==> events[i].at <= events[j].at
  }

  lemma {:induction false} FilterKeepsOrder(p: Event -> bool, events: seq<Event>)
    requires InTimeOrder(events)
    ensures InTimeOrder(Filter(p, events))
  {
    if events != [] {
      var front := events[..|events| - 1];
      FilterKeepsOrder(p, front);
      FilterMembers(p, front);
      assert forall e :: e in front ==> e.at <= events[|events| - 1].at;
      var kept := Filter(p, front);
      assert forall i :: 0 <= i < |kept| ==> kept[i] in front;
    }
  }

  function Reversed(events: seq<Event>): (r: seq<Event>)
    ensures |r| == |events| && forall i :: 0 <= i < |r| ==> r[i] == events[|events| - 1 - i]
  {
    seq(|events|, i requires 0 <= i < |events| => events[|events| - 1 - i])
  }

  // ---------------------------------------------------------------- the class

  class ActivityTracker {
    const keepFor: nat
    const outage: int
    const recovery: int
    var previous: Option<Moment>
    var events: seq<Event>
    var reported: map<string, int>
    var outstanding: set<string>
    var outageStartedAt: map<string, int>
    var recoveryStartedAt: map<string, int>
    var busyQueues: map<string, set<string>>
    ghost var history: seq<Moment>

    constructor (keepFor: nat, outage: int, recovery: int)
      ensures Valid() && history == []
      ensures this.keepFor == keepFor && this.outage == outage && this.recovery == recovery
    {
      this.keepFor, this.outage, this.recovery := keepFor, outage, recovery;
      previous, events, reported, outstanding := None, [], map[], {};
      outageStartedAt, recoveryStartedAt, busyQueues := map[], map[], map[];
      history := [];
    }

    ghost predicate Valid()
      reads this
    {
      && Ordered(Phones(history))
      && PhonesTracked(Phones(history))
      && QueuesTracked(history)
      && EventsKept(history)
      && reported.Keys !! outstanding
    }

    /** The phone fields are functions of the history. */
    ghost predicate PhonesTracked(h: History)
      reads this`previous, this`outstanding, this`outageStartedAt, this`recoveryStartedAt
    {
      && (forall p :: Get(outageStartedAt, p) == RunStart(h, p, true))
      && (forall p :: p in outstanding <==> Outstanding(h, p, outage, recovery))
      && (forall p :: Get(recoveryStartedAt, p) == if p in outstanding then RunStart(h, p, false) else None)
      && (previous.None? ==> outstanding == {})
    }

    /** A busy queue is recorded with its baseline, at the latest one reachable snapshot after it got busy. */
    ghost predicate QueuesTracked(h: seq<Moment>)
      reads this`previous, this`busyQueues
    {
      && previous == LastReachable(h)
      && forall q :: Get(busyQueues, q) == Baseline(h, q)
                     || (q !in busyQueues && previous.Some? && Waiting(previous.value, q) >= 2
                         && Baseline(h, q) == Some(previous.value.abandonments))
    }

    /** Retained events are in order, inside the window, and true of the last reachable snapshot. */
    ghost predicate EventsKept(h: seq<Moment>)
      reads this`previous, this`events
    {
      && InTimeOrder(events)
      && (h == [] ==> events == [])
      && (forall e :: e in events ==>
            && h[|h| - 1].phones.now - keepFor <= e.at <= h[|h| - 1].phones.now
            && previous.Some? && StillCurrent(e, previous.value))
    }

    /** `news` reports what this moment ends: all phones that recover in one event, every queue
        that empties, and the calm busy periods among them. */
    ghost predicate Reports(news: seq<Event>, before: seq<Moment>, m: Moment) {
      var h := before + [m];
      && (forall e :: e in news ==> e.at == m.phones.now)
      && (forall q :: QueueCleared(q, m.phones.now) in news <==> Cleared(before, m, q))
      && (forall q :: CalmBusyPeriod(q, m.phones.now) in news <==>
            Cleared(before, m, q) && Baseline(before, q) == Some(m.abandonments))
      && (forall e :: e in news && e.PhonesRecovered? <==> PhoneReport(Phones(h), e))
    }

    function RecoveredBy(h: History): set<string>
      requires h != []
    {
      set p | p in h[|h| - 1].phones && Recovers(h, p, outage, recovery)
    }

    /** The one event about phones: it names exactly the phones recovered by the last snapshot, and
        says "all" exactly if no phone is outstanding any more, whatever the snapshot lists. */
    ghost predicate PhoneReport(h: History, e: Event) {
      && h != [] && e.PhonesRecovered?
      && e.phones == RecoveredBy(h) != {}
      && (e.all <==> forall p :: !Outstanding(h, p, outage, recovery))
      && e.at == h[|h| - 1].now
    }

    /** The snapshot is reduced to a moment; `news` and `current` are those of `ObserveMoment`.  Of the
        events there were and the new ones, exactly those are returned that are recent enough and that
        nothing in a reachable snapshot contradicts. */
    method Observe(reachable: bool, endpoints: seq<Endpoint>, queues: seq<Queue>, abandonments: set<string>, now: int)
      returns (result: seq<Event>, ghost news: seq<Event>, ghost current: seq<Event>)
      requires Valid() && (history != [] ==> history[|history| - 1].phones.now <= now)
      modifies this
      ensures var m := MomentOf(reachable, endpoints, queues, abandonments, now);
              && Valid() && history == old(history) + [m]
              && result == Reversed(events)
              && (if reachable then Reports(news, old(history), m) else news == [])
              && current == Current(m, old(events), news)
              && events == InWindow(now - keepFor, current)
      ensures forall e :: e in result <==>
                && (e in old(events) || e in news) && e.at >= now - keepFor
                && (reachable ==> !Contradicted(e, endpoints, queues))
    {
      hide Valid, Reports, Current, InWindow;
      result, news, current := ObserveMoment(MomentOf(reachable, endpoints, queues, abandonments, now));
      WhatIsKept(reachable, endpoints, queues, abandonments, now, keepFor, old(events), news);
      assert forall i :: 0 <= i < |events| ==> events[i] == result[|events| - 1 - i];
    }

    /** `news` is what this moment adds and `current` what is left once events that no longer hold
        are dropped; then the window is applied. */
    method ObserveMoment(m: Moment) returns (result: seq<Event>, ghost news: seq<Event>, ghost current: seq<Event>)
      requires Valid() && (history != [] ==> history[|history| - 1].phones.now <= m.phones.now)
      modifies this
      ensures Valid() && history == old(history) + [m]
      ensures result == Reversed(events)
      ensures if m.phones.reachable then Reports(news, old(history), m) else news == []
      ensures current == Current(m, old(events), news)
      ensures events == InWindow(m.phones.now - keepFor, current)
    {
      hide Filter, PhonesTracked, QueuesTracked, Reports, Current, InWindow;
      PhonesAppend(history, m);
      OrderedAppend(Phones(history), m.phones);
      news := Advance(m, history);
      current := events;
      result := DropOld(m.phones.now - keepFor);
      history := history + [m];
    }

    /** Everything but the time window. */
    method Advance(m: Moment, ghost before: seq<Moment>) returns (ghost news: seq<Event>)
      requires before != [] ==> before[|before| - 1].phones.now <= m.phones.now
      requires PhonesTracked(Phones(before)) && QueuesTracked(before) && EventsKept(before)
      requires reported.Keys !! outstanding
      modifies this
      ensures history == old(history)
      ensures PhonesTracked(Phones(before) + [m.phones]) && QueuesTracked(before + [m])
      ensures reported.Keys !! outstanding
      ensures if m.phones.reachable then Reports(news, before, m) else news == []
      ensures events == Current(m, old(events), news)
      ensures InTimeOrder(events)
      ensures forall e :: e in events ==>
                e.at <= m.phones.now && previous.Some? && StillCurrent(e, previous.value)
    {
      news := [];
      if m.phones.reachable {
        news := ObserveReachable(m, before);
      } else {
        UnreachableKeepsTracking(before, m);
      }
    }

    method DropOld(cutoff: int) returns (result: seq<Event>)
      requires InTimeOrder(events)
      modifies this`events, this`reported
      ensures events == InWindow(cutoff, old(events)) && InTimeOrder(events) && result == Reversed(events)
      ensures forall e :: e in events ==> e in old(events) && e.at >= cutoff
      ensures reported.Keys <= old(reported.Keys)
    {
      FilterKeepsOrder(NotBefore(cutoff), events);
      FilterMembers(NotBefore(cutoff), events);
      events := Filter(NotBefore(cutoff), events);
      reported := map p | p in reported && reported[p] >= cutoff :: reported[p];
      result := Reversed(events);
    }

    /** Everything a reachable snapshot does before the time window is applied. */
    method ObserveReachable(m: Moment, ghost before: seq<Moment>) returns (news: seq<Event>)
      requires m.phones.reachable && (before != [] ==> before[|before| - 1].phones.now <= m.phones.now)
      requires PhonesTracked(Phones(before)) && QueuesTracked(before) && EventsKept(before)
      requires reported.Keys !! outstanding
      modifies this
      ensures history == old(history)
      ensures PhonesTracked(Phones(before) + [m.phones]) && QueuesTracked(before + [m])
      ensures previous == Some(m) && reported.Keys !! outstanding
      ensures Reports(news, before, m)
      ensures events == Filter(CurrentAt(m), old(events) + news)
      ensures InTimeOrder(events) && forall e :: e in events ==> e.at <= m.phones.now && StillCurrent(e, m)
    {
      PhonesAppend(before, m);
      UpdateOutages(m.phones, Phones(before));
      news := [];
      if previous.Some? {
        var queueEvents := RecordQueues(previous.value, m, before);
        var phoneEvents := RecordRecoveries(m.phones, Phones(before));
        news := queueEvents + phoneEvents;
      } else {
        NothingRecordedYet(before, m);
      }
      KeepCurrent(m, news);
      previous := Some(m);
    }

    method KeepCurrent(m: Moment, news: seq<Event>)
      requires InTimeOrder(events)
      requires forall e :: e in events ==> e.at <= m.phones.now
      requires forall e :: e in news ==> e.at == m.phones.now
      modifies this`events
      ensures events == Filter(CurrentAt(m), old(events) + news)
      ensures InTimeOrder(events) && forall e :: e in events ==> e.at <= m.phones.now && StillCurrent(e, m)
    {
      FilterKeepsOrder(CurrentAt(m), events + news);
      FilterMembers(CurrentAt(m), events + news);
      events := Filter(CurrentAt(m), events + news);
    }

    /** After the outage part: the current snapshot's outages are in, its recoveries are not. */
    ghost predicate OutagesUpdated(before: History, s: Snapshot)
      reads this`outstanding, this`outageStartedAt, this`recoveryStartedAt, this`reported
    {
      var h := before + [s];
      && (forall p :: Get(outageStartedAt, p) == RunStart(h, p, true))
      && (forall p :: p in outstanding <==>
            Confirmed(h, p, true, outage) || Outstanding(before, p, outage, recovery))
      && (forall p :: Get(recoveryStartedAt, p)
                      == if Outstanding(before, p, outage, recovery) && !Confirmed(h, p, true, outage)
                         then RunStart(before, p, false) else None)
      && reported.Keys !! outstanding
    }

    method UpdateOutages(s: Snapshot, ghost before: History)
      requires s.reachable && PhonesTracked(before) && reported.Keys !! outstanding
      modifies this`outageStartedAt, this`recoveryStartedAt, this`reported, this`outstanding
      ensures OutagesUpdated(before, s)
    {
      ghost var h := before + [s];
      forall p ensures OutageStep(before, s, p) {
        PhoneStep(before, s, p);
      }
      var unavailable := set p | p in s.phones && s.phones[p];
      outageStartedAt := map p | p in outageStartedAt && p in unavailable :: outageStartedAt[p];
      var todo := unavailable;
      while todo != {}
        invariant todo <= unavailable
        invariant forall p :: Get(outageStartedAt, p)
                              == if p in todo then RunStart(before, p, true) else RunStart(h, p, true)
        invariant forall p :: p in outstanding <==>
                    p in old(outstanding) || (p !in todo && Confirmed(h, p, true, outage))
        invariant forall p :: Get(recoveryStartedAt, p)
                              == if p !in todo && Confirmed(h, p, true, outage) then None
                                 else Get(old(recoveryStartedAt), p)
        invariant reported.Keys !! outstanding
      {
        var p :| p in todo;
        todo := todo - {p};
        assert OutageStep(before, s, p);
        UpdateOutage(p, s.now);
      }
    }

    ghost predicate OutageStep(before: History, s: Snapshot, p: string) {
      var h := before + [s];
      && RunStart(h, p, true) == (if Shows(s, p, true) then Some(RunStart(before, p, true).GetOr(s.now)) else None)
      && (Confirmed(h, p, true, outage) <==> Shows(s, p, true) && s.now - RunStart(h, p, true).value >= outage)
    }

    /** One unavailable phone; a confirmed fresh outage starts a new recovery episode. */
    method UpdateOutage(p: string, now: int)
      requires reported.Keys !! outstanding
      modifies this`outageStartedAt, this`recoveryStartedAt, this`reported, this`outstanding
      ensures outageStartedAt == old(outageStartedAt)[p := Get(old(outageStartedAt), p).GetOr(now)]
      ensures var confirmed := now - outageStartedAt[p] >= outage;
              && outstanding == old(outstanding) + (if confirmed then {p} else {})
              && recoveryStartedAt == old(recoveryStartedAt) - (if confirmed then {p} else {})
      ensures reported.Keys !! outstanding
    {
      if p !in outageStartedAt {
        outageStartedAt := outageStartedAt[p := now];
      }
      if now - outageStartedAt[p] >= outage {
        reported := reported - {p};
        recoveryStartedAt := recoveryStartedAt - {p};
        outstanding := outstanding + {p};
      }
    }

    method RecordRecoveries(s: Snapshot, ghost before: History) returns (news: seq<Event>)
      requires s.reachable && OutagesUpdated(before, s)
      modifies this`recoveryStartedAt, this`reported, this`outstanding
      ensures var h := before + [s];
              && (forall p :: p in outstanding <==> Outstanding(h, p, outage, recovery))
              && (forall p :: Get(recoveryStartedAt, p) == if p in outstanding then RunStart(h, p, false) else None)
              && reported.Keys !! outstanding
              && (forall e :: e in news <==> PhoneReport(h, e))
    {
      ghost var h := before + [s];
      var recovered := set p | p in outstanding && p in s.phones && !s.phones[p];
      recoveryStartedAt := map p | p in recovered :: Get(recoveryStartedAt, p).GetOr(s.now);
      var recoveredNow := set p | p in recovered && p !in reported && s.now - recoveryStartedAt[p] >= recovery;
      RecoveredNowMeaning(before, s, recovered, recoveredNow, old(recoveryStartedAt), recoveryStartedAt);
      news := [];
      if recoveredNow != {} {
        outstanding := outstanding - recoveredNow;
        recoveryStartedAt := recoveryStartedAt - recoveredNow;
        reported := reported + map p | p in recoveredNow :: s.now;
        news := [PhonesRecovered(recoveredNow, outstanding == {}, s.now)];
      }
    }

    lemma RecoveredNowMeaning(before: History, s: Snapshot, recovered: set<string>, recoveredNow: set<string>,
                              starts: map<string, int>, starts': map<string, int>)
      requires s.reachable
      requires forall p :: p in outstanding <==>
                 Confirmed(before + [s], p, true, outage) || Outstanding(before, p, outage, recovery)
      requires forall p :: Get(starts, p)
                           == if Outstanding(before, p, outage, recovery) && !Confirmed(before + [s], p, true, outage)
                              then RunStart(before, p, false) else None
      requires reported.Keys !! outstanding
      requires recovered == set p | p in outstanding && p in s.phones && !s.phones[p]
      requires starts' == map p | p in recovered :: Get(starts, p).GetOr(s.now)
      requires recoveredNow == set p | p in recovered && p !in reported && s.now - starts'[p] >= recovery
      ensures recoveredNow == RecoveredBy(before + [s])
      ensures forall p :: p in outstanding && p !in recoveredNow <==> Outstanding(before + [s], p, outage, recovery)
      ensures forall p :: Get(starts', p) == if p in outstanding then RunStart(before + [s], p, false) else None
    {
      forall p
        ensures p in recoveredNow <==> Recovers(before + [s], p, outage, recovery)
        ensures p in outstanding && p !in recoveredNow <==> Outstanding(before + [s], p, outage, recovery)
        ensures Get(starts', p) == if p in outstanding then RunStart(before + [s], p, false) else None
        ensures Recovers(before + [s], p, outage, recovery) ==> p in s.phones
      {
        PhoneStep(before, s, p);
      }
    }

    /** The history functions of one phone, unfolded by one reachable snapshot. */
    lemma PhoneStep(before: History, s: Snapshot, p: string)
      requires s.reachable
      ensures var h := before + [s];
              && (forall down :: RunStart(h, p, down)
                                 == if Shows(s, p, down) then Some(RunStart(before, p, down).GetOr(s.now)) else None)
              && (forall down, c :: Confirmed(h, p, down, c)
                                    <==> Shows(s, p, down) && s.now - RunStart(h, p, down).value >= c)
              && (Outstanding(h, p, outage, recovery)
                  <==> Confirmed(h, p, true, outage)
                       || (!Confirmed(h, p, false, recovery) && Outstanding(before, p, outage, recovery)))
              && (Recovers(h, p, outage, recovery)
                  <==> Confirmed(h, p, false, recovery) && Outstanding(before, p, outage, recovery))
    {
    }

    /** `setdefault` for every queue with two or more callers. */
    method MarkBusy(queues: map<string, nat>, keys: set<string>)
      modifies this`busyQueues
      ensures forall q :: Get(busyQueues, q)
                          == if q !in old(busyQueues) && Get(queues, q).GetOr(0) >= 2 then Some(keys)
                             else Get(old(busyQueues), q)
    {
      var todo := queues.Keys;
      while todo != {}
        invariant todo <= queues.Keys
        invariant forall q :: Get(busyQueues, q)
                              == if q !in old(busyQueues) && q !in todo && Get(queues, q).GetOr(0) >= 2 then Some(keys)
                                 else Get(old(busyQueues), q)
      {
        var q :| q in todo;
        todo := todo - {q};
        if queues[q] >= 2 && q !in busyQueues {
          busyQueues := busyQueues[q := keys];
        }
      }
    }

    method RecordQueues(prev: Moment, m: Moment, ghost before: seq<Moment>) returns (news: seq<Event>)
      requires m.phones.reachable && QueuesTracked(before) && previous == Some(prev)
      modifies this`busyQueues
      ensures forall q :: Get(busyQueues, q) == Baseline(before + [m], q)
      ensures forall e :: e in news ==> e.at == m.phones.now && !e.PhonesRecovered?
      ensures forall q :: QueueCleared(q, m.phones.now) in news <==> Cleared(before, m, q)
      ensures forall q :: CalmBusyPeriod(q, m.phones.now) in news <==>
                Cleared(before, m, q) && Baseline(before, q) == Some(m.abandonments)
    {
      assert (before + [m])[..|before|] == before;
      MarkBusy(prev.queues, prev.abandonments);
      forall q
        ensures Get(busyQueues, q) == Baseline(before, q) && (Baseline(before, q).Some? ==> Waiting(prev, q) > 0)
      {
        BaselineWaits(before, q);
      }
      MarkBusy(m.queues, m.abandonments);
      ghost var marked := busyQueues;
      news := ClearQueues(prev.queues, m);
      forall q ensures ClearedAs(q, Emptied(prev.queues, m, q), m, marked, busyQueues, news) {
        assert ClearedAs(q, q !in {} && Emptied(prev.queues, m, q), m, marked, busyQueues, news);
      }
      forall q
        ensures Get(busyQueues, q) == Baseline(before + [m], q)
        ensures QueueCleared(q, m.phones.now) in news <==> Cleared(before, m, q)
        ensures CalmBusyPeriod(q, m.phones.now) in news <==>
                  Cleared(before, m, q) && Baseline(before, q) == Some(m.abandonments)
      {
        assert ClearedAs(q, Emptied(prev.queues, m, q), m, marked, busyQueues, news);
      }
    }

    /** Report and forget the queues that had callers and have none. */
    method ClearQueues(previously: map<string, nat>, m: Moment) returns (news: seq<Event>)
      modifies this`busyQueues
      ensures ClearedBut({}, previously, m, old(busyQueues), busyQueues, news)
    {
      ghost var before := busyQueues;
      var todo := previously.Keys;
      news := [];
      hide ClearedBut;
      NoneCleared(previously, m, busyQueues);
      while todo != {}
        invariant todo <= previously.Keys && ClearedBut(todo, previously, m, before, busyQueues, news)
      {
        var q :| q in todo;
        ghost var busy, reported := busyQueues, news;
        if previously[q] > 0 && Waiting(m, q) == 0 {
          var more := ClearQueue(q, m);
          news := news + more;
        }
        OneMoreCleared(todo, previously, m, before, busy, reported, q);
        todo := todo - {q};
      }
    }

    method ClearQueue(q: string, m: Moment) returns (news: seq<Event>)
      modifies this`busyQueues
      ensures busyQueues == old(busyQueues) - {q}
      ensures news == Clearing(q, m, old(busyQueues))
    {
      news := [QueueCleared(q, m.phones.now)];
      if q in busyQueues && busyQueues[q] == m.abandonments {
        news := news + [CalmBusyPeriod(q, m.phones.now)];
      }
      busyQueues := busyQueues - {q};
    }

    lemma UnreachableKeepsTracking(before: seq<Moment>, m: Moment)
      requires !m.phones.reachable
      requires PhonesTracked(Phones(before)) && QueuesTracked(before)
      ensures PhonesTracked(Phones(before) + [m.phones]) && QueuesTracked(before + [m])
    {
    }

    /** The first reachable snapshot records no transition, and there is none to record. */
    lemma NothingRecordedYet(before: seq<Moment>, m: Moment)
      requires m.phones.reachable && previous.None? && QueuesTracked(before)
      requires OutagesUpdated(Phones(before), m.phones)
      requires forall p :: !Outstanding(Phones(before), p, outage, recovery)
      ensures forall q :: q !in busyQueues
      ensures forall q :: Baseline(before + [m], q) == if Waiting(m, q) >= 2 then Some(m.abandonments) else None
      ensures Reports([], before, m)
      ensures forall p :: Outstanding(Phones(before) + [m.phones], p, outage, recovery) <==> p in outstanding
      ensures forall p :: p in outstanding ==> RunStart(Phones(before) + [m.phones], p, false).None?
    {
      PhonesAppend(before, m);
      forall q ensures Baseline(before, q).None? {
        BaselineWaits(before, q);
      }
    }
  }

  /** A busy queue has callers waiting. */
  lemma {:induction false} BaselineWaits(h: seq<Moment>, queue: string)
    ensures Baseline(h, queue).Some? ==> LastReachable(h).Some? && Waiting(LastReachable(h).value, queue) > 0
    ensures LastReachable(h).Some? && Waiting(LastReachable(h).value, queue) >= 2 ==> Baseline(h, queue).Some?
  {
    if h != [] {
      BaselineWaits(h[..|h| - 1], queue);
    }
  }

  predicate Emptied(previously: map<string, nat>, m: Moment, queue: string) {
    Get(previously, queue).GetOr(0) > 0 && Waiting(m, queue) == 0
  }

  predicate Cleared(before: seq<Moment>, m: Moment, queue: string) {
    LastReachable(before).Some? && Emptied(LastReachable(before).value.queues, m, queue)
  }

  /** Snapshot i is the last reachable one. */
  predicate LastReachableAt(h: seq<Moment>, i: nat) {
    i < |h| && h[i].phones.reachable && forall j :: i < j < |h| ==> !h[j].phones.reachable
  }

  lemma {:induction false} LastReachableMeaning(h: seq<Moment>)
    ensures LastReachable(h).Some? ==> exists i: nat :: LastReachableAt(h, i) && LastReachable(h) == Some(h[i])
    ensures LastReachable(h).None? ==> forall i :: 0 <= i < |h| ==> !h[i].phones.reachable
  {
    if h != [] {
      var before := h[..|h| - 1];
      LastReachableMeaning(before);
      if h[|h| - 1].phones.reachable {
        assert LastReachableAt(h, |h| - 1);
      } else if LastReachable(before).Some? {
        var i: nat :| LastReachableAt(before, i) && LastReachable(before) == Some(before[i]);
        assert LastReachableAt(h, i);
      }
    }
  }

  /** A queue is reported as cleared exactly if callers waited in it at the last reachable snapshot before. */
  lemma ClearedMeaning(before: seq<Moment>, i: nat, m: Moment, earlier: seq<Queue>, queues: seq<Queue>, name: string)
    requires LastReachableAt(before, i) && before[i].queues == QueuesOf(earlier) && m.queues == QueuesOf(queues)
    ensures Cleared(before, m, name) <==> CallersWait(earlier, name) && !CallersWait(queues, name)
  {
    LastReachableMeaning(before);
    QueuesOfMeaning(earlier, name);
    QueuesOfMeaning(queues, name);
  }

  /** This queue is reported and forgotten, or neither. */
  ghost predicate ClearedAs(q: string, cleared: bool, m: Moment, before: map<string, set<string>>,
                            busy: map<string, set<string>>, news: seq<Event>)
  {
    && Get(busy, q) == (if cleared then None else Get(before, q))
    && (QueueCleared(q, m.phones.now) in news <==> cleared)
    && (CalmBusyPeriod(q, m.phones.now) in news <==> cleared && Get(before, q) == Some(m.abandonments))
  }

  /** Of the queues outside `todo` those that emptied are reported and forgotten, and no others. */
  ghost predicate ClearedBut(todo: set<string>, previously: map<string, nat>, m: Moment,
                             before: map<string, set<string>>, busy: map<string, set<string>>, news: seq<Event>)
  {
    && (forall e :: e in news ==> e.at == m.phones.now && !e.PhonesRecovered?)
    && forall q :: ClearedAs(q, q !in todo && Emptied(previously, m, q), m, before, busy, news)
  }

  lemma NoneCleared(previously: map<string, nat>, m: Moment, busy: map<string, set<string>>)
    ensures ClearedBut(previously.Keys, previously, m, busy, busy, [])
  {
  }

  lemma OneMoreCleared(todo: set<string>, previously: map<string, nat>, m: Moment, before: map<string, set<string>>,
                       busy: map<string, set<string>>, news: seq<Event>, q: string)
    requires q in todo && ClearedBut(todo, previously, m, before, busy, news)
    ensures !Emptied(previously, m, q) ==> ClearedBut(todo - {q}, previously, m, before, busy, news)
    ensures Emptied(previously, m, q) ==>
              ClearedBut(todo - {q}, previously, m, before, busy - {q}, news + Clearing(q, m, busy))
  {
    hide Emptied, ClearedAs;
    forall x ensures ClearedAs(x, x !in todo && Emptied(previously, m, x), m, before, busy, news) {
    }
    if Emptied(previously, m, q) {
      forall x ensures ClearedAs(x, x !in todo - {q} && Emptied(previously, m, x), m, before, busy - {q},
                                 news + Clearing(q, m, busy)) {
        ClearingMeaning(q, m, before, busy, news, x, x !in todo && Emptied(previously, m, x));
      }
    } else {
      assert forall x :: (x !in todo - {q} && Emptied(previously, m, x)) == (x !in todo && Emptied(previously, m, x));
    }
  }

  lemma ClearingMeaning(q: string, m: Moment, before: map<string, set<string>>, busy: map<string, set<string>>,
                        news: seq<Event>, x: string, cleared: bool)
    requires ClearedAs(x, cleared, m, before, busy, news) && (x == q ==> !cleared)
    ensures ClearedAs(x, cleared || x == q, m, before, busy - {q}, news + Clearing(q, m, busy))
  {
    assert forall e :: e in news + Clearing(q, m, busy) <==> e in news || e in Clearing(q, m, busy);
  }

  /** The events of a queue that empties. */
  function Clearing(q: string, m: Moment, busy: map<string, set<string>>): seq<Event> {
    [QueueCleared(q, m.phones.now)]
    + if Get(busy, q) == Some(m.abandonments) then [CalmBusyPeriod(q, m.phones.now)] else []
  }

  lemma OrderedAppend(h: History, s: Snapshot)
    requires Ordered(h) && (h != [] ==> h[|h| - 1].now <= s.now)
    ensures Ordered(h + [s])
  {
  }

  lemma PhonesAppend(h: seq<Moment>, m: Moment)
    ensures Phones(h + [m]) == Phones(h) + [m.phones]
    ensures Phones(h + [m])[..|h|] == Phones(h) && (h + [m])[..|h|] == h
  {
  }

  function LastReachable(h: seq<Moment>): Option<Moment> {
    if h == [] then None
    else if h[|h| - 1].phones.reachable then Some(h[|h| - 1])
    else LastReachable(h[..|h| - 1])
  }
}
