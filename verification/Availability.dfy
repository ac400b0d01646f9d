/**
  `EndpointAvailabilitySignalTracker` of pbxsense_agent/pulse.py: a timed machine per endpoint that
  decides which outages are shown.  The class carries the history of its snapshots; its
  invariant ties every per-endpoint record to that history, so the result of `Observe` is a
  statement about the snapshots alone.
 */
module Availability {
  import opened Common
  import opened PhoneHistory

  datatype EndpointState = EndpointState(
    outageStartedAt: Option<int>, recoveryStartedAt: Option<int>,
    episodeNotified: bool, signalVisible: bool, notificationId: Option<NotificationId>)

  /** The occurrence token: the phone and the time, in the source's microseconds. */
  datatype NotificationId = NotificationId(extension: string, at: int)

  /** The dictionary by extension: of several entries the last one counts. */
  function LatestByExtension(endpoints: seq<Endpoint>, trunk: bool): map<string, bool> {
    if endpoints == [] then map[]
    else
      var e := endpoints[|endpoints| - 1];
      var before := LatestByExtension(endpoints[..|endpoints| - 1], trunk);
      if (e.role == "trunk") == trunk then before[e.extension := e.unavailable] else before
  }

  /** Entry k is the tracker's last one for the extension. */
  ghost predicate Decides(endpoints: seq<Endpoint>, k: nat, extension: string, trunk: bool) {
    && EntryAt(endpoints, k, extension, trunk)
    && forall j :: k < j < |endpoints| ==> !EntryAt(endpoints, j, extension, trunk)
  }

  /** Trunks are for the trunk tracker, all other roles for the phone tracker. */
  predicate EntryAt(endpoints: seq<Endpoint>, k: nat, extension: string, trunk: bool) {
    k < |endpoints| && endpoints[k].extension == extension && (endpoints[k].role == "trunk" <==> trunk)
  }

  lemma {:induction false} LatestByExtensionMeaning(endpoints: seq<Endpoint>, trunk: bool, extension: string)
    ensures extension in LatestByExtension(endpoints, trunk) <==> exists k: nat :: EntryAt(endpoints, k, extension, trunk)
    ensures forall k: nat :: Decides(endpoints, k, extension, trunk) ==>
              Get(LatestByExtension(endpoints, trunk), extension) == Some(endpoints[k].unavailable)
    ensures extension in LatestByExtension(endpoints, trunk) ==> exists k: nat :: Decides(endpoints, k, extension, trunk)
  {
    if endpoints != [] {
      var n := |endpoints| - 1;
      LatestByExtensionMeaning(endpoints[..n], trunk, extension);
      OneMoreEntry(endpoints, extension, trunk);
      hide Decides;
      if EntryAt(endpoints, n, extension, trunk) {
        assert Decides(endpoints, n, extension, trunk);
      } else if extension in LatestByExtension(endpoints[..n], trunk) {
        var k: nat :| Decides(endpoints[..n], k, extension, trunk);
        assert Decides(endpoints, k, extension, trunk);
      }
    }
  }

  lemma OneMoreEntry(endpoints: seq<Endpoint>, extension: string, trunk: bool)
    requires endpoints != []
    ensures var n := |endpoints| - 1;
            && (forall k: nat :: k < n ==>
                  EntryAt(endpoints, k, extension, trunk) == EntryAt(endpoints[..n], k, extension, trunk))
            && (forall k: nat :: Decides(endpoints, k, extension, trunk) ==> k <= n)
            && (forall k: nat :: k < n ==>
                  (Decides(endpoints, k, extension, trunk) <==>
                     Decides(endpoints[..n], k, extension, trunk) && !EntryAt(endpoints, n, extension, trunk)))
            && (Decides(endpoints, n, extension, trunk) <==> EntryAt(endpoints, n, extension, trunk))
            && (forall k: nat :: Decides(endpoints[..n], k, extension, trunk) ==> k < n)
  {
  }

  /** One call of `observe`. */
  datatype Observation = Observation(reachable: bool, endpoints: seq<Endpoint>, now: int)

  /** The observation lists the endpoint, and its last entry is unavailable. */
  ghost predicate ListsDown(o: Observation, extension: string, trunk: bool) {
    o.reachable && exists k: nat :: Decides(o.endpoints, k, extension, trunk) && o.endpoints[k].unavailable
  }

  /** From observation i on, every reachable one lists the endpoint as unavailable. */
  ghost predicate DownSince(seen: seq<Observation>, i: nat, extension: string, trunk: bool) {
    && i < |seen| && seen[i].reachable
    && forall j :: i <= j < |seen| && seen[j].reachable ==> ListsDown(seen[j], extension, trunk)
  }

  function SnapshotOf(o: Observation, trunk: bool): Snapshot {
    Snapshot(o.reachable, LatestByExtension(o.endpoints, trunk), o.now)
  }

  ghost predicate Reduces(h: History, seen: seq<Observation>, trunk: bool) {
    |h| == |seen| && forall i :: 0 <= i < |h| ==> h[i] == SnapshotOf(seen[i], trunk)
  }

  /** A confirmed outage, on the endpoint lists alone. */
  lemma ConfirmedOnLists(h: History, seen: seq<Observation>, extension: string, trunk: bool, confirmation: int)
    requires Ordered(h) && h != [] && Reduces(h, seen, trunk)
    ensures Confirmed(h, extension, true, confirmation)
       <==> seen[|seen| - 1].reachable
            && exists i: nat :: DownSince(seen, i, extension, trunk)
                                && seen[|seen| - 1].now - seen[i].now >= confirmation
  {
    ConfirmedMeaning(h, extension, true, confirmation);
    forall j | 0 <= j < |seen| ensures Shows(h[j], extension, true) <==> ListsDown(seen[j], extension, trunk) {
      LatestByExtensionMeaning(seen[j].endpoints, trunk, extension);
    }
    forall i: nat | i < |h| ensures ShownSince(h, i, extension, true) <==> DownSince(seen, i, extension, trunk) {
    }
  }

  lemma OneMoreObservation(h: History, seen: seq<Observation>, o: Observation, trunk: bool)
    requires Reduces(h, seen, trunk) && Ordered(h) && (h != [] ==> h[|h| - 1].now <= o.now)
    ensures Reduces(h + [SnapshotOf(o, trunk)], seen + [o], trunk) && Ordered(h + [SnapshotOf(o, trunk)])
  {
  }

  lemma ConfirmedAreDown(h: History, seen: seq<Observation>, trunk: bool, confirmation: int)
    requires Ordered(h) && h != [] && Reduces(h, seen, trunk)
    ensures forall e :: Confirmed(h, e, true, confirmation)
                   <==> seen[|seen| - 1].reachable
                        && exists i: nat :: DownSince(seen, i, e, trunk)
                                            && seen[|seen| - 1].now - seen[i].now >= confirmation
  {
    hide Confirmed;
    forall e
      ensures Confirmed(h, e, true, confirmation)
         <==> seen[|seen| - 1].reachable
              && exists i: nat :: DownSince(seen, i, e, trunk) && seen[|seen| - 1].now - seen[i].now >= confirmation
    {
      ConfirmedOnLists(h, seen, e, trunk, confirmation);
    }
  }

  /** The last reachable snapshot and those before it. */
  function UpToReachable(h: History): History {
    if h == [] || h[|h| - 1].reachable then h else UpToReachable(h[..|h| - 1])
  }

  lemma {:induction false} UnreachableChangesNoRun(h: History, phone: string, down: bool)
    ensures RunStart(UpToReachable(h), phone, down) == RunStart(h, phone, down)
  {
    if h != [] && !h[|h| - 1].reachable {
      UnreachableChangesNoRun(h[..|h| - 1], phone, down);
    }
  }

  class EndpointAvailabilitySignalTracker {
    const outageConfirmation: int
    const recoveryConfirmation: int
    const role: string
    var states: map<string, EndpointState>
    ghost var seen: seq<Observation>
    ghost var history: History

    constructor (outageConfirmation: int, recoveryConfirmation: int, role: string)
      ensures Valid() && seen == [] && history == []
      ensures this.outageConfirmation == outageConfirmation && this.recoveryConfirmation == recoveryConfirmation
      ensures this.role == role
    {
      this.outageConfirmation := outageConfirmation;
      this.recoveryConfirmation := recoveryConfirmation;
      this.role := role;
      states, seen, history := map[], [], [];
    }

    ghost predicate Valid()
      reads this
    {
      && Reduces(history, seen, role == "trunk")
      && Ordered(history) && forall e :: Matches(Get(states, e), history, e)
    }

    /** A run of outage is recorded with its start; otherwise at most a recovery is being timed. */
    ghost predicate Matches(state: Option<EndpointState>, h: History, e: string) {
      match RunStart(h, e, true)
      case Some(start) =>
        var shown := Confirmed(UpToReachable(h), e, true, outageConfirmation);
        state == Some(EndpointState(Some(start), None, shown, shown, Some(NotificationId(e, start))))
      case None =>
        state.None?
        || (state.value.outageStartedAt.None? && state.value.recoveryStartedAt.Some?
            && state.value.episodeNotified && !state.value.signalVisible)
    }

    /** The result is the set of phones with a confirmed outage, whatever the recovery confirmation: those
        that every reachable snapshot of at least `outageConfirmation` lists as unavailable. */
    method Observe(reachable: bool, endpoints: seq<Endpoint>, now: int) returns (visible: set<string>)
      requires Valid() && (history != [] ==> history[|history| - 1].now <= now)
      modifies this
      ensures Valid()
      ensures seen == old(seen) + [Observation(reachable, endpoints, now)] && old(history) <= history
      ensures forall e :: e in visible <==>
                reachable && exists i: nat :: DownSince(seen, i, e, role == "trunk")
                                              && now - seen[i].now >= outageConfirmation
      ensures forall e :: e in visible <==> Confirmed(history, e, true, outageConfirmation)
      ensures !reachable ==> states == old(states)
    {
      hide DownSince, Confirmed, LatestByExtension, Reduces, Ordered, Matches;
      var o := Observation(reachable, endpoints, now);
      OneMoreObservation(history, seen, o, role == "trunk");
      visible := ObserveSnapshot(SnapshotOf(o, role == "trunk"));
      seen := seen + [o];
      ConfirmedAreDown(history, seen, role == "trunk", outageConfirmation);
    }

    /** The same on the phones of the snapshot. */
    method ObserveSnapshot(s: Snapshot) returns (visible: set<string>)
      requires Ordered(history + [s]) && forall e :: Matches(Get(states, e), history, e)
      modifies this`states, this`history
      ensures history == old(history) + [s] && forall e :: Matches(Get(states, e), history, e)
      ensures forall e :: e in visible <==> Confirmed(history, e, true, outageConfirmation)
      ensures !s.reachable ==> states == old(states)
    {
      hide Ordered, Matches;
      history := history + [s];
      assert history[..|history| - 1] == old(history);
      if s.reachable {
        visible := UpdateAll(s.phones, s.now, old(history));
      } else {
        UnreachableKeepsMatches(old(history), history, states);
        visible := {};
      }
    }

    lemma UnreachableKeepsMatches(before: History, h: History, states: map<string, EndpointState>)
      requires h != [] && h[..|h| - 1] == before && !h[|h| - 1].reachable
      requires forall e :: Matches(Get(states, e), before, e)
      ensures forall e :: Matches(Get(states, e), h, e)
    {
    }

    /** Drop the records of absent endpoints, then update each endpoint present. */
    method UpdateAll(phones: map<string, bool>, now: int, ghost before: History) returns (visible: set<string>)
      requires forall e :: Matches(Get(states, e), before, e)
      requires Ordered(history) && history == before + [Snapshot(true, phones, now)]
      modifies this`states
      ensures forall e :: Matches(Get(states, e), history, e)
      ensures forall e :: e in visible <==> Confirmed(history, e, true, outageConfirmation)
    {
      assert history[..|history| - 1] == before;
      states := map e | e in states && e in phones :: states[e];
      visible := {};
      var todo := phones.Keys;
      while todo != {}
        invariant todo <= phones.Keys
        invariant forall e :: e in todo ==> Get(states, e) == Get(old(states), e)
        invariant forall e :: e !in todo ==> Matches(Get(states, e), history, e)
        invariant forall e :: e in visible <==> e !in todo && Confirmed(history, e, true, outageConfirmation)
      {
        var e :| e in todo;
        todo := todo - {e};
        assert Matches(Get(old(states), e), before, e);
        var shows := UpdateEndpoint(e, phones[e], now, before);
        if shows {
          visible := visible + {e};
        }
      }
    }

    /** The body of the loop, for one endpoint of a reachable snapshot. */
    method UpdateEndpoint(e: string, unavailable: bool, now: int, ghost before: History) returns (shows: bool)
      requires Matches(Get(states, e), before, e)
      requires Ordered(history) && history != [] && history[..|history| - 1] == before
      requires Shows(history[|history| - 1], e, unavailable) && history[|history| - 1].now == now
      modifies this`states
      ensures Matches(Get(states, e), history, e)
      ensures forall o :: o != e ==> Get(states, o) == Get(old(states), o)
      ensures shows == Confirmed(history, e, true, outageConfirmation)
    {
      var state := if e in states then states[e] else EndpointState(None, None, false, false, None);
      ConfirmationStays(before, history, e);
      if unavailable {
        if state.recoveryStartedAt.Some? {
          state := EndpointState(Some(now), None, false, false, None);
        } else if state.outageStartedAt.None? {
          state := state.(outageStartedAt := Some(now));
        }
        if state.notificationId.None? {
          state := state.(notificationId := Some(NotificationId(e, now)));
        }
        if !state.episodeNotified && now - state.outageStartedAt.value >= outageConfirmation {
          state := state.(episodeNotified := true, signalVisible := true);
        }
        states := states[e := state];
        shows := state.signalVisible;
        return;
      }
      state := state.(outageStartedAt := None, signalVisible := false);
      if !state.episodeNotified {
        states := states - {e};
      } else if state.recoveryStartedAt.None? {
        states := states[e := state.(recoveryStartedAt := Some(now))];
      } else if now - state.recoveryStartedAt.value >= recoveryConfirmation {
        states := states - {e};
      } else {
        states := states[e := state];
      }
      shows := false;
    }

    /** A confirmed outage stays confirmed while its run goes on. */
    lemma ConfirmationStays(before: History, h: History, e: string)
      requires Ordered(h) && h != [] && h[..|h| - 1] == before && h[|h| - 1].reachable
      ensures RunStart(h, e, true).Some? && Confirmed(UpToReachable(before), e, true, outageConfirmation)
              ==> Confirmed(h, e, true, outageConfirmation)
    {
      UnreachableChangesNoRun(before, e, true);
      UpToReachableIsPrefix(before);
    }

    /** The visible outages with their tokens: one token per run, fixed by the phone and the run's start. */
    method NotificationIds() returns (ids: map<string, NotificationId>)
      requires Valid()
      ensures forall e :: e in ids <==> Confirmed(UpToReachable(history), e, true, outageConfirmation)
      ensures forall e :: e in ids ==>
                RunStart(history, e, true).Some?
                && ids[e] == NotificationId(e, RunStart(history, e, true).value)
    {
      ids := map e | e in states && states[e].signalVisible && states[e].notificationId.Some?
             :: states[e].notificationId.value;
      forall e ensures e in ids <==> Confirmed(UpToReachable(history), e, true, outageConfirmation)
        ensures e in ids ==> RunStart(history, e, true).Some?
                             && ids[e] == NotificationId(e, RunStart(history, e, true).value)
      {
        assert Matches(Get(states, e), history, e);
        UnreachableChangesNoRun(history, e, true);
      }
    }
  }

  lemma {:induction false} UpToReachableIsPrefix(h: History)
    ensures |UpToReachable(h)| <= |h| && UpToReachable(h) == h[..|UpToReachable(h)|]
  {
    if h != [] && !h[|h| - 1].reachable {
      UpToReachableIsPrefix(h[..|h| - 1]);
    }
  }

  /** The docstring says that a short recovery does not arm another alert.  It does: however short
      the recovery that ends h, the next outage is shown once it is old enough, under a new token. */
  lemma ShortRecoveryRearms(h: History, outage: History, phone: string, confirmation: int)
    requires h != [] && Shows(h[|h| - 1], phone, false) && outage != []
    requires forall j :: 0 <= j < |outage| ==> Shows(outage[j], phone, true)
    requires outage[|outage| - 1].now - outage[0].now >= confirmation
    ensures Confirmed(h + outage, phone, true, confirmation)
    ensures RunStart(h + outage, phone, true) == Some(outage[0].now)
  {
    var restarted, rest := h + [outage[0]], outage[1..];
    assert restarted[..|h|] == h && RunStart(h, phone, true).None?;
    RunContinues(restarted, rest, phone, true);
    assert h + outage == restarted + rest;
  }
}
