/**
  The sliding-window limiter of push_relay/app.py: `_consume_window`, and `_client_window` with its
  eviction of idle keys and its overflow key.
 */
module Limiter {
  import opened Common

  const MAX_CLIENTS: nat := 10_000
  const EVICTION_BATCH: nat := 2_000
  const SECONDS: nat := 60
  const OVERFLOW: string := "overflow"
  const MAX_REQUESTS: nat := 120
  const MAX_ACTIVATIONS: nat := 6

  predicate Sorted(times: seq<int>) {
    forall i, j :: 0 <= i < j < |times| ==> times[i] <= times[j]
  }

  predicate UpTo(times: seq<int>, now: int) {
    forall i :: 0 <= i < |times| ==> times[i] <= now
  }

  function After(cutoff: int): int -> bool { (t: int) => t > cutoff }

  /** The times later than the cutoff. */
  function Live(times: seq<int>, cutoff: int): seq<int> {
    Filter(After(cutoff), times)
  }

  /** Of a sorted list these are a suffix. */
  lemma {:induction false} LiveIsSuffix(times: seq<int>, cutoff: int) returns (n: nat)
    requires Sorted(times)
    ensures n <= |times| && Live(times, cutoff) == times[n..]
    ensures forall i :: 0 <= i < n ==> times[i] <= cutoff
    ensures forall i :: n <= i < |times| ==> times[i] > cutoff
  {
    if times == [] {
      n := 0;
    } else {
      var front, last := times[..|times| - 1], times[|times| - 1];
      assert |front| == |times| - 1 && forall i :: 0 <= i < |front| ==> front[i] == times[i];
      n := LiveIsSuffix(front, cutoff);
      assert Live(times, cutoff) == Live(front, cutoff) + (if last > cutoff then [last] else []);
      hide Filter, Live;
      if last <= cutoff {
        assert |front| > 0 ==> front[|front| - 1] == times[|front| - 1] <= last;
        assert n == |front| && front[n..] == [];
        n := |times|;
        assert times[n..] == [];
      } else {
        assert times[n..] == front[n..] + [last];
      }
    }
  }

  /** A later cutoff only needs what an earlier one kept. */
  lemma LiveOfLive(times: seq<int>, cutoff: int, later: int)
    requires cutoff <= later
    ensures Live(Live(times, cutoff), later) == Live(times, later)
  {
    FilterThrough(After(later), After(cutoff), times);
  }

  lemma {:induction false} NothingLive(times: seq<int>, cutoff: int)
    requires UpTo(times, cutoff)
    ensures Live(times, cutoff) == []
  {
    if times != [] {
      NothingLive(times[..|times| - 1], cutoff);
    }
  }

  // ---------------------------------------------------------------- one window

  /** Forget what is too old, then admit if fewer than `limit` admissions remain. */
  method ConsumeWindow(window: seq<int>, limit: nat, seconds: nat, now: int)
    returns (admitted: bool, rest: seq<int>)
    requires Sorted(window) && UpTo(window, now)
    ensures admitted <==> |Live(window, now - seconds)| < limit
    ensures rest == Live(window, now - seconds) + (if admitted then [now] else [])
    ensures Sorted(rest) && UpTo(rest, now)
  {
    hide Filter;
    var cutoff := now - seconds;
    ghost var n := LiveIsSuffix(window, cutoff);
    rest := window;
    ghost var dropped := 0;
    while rest != [] && rest[0] <= cutoff
      invariant dropped <= n && rest == window[dropped..]
      decreases |rest|
    {
      rest := rest[1..];
      dropped := dropped + 1;
    }
    assert dropped == n;
    admitted := |rest| < limit;
    if admitted {
      rest := rest + [now];
    }
  }

  // ---------------------------------------------------------------- the unbounded limiter

  /** All admissions ever made under each key. */
  type Log = map<string, seq<int>>

  function Times(log: Log, key: string): seq<int> {
    Get(log, key).GetOr([])
  }

  /** Fewer than `limit` admissions under this key in (now - 60, now]. */
  predicate Admits(log: Log, key: string, limit: nat, now: int) {
    |Live(Times(log, key), now - SECONDS)| < limit
  }

  function Record(log: Log, key: string, limit: nat, now: int): Log {
    if Admits(log, key, limit, now) then log[key := Times(log, key) + [now]] else log
  }

  /** Any `limit` + 1 consecutive admissions span at least the window. */
  predicate Paced(times: seq<int>, limit: nat) {
    forall i :: 0 <= i < |times| - limit ==> times[i + limit] - times[i] >= SECONDS
  }

  /** Under every key the admissions are in order, not in the future, and paced. */
  ghost predicate AllPaced(log: Log, max: nat, now: int) {
    forall k :: Sorted(Times(log, k)) && UpTo(Times(log, k), now) && Paced(Times(log, k), max)
  }

  /** Admission by count keeps this for all time, also when single calls use a lower limit. */
  lemma RecordKeepsPace(log: Log, key: string, limit: nat, at: int, now: int, max: nat)
    requires limit <= max && AllPaced(log, max, at) && at <= now
    ensures AllPaced(Record(log, key, limit, now), max, now)
  {
    var times := Times(log, key);
    var n := LiveIsSuffix(times, now - SECONDS);
    var log' := Record(log, key, limit, now);
    forall k
      ensures Sorted(Times(log', k)) && UpTo(Times(log', k), now) && Paced(Times(log', k), max)
    {
      assert Sorted(Times(log, k)) && UpTo(Times(log, k), at) && Paced(Times(log, k), max);
      if k == key && Admits(log, key, limit, now) {
        AppendKeepsPace(times, n, limit, now, max);
      }
    }
  }

  lemma PaceLasts(log: Log, max: nat, at: int, now: int)
    requires AllPaced(log, max, at) && at <= now
    ensures AllPaced(log, max, now)
  {
    forall k ensures Sorted(Times(log, k)) && UpTo(Times(log, k), now) && Paced(Times(log, k), max) {
      assert Sorted(Times(log, k)) && UpTo(Times(log, k), at) && Paced(Times(log, k), max);
    }
  }

  lemma AppendKeepsPace(times: seq<int>, n: nat, limit: nat, now: int, max: nat)
    requires Paced(times, max) && n <= |times| && |times| - n < limit <= max
    requires forall i :: 0 <= i < n ==> times[i] <= now - SECONDS
    ensures Paced(times + [now], max)
  {
  }

  // ---------------------------------------------------------------- activations

  /** An admission that remembers what was asked for. */
  datatype Entry = Entry(at: int, activation: bool)

  function LimitOf(activation: bool): nat {
    if activation then MAX_ACTIVATIONS else MAX_REQUESTS
  }

  function Recent(cutoff: int): Entry -> bool { (e: Entry) => e.at > cutoff }

  function RecentActivation(cutoff: int): Entry -> bool { (e: Entry) => e.at > cutoff && e.activation }

  function LiveRequests(entries: seq<Entry>, now: int): nat {
    |Filter(Recent(now - SECONDS), entries)|
  }

  function LiveActivations(entries: seq<Entry>, now: int): nat {
    |Filter(RecentActivation(now - SECONDS), entries)|
  }

  /** The code: both kinds are counted together. */
  predicate CodeAdmits(entries: seq<Entry>, activation: bool, now: int) {
    LiveRequests(entries, now) < LimitOf(activation)
  }

  /** The documentation: 120 requests in all, and six activations. */
  predicate DocumentAdmits(entries: seq<Entry>, activation: bool, now: int) {
    LiveRequests(entries, now) < MAX_REQUESTS && (activation ==> LiveActivations(entries, now) < MAX_ACTIVATIONS)
  }

  function Stamps(entries: seq<Entry>): (times: seq<int>)
    ensures |times| == |entries| && forall i :: 0 <= i < |times| ==> times[i] == entries[i].at
  {
    seq(|entries|, i requires 0 <= i < |entries| => entries[i].at)
  }

  /** The tagged log is the log of the limiter with the kinds put back. */
  lemma CodeIsTheLimiter(entries: seq<Entry>, log: Log, client: string, activation: bool, now: int)
    requires Stamps(entries) == Times(log, client)
    ensures CodeAdmits(entries, activation, now) <==> Admits(log, client, LimitOf(activation), now)
    ensures var after := if CodeAdmits(entries, activation, now) then entries + [Entry(now, activation)] else entries;
            Stamps(after) == Times(Record(log, client, LimitOf(activation), now), client)
  {
    LiveStamps(entries, now - SECONDS);
  }

  lemma {:induction false} LiveStamps(entries: seq<Entry>, cutoff: int)
    ensures |Filter(Recent(cutoff), entries)| == |Live(Stamps(entries), cutoff)|
  {
    if entries != [] {
      LiveStamps(entries[..|entries| - 1], cutoff);
      assert Stamps(entries)[..|entries| - 1] == Stamps(entries[..|entries| - 1]);
    }
  }

  lemma {:induction false} ActivationsAreRequests(entries: seq<Entry>, now: int)
    ensures LiveActivations(entries, now) <= LiveRequests(entries, now)
  {
    if entries != [] {
      ActivationsAreRequests(entries[..|entries| - 1], now);
    }
  }

  /** For every log, code and documentation decide alike about other requests, and differently about an
      activation exactly when fewer than six activations but six or more requests are live, and the
      total still allows one. */
  lemma CodeAndDocumentDifferIff(entries: seq<Entry>, activation: bool, now: int)
    ensures CodeAdmits(entries, activation, now) != DocumentAdmits(entries, activation, now)
       <==> activation && LiveActivations(entries, now) < MAX_ACTIVATIONS <= LiveRequests(entries, now) < MAX_REQUESTS
  {
    ActivationsAreRequests(entries, now);
  }

  datatype Asked = Asked(at: int, activation: bool)

  /** The log of one client after these requests. */
  function Serve(asked: seq<Asked>): seq<Entry> {
    if asked == [] then []
    else
      var entries, last := Serve(asked[..|asked| - 1]), asked[|asked| - 1];
      if CodeAdmits(entries, last.activation, last.at) then entries + [Entry(last.at, last.activation)] else entries
  }

  function Many(n: nat, activation: bool, now: int): seq<Asked> {
    seq(n, _ => Asked(now, activation))
  }

  /** After six other requests the very first activation is refused. */
  lemma FirstActivationRefused(now: int)
    ensures var entries := Serve(Many(6, false, now));
            && LiveActivations(entries, now) == 0 && LiveRequests(entries, now) == 6
            && !CodeAdmits(entries, true, now) && DocumentAdmits(entries, true, now)
  {
    ManyAreServed(6, false, now, now);
  }

  /** After six activations the seventh is refused by both for just under a minute, and another request by
      neither. */
  lemma SeventhActivationRefused(now: int, later: int)
    requires now <= later
    ensures var entries := Serve(Many(6, true, now));
            && (CodeAdmits(entries, true, later) <==> later >= now + 60)
            && (DocumentAdmits(entries, true, later) <==> later >= now + 60)
            && CodeAdmits(entries, false, later) && DocumentAdmits(entries, false, later)
  {
    ManyAreServed(6, true, now, later);
  }

  lemma {:induction false} ManyAreServed(n: nat, activation: bool, now: int, later: int)
    requires n <= LimitOf(activation) && now <= later
    ensures LiveRequests(Serve(Many(n, activation, now)), later) == if later < now + SECONDS then n else 0
    ensures LiveActivations(Serve(Many(n, activation, now)), later)
         == if activation && later < now + SECONDS then n else 0
  {
    if n > 0 {
      hide Serve, Many, LiveRequests, LiveActivations, CodeAdmits;
      ManyAreServed(n - 1, activation, now, now);
      ManyAreServed(n - 1, activation, now, later);
      OneMoreServed(n, activation, now);
      OneMoreEntry(Serve(Many(n - 1, activation, now)), Entry(now, activation), later);
    } else {
      NoneServed(activation, now, later);
    }
  }

  lemma NoneServed(activation: bool, now: int, later: int)
    ensures LiveRequests(Serve(Many(0, activation, now)), later) == 0
    ensures LiveActivations(Serve(Many(0, activation, now)), later) == 0
  {
  }

  lemma OneMoreServed(n: nat, activation: bool, now: int)
    requires 0 < n <= LimitOf(activation) && LiveRequests(Serve(Many(n - 1, activation, now)), now) == n - 1
    ensures Serve(Many(n, activation, now)) == Serve(Many(n - 1, activation, now)) + [Entry(now, activation)]
  {
    hide LiveRequests;
    assert Many(n, activation, now)[..n - 1] == Many(n - 1, activation, now);
  }

  lemma OneMoreEntry(entries: seq<Entry>, e: Entry, now: int)
    ensures LiveRequests(entries + [e], now) == LiveRequests(entries, now) + (if now < e.at + SECONDS then 1 else 0)
    ensures LiveActivations(entries + [e], now)
         == LiveActivations(entries, now) + (if e.activation && now < e.at + SECONDS then 1 else 0)
  {
    hide Filter;
    FilterAppend(Recent(now - SECONDS), entries, e);
    FilterAppend(RecentActivation(now - SECONDS), entries, e);
  }

  // ---------------------------------------------------------------- the bounded limiter

  /** Under this key the window holds what the log holds, as far as it can still matter. */
  ghost predicate Agrees(windows: Log, log: Log, key: string, at: int) {
    && Sorted(Times(windows, key)) && UpTo(Times(windows, key), at)
    && Live(Times(windows, key), at - SECONDS) == Live(Times(log, key), at - SECONDS)
  }

  ghost predicate AllAgree(windows: Log, log: Log, at: int) {
    forall k :: Agrees(windows, log, k, at)
  }

  /** Time passes; what was too old stays so. */
  lemma AgreementLasts(windows: Log, log: Log, at: int, now: int)
    requires AllAgree(windows, log, at) && at <= now
    ensures AllAgree(windows, log, now)
  {
    forall k ensures Agrees(windows, log, k, now) {
      assert Agrees(windows, log, k, at);
      LiveOfLive(Times(windows, k), at - SECONDS, now - SECONDS);
      LiveOfLive(Times(log, k), at - SECONDS, now - SECONDS);
    }
  }

  /** An idle window says nothing an absent one does not say. */
  lemma IdleIsAbsent(windows: Log, log: Log, key: string, at: int, windows': Log)
    requires AllAgree(windows, log, at) && UpTo(Times(windows, key), at - SECONDS)
    requires windows' == windows - {key} || windows' == windows[key := []]
    ensures AllAgree(windows', log, at)
  {
    hide Filter;
    assert Agrees(windows, log, key, at);
    NothingLive(Times(windows, key), at - SECONDS);
    NothingLive([], at - SECONDS);
    forall k ensures Agrees(windows', log, k, at) {
      assert Agrees(windows, log, k, at);
    }
  }

  /** Consuming the window and recording in the log agree in decision and result. */
  lemma ConsumeAgrees(windows: Log, log: Log, key: string, limit: nat, now: int, windows': Log)
    requires AllAgree(windows, log, now) && key in windows' && windows' == windows[key := windows'[key]]
    requires Sorted(windows'[key]) && UpTo(windows'[key], now)
    requires windows'[key]
          == Live(Times(windows, key), now - SECONDS) + (if Admits(log, key, limit, now) then [now] else [])
    ensures AllAgree(windows', Record(log, key, limit, now), now)
  {
    hide Filter;
    var log' := Record(log, key, limit, now);
    forall k ensures Agrees(windows', log', k, now) {
      assert Agrees(windows, log, k, now);
      if k == key {
        assert Live(Times(windows, k), now - SECONDS) + [] == Live(Times(windows, k), now - SECONDS);
        ConsumedKeyAgrees(Times(windows, k), Times(log, k), now - SECONDS, now);
      }
    }
  }

  lemma ConsumedKeyAgrees(window: seq<int>, times: seq<int>, cutoff: int, now: int)
    requires Live(window, cutoff) == Live(times, cutoff) && now > cutoff
    ensures Live(Live(window, cutoff), cutoff) == Live(times, cutoff)
    ensures Live(Live(window, cutoff) + [now], cutoff) == Live(times + [now], cutoff)
  {
    LiveOfLive(window, cutoff, cutoff);
    FilterAppend(After(cutoff), Live(window, cutoff), now);
    FilterAppend(After(cutoff), times, now);
  }

  /** The windows without an admission in the last minute. */
  function Idle(windows: Log, now: int): set<string> {
    set k | k in windows && (windows[k] == [] || windows[k][|windows[k]| - 1] <= now - SECONDS)
  }

  /** How many of them one eviction forgets. */
  function Evicted(windows: Log, now: int): nat {
    if |Idle(windows, now)| <= EVICTION_BATCH then |Idle(windows, now)| else EVICTION_BATCH
  }

  /** The client's own key, unless it is new and the map is full even without those. */
  function KeyFor(windows: Log, client: string, now: int): string {
    if client !in windows && |windows| >= MAX_CLIENTS && |windows| - Evicted(windows, now) >= MAX_CLIENTS
    then OVERFLOW else client
  }

  /** The keys with an admission in the last minute. */
  function Busy(log: Log, now: int): set<string> {
    set k | k in log && Live(log[k], now - 60) != []
  }

  lemma IdleIsNotBusy(windows: Log, log: Log, now: int)
    requires AllAgree(windows, log, now)
    ensures Busy(log, now) == windows.Keys - Idle(windows, now)
  {
    forall k ensures k in Busy(log, now) <==> k in windows && k !in Idle(windows, now) {
      assert Agrees(windows, log, k, now);
      var n := LiveIsSuffix(Times(windows, k), now - SECONDS);
    }
  }

  /** The client's own key is used, unless it is new and 10,000 keys have been busy in the last minute. */
  lemma KeyForMeaning(windows: Log, log: Log, client: string, now: int)
    requires AllAgree(windows, log, now) && |windows| <= MAX_CLIENTS + 1
    ensures KeyFor(windows, client, now)
         == if client !in windows && |Busy(log, now)| >= 10_000 then OVERFLOW else client
  {
    IdleIsNotBusy(windows, log, now);
    assert |windows.Keys - Idle(windows, now)| == |windows.Keys| - |Idle(windows, now)|;
  }

  class RequestLimiter {
    var windows: map<string, seq<int>>
    ghost var log: Log
    ghost var clock: int

    constructor (now: int)
      ensures Valid() && log == map[] && clock == now
    {
      windows, log, clock := map[], map[], now;
      new;
      forall k ensures Agrees(windows, log, k, now) {
      }
    }

    ghost predicate Valid()
      reads this
    {
      && AllAgree(windows, log, clock) && AllPaced(log, MAX_REQUESTS, clock)
      && |windows| <= MAX_CLIENTS + 1
      && (|windows| == MAX_CLIENTS + 1 ==> OVERFLOW in windows)
    }

    /** The decision and the log are those of the unbounded limiter for the key used; the map never
        exceeds 10,001 keys, and under every key any 121 consecutive admissions span a minute. */
    method Request(client: string, activation: bool, now: int) returns (admitted: bool, key: string)
      requires Valid() && clock <= now
      modifies this
      ensures Valid() && clock == now
      ensures admitted == Admits(old(log), key, LimitOf(activation), now)
      ensures log == Record(old(log), key, LimitOf(activation), now) && AllPaced(log, 120, now)
      ensures key == if client !in old(windows) && |Busy(old(log), now)| >= 10_000 then OVERFLOW else client
      ensures |windows| <= 10_001
    {
      hide Busy, KeyFor, Live, Filter, AllPaced, Record;
      var limit := LimitOf(activation);
      AgreementLasts(windows, log, clock, now);
      PaceLasts(log, MAX_REQUESTS, clock, now);
      clock := now;
      KeyForMeaning(windows, log, client, now);
      key := ClientWindow(client, now);
      assert Agrees(windows, log, key, now);
      var rest;
      admitted, rest := ConsumeWindow(windows[key], limit, SECONDS, now);
      ConsumeAgrees(windows, log, key, limit, now, windows[key := rest]);
      SameSize(windows, windows[key := rest]);
      RecordKeepsPace(log, key, limit, now, now, MAX_REQUESTS);
      log := Record(log, key, limit, now);
      windows := windows[key := rest];
    }

    /** Find or create the client's window; when the map is full, drop idle windows first. */
    method ClientWindow(client: string, now: int) returns (key: string)
      requires Valid() && clock == now
      modifies this`windows
      ensures Valid() && key in windows
      ensures key == KeyFor(old(windows), client, now)
    {
      key := client;
      if client !in windows && |windows| >= MAX_CLIENTS {
        EvictIdle(now);
        if |windows| >= MAX_CLIENTS {
          key := OVERFLOW;
        }
      }
      if key !in windows {
        IdleIsAbsent(windows, log, key, now, windows[key := []]);
        OneLess(windows, windows[key := []], key);
        windows := windows[key := []];
      }
    }

    /** Up to 2,000 idle windows are forgotten, and nothing else changes. */
    method EvictIdle(now: int)
      requires Valid() && clock == now
      modifies this`windows
      ensures Valid() && |windows| == |old(windows)| - Evicted(old(windows), now)
      ensures forall k :: k in windows ==> k in old(windows) && windows[k] == old(windows)[k]
      ensures forall k :: k in old(windows) && k !in windows ==> k in Idle(old(windows), now)
    {
      var idle := Idle(windows, now);
      var evicted := 0;
      while idle != {} && evicted < EVICTION_BATCH
        invariant Valid() && |windows| == |old(windows)| - evicted
        invariant evicted + |idle| == |Idle(old(windows), now)| && evicted <= EVICTION_BATCH
        invariant idle <= Idle(windows, now)
        invariant forall k :: k in windows ==> k in old(windows) && windows[k] == old(windows)[k]
        invariant forall k :: k in old(windows) && k !in windows ==> k in Idle(old(windows), now)
      {
        var k :| k in idle;
        idle := idle - {k};
        Evict(k);
        evicted := evicted + 1;
      }
    }

    method Evict(k: string)
      requires Valid() && k in windows && (windows[k] == [] || windows[k][|windows[k]| - 1] <= clock - SECONDS)
      modifies this`windows
      ensures Valid() && windows == old(windows) - {k} && |windows| == |old(windows)| - 1
    {
      assert Agrees(windows, log, k, clock);
      IdleIsAbsent(windows, log, k, clock, windows - {k});
      OneLess(windows - {k}, windows, k);
      windows := windows - {k};
    }
  }

  lemma SameSize<K, V>(a: map<K, V>, b: map<K, V>)
    requires a.Keys == b.Keys
    ensures |a| == |b|
  {
  }

  lemma OneLess<K, V>(a: map<K, V>, b: map<K, V>, key: K)
    requires key in b && a.Keys == b.Keys - {key}
    ensures |a| == |b| - 1
  {
  }
}
