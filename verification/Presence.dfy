/**
  The store of last healthy observations of pbxsense_agent/presence_history.py: memory is saved, as a
  whole, only when some phone goes from available to unavailable.
 */
module Presence {
  import opened Common

  /** One phone entry of one reachable snapshot. */
  datatype Sighting = Sighting(extension: string, available: bool, at: int)

  /** One reachable snapshot, and whether the file could be written then. */
  datatype Round = Round(seen: seq<Sighting>, writable: bool)

  function Sightings(endpoints: seq<Endpoint>, now: int): seq<Sighting> {
    if endpoints == [] then []
    else
      var e := endpoints[|endpoints| - 1];
      Sightings(endpoints[..|endpoints| - 1], now)
      + (if e.role == "trunk" then [] else [Sighting(e.extension, !e.unavailable, now)])
  }

  function All(rounds: seq<Round>): seq<Sighting> {
    if rounds == [] then [] else All(rounds[..|rounds| - 1]) + rounds[|rounds| - 1].seen
  }

  // ---------------------------------------------------------------- what a history says of a phone

  /** Whether the phone was available when last seen. */
  function Latest(h: seq<Sighting>, p: string): Option<bool> {
    if h == [] then None
    else if h[|h| - 1].extension == p then Some(h[|h| - 1].available)
    else Latest(h[..|h| - 1], p)
  }

  /** The time the phone was last seen healthy, or what was known at the start. */
  function LastHealthy(h: seq<Sighting>, p: string, start: Option<int>): Option<int> {
    if h == [] then start
    else if Healthy(h[|h| - 1], p) then Some(h[|h| - 1].at)
    else LastHealthy(h[..|h| - 1], p, start)
  }

  predicate Healthy(s: Sighting, p: string) {
    s.extension == p && s.available
  }

  predicate SeenHealthy(seen: seq<Sighting>, p: string) {
    exists i :: 0 <= i < |seen| && Healthy(seen[i], p)
  }

  /** From `from` on, some phone goes from available to unavailable. */
  predicate GoesDown(h: seq<Sighting>, from: nat) {
    from < |h|
    && var front, last := h[..|h| - 1], h[|h| - 1];
       GoesDown(front, from) || (!last.available && Latest(front, last.extension) == Some(true))
  }

  // ---------------------------------------------------------------- what the file holds

  /** The last round is one whose end finds the whole memory written to the file. */
  predicate Saves(rounds: seq<Round>)
    requires rounds != []
  {
    var front := All(rounds[..|rounds| - 1]);
    rounds[|rounds| - 1].writable && GoesDown(All(rounds), |front|)
  }

  /** The file's entry for a phone: its last healthy time as of the last save. */
  function Stored(rounds: seq<Round>, p: string, start: Option<int>): Option<int> {
    if rounds == [] then start
    else if Saves(rounds) then LastHealthy(All(rounds), p, start)
    else Stored(rounds[..|rounds| - 1], p, start)
  }

  predicate HealthySinceSave(rounds: seq<Round>, p: string) {
    rounds != [] && !Saves(rounds)
    && (HealthySinceSave(rounds[..|rounds| - 1], p) || SeenHealthy(rounds[|rounds| - 1].seen, p))
  }

  lemma {:induction false} LastHealthyConcat(a: seq<Sighting>, b: seq<Sighting>, p: string, start: Option<int>)
    ensures LastHealthy(a + b, p, start) == LastHealthy(b, p, LastHealthy(a, p, start))
  {
    if b == [] {
      assert a + b == a;
    } else {
      assert (a + b)[..|a + b| - 1] == a + b[..|b| - 1];
      LastHealthyConcat(a, b[..|b| - 1], p, start);
    }
  }

  /** Sighting i is the last healthy one of the phone. */
  ghost predicate IsLastHealthy(h: seq<Sighting>, p: string, i: int) {
    0 <= i < |h| && Healthy(h[i], p) && forall j :: i < j < |h| ==> !Healthy(h[j], p)
  }

  lemma {:induction false} LastHealthyMeaning(h: seq<Sighting>, p: string, start: Option<int>)
    ensures if SeenHealthy(h, p) then exists i :: IsLastHealthy(h, p, i) && LastHealthy(h, p, start) == Some(h[i].at)
            else LastHealthy(h, p, start) == start
  {
    if h == [] {
    } else if Healthy(h[|h| - 1], p) {
      assert IsLastHealthy(h, p, |h| - 1);
    } else {
      var front := h[..|h| - 1];
      assert forall j :: 0 <= j < |front| ==> h[j] == front[j];
      LastHealthyMeaning(front, p, start);
      if SeenHealthy(front, p) {
        var i :| IsLastHealthy(front, p, i) && LastHealthy(front, p, start) == Some(front[i].at);
        assert IsLastHealthy(h, p, i);
        assert SeenHealthy(h, p);
      } else {
        assert !SeenHealthy(h, p);
      }
    }
  }

  /** A phone that ends a stretch without anyone going down, and is not available, was not healthy in it. */
  lemma {:induction false} QuietStretch(a: seq<Sighting>, b: seq<Sighting>, p: string)
    requires !GoesDown(a + b, |a|) && Latest(a + b, p) != Some(true)
    ensures Latest(a, p) != Some(true) && !SeenHealthy(b, p)
  {
    if b == [] {
      assert a + b == a;
    } else {
      var front, last := b[..|b| - 1], b[|b| - 1];
      assert (a + b)[..|a + b| - 1] == a + front;
      QuietStretch(a, front, p);
    }
  }

  /** If every save succeeds, each phone not available when last seen has its final healthy time (or
      the value the process started with) in the file, after any number of snapshots. */
  lemma {:induction false} DownPhonesAreStored(rounds: seq<Round>, p: string, start: Option<int>)
    requires (forall r :: r in rounds ==> r.writable) && Latest(All(rounds), p) != Some(true)
    ensures Stored(rounds, p, start) == LastHealthy(All(rounds), p, start)
  {
    if rounds != [] && !Saves(rounds) {
      var front, last := rounds[..|rounds| - 1], rounds[|rounds| - 1];
      QuietStretch(All(front), last.seen, p);
      DownPhonesAreStored(front, p, start);
      LastHealthyConcat(All(front), last.seen, p, start);
      LastHealthyMeaning(last.seen, p, LastHealthy(All(front), p, start));
    }
  }

  /** Each snapshot is later than what came before it. */
  predicate Advancing(rounds: seq<Round>, p: string, start: Option<int>) {
    rounds != [] ==>
      var front, last := rounds[..|rounds| - 1], rounds[|rounds| - 1];
      && Advancing(front, p, start)
      && forall s :: s in last.seen ==> LastHealthy(All(front), p, start).GetOr(s.at - 1) < s.at
  }

  lemma {:induction false} StoredIsEarlier(rounds: seq<Round>, p: string, start: Option<int>)
    requires Advancing(rounds, p, start)
    ensures Stored(rounds, p, start).Some? ==> LastHealthy(All(rounds), p, start).Some?
    ensures Stored(rounds, p, start).Some? ==>
              Stored(rounds, p, start).value <= LastHealthy(All(rounds), p, start).value
    ensures HealthySinceSave(rounds, p) ==> Stored(rounds, p, start) != LastHealthy(All(rounds), p, start)
    ensures !HealthySinceSave(rounds, p) ==> Stored(rounds, p, start) == LastHealthy(All(rounds), p, start)
  {
    if rounds != [] && !Saves(rounds) {
      var front, last := rounds[..|rounds| - 1], rounds[|rounds| - 1];
      StoredIsEarlier(front, p, start);
      var known := LastHealthy(All(front), p, start);
      LastHealthyConcat(All(front), last.seen, p, start);
      LastHealthyMeaning(last.seen, p, known);
    }
  }

  /** The file has a phone's final healthy time exactly when the phone has not been healthy since the
      last successful save. */
  lemma StoredIffNotHealthySince(rounds: seq<Round>, p: string, start: Option<int>)
    requires Advancing(rounds, p, start)
    ensures Stored(rounds, p, start) == LastHealthy(All(rounds), p, start) <==> !HealthySinceSave(rounds, p)
  {
    StoredIsEarlier(rounds, p, start);
  }

  // ---------------------------------------------------------------- restarts

  /** The file's entry after a sequence of processes, each loading what the one before it left. */
  function StoredAfter(lives: seq<seq<Round>>, p: string): Option<int> {
    if lives == [] then None else Stored(lives[|lives| - 1], p, StoredAfter(lives[..|lives| - 1], p))
  }

  function AllOf(lives: seq<seq<Round>>): seq<Sighting> {
    if lives == [] then [] else AllOf(lives[..|lives| - 1]) + All(lives[|lives| - 1])
  }

  /** A phone that no process leaves available keeps its final healthy time over any number of restarts. */
  lemma {:induction false} RestartsKeepDownPhones(lives: seq<seq<Round>>, p: string)
    requires forall l :: l in lives ==> (forall r :: r in l ==> r.writable) && Latest(All(l), p) != Some(true)
    ensures StoredAfter(lives, p) == LastHealthy(AllOf(lives), p, None)
  {
    if lives != [] {
      var front, last := lives[..|lives| - 1], lives[|lives| - 1];
      RestartsKeepDownPhones(front, p);
      assert last in lives;
      DownPhonesAreStored(last, p, StoredAfter(front, p));
      LastHealthyConcat(AllOf(front), All(last), p, None);
    }
  }

  /** A first snapshot of one phone saves nothing. */
  lemma FirstSnapshot(s: Sighting, p: string, start: Option<int>)
    ensures All([Round([s], true)]) == [s] && Stored([Round([s], true)], p, start) == start
  {
    var rounds := [Round([s], true)];
    assert rounds[..0] == [] && All([]) == [];
    assert All(rounds) == [s];
    assert !GoesDown([s], 0);
  }

  /** A restart while a phone is healthy loses its healthy time: seen at 5, restarted, down at 7. */
  lemma RestartWhileHealthyForgets(first: Sighting, second: Sighting)
    requires first == Sighting("100", true, 5) && second == Sighting("100", false, 7)
    ensures var lives := [[Round([first], true)], [Round([second], true)]];
            && AllOf(lives) == [first, second] && Latest(AllOf(lives), "100") == Some(false)
            && LastHealthy(AllOf(lives), "100", None) == Some(5) && StoredAfter(lives, "100") == None
  {
    hide All, Stored;
    FirstSnapshot(first, "100", None);
    FirstSnapshot(second, "100", None);
    var lives := [[Round([first], true)], [Round([second], true)]];
    assert lives[..1] == [lives[0]] && lives[..1][..0] == [];
    assert AllOf(lives[..1]) == [first] && StoredAfter(lives[..1], "100") == None;
    assert AllOf(lives) == [first, second];
    assert [first, second][..1] == [first];
  }

  // ---------------------------------------------------------------- the tracker

  class EndpointLastActiveTracker {
    var lastActive: map<string, int>
    var wasAvailable: map<string, bool>
    var file: map<string, int>
    ghost const loaded: map<string, int>
    ghost var rounds: seq<Round>

    /** An entry with an empty extension is not loaded. */
    ghost function Start(p: string): Option<int> {
      if p == "" then None else Get(loaded, p)
    }

    /** Memory is what the history says, and the file is what memory was at the last save. */
    ghost predicate Valid()
      reads this
    {
      && Remembers(All(rounds))
      && forall p :: p != "" ==> Get(file, p) == Stored(rounds, p, Start(p))
    }

    ghost predicate Remembers(h: seq<Sighting>)
      reads this
    {
      && (forall p :: Get(lastActive, p) == LastHealthy(h, p, Start(p)))
      && (forall p :: Get(wasAvailable, p) == Latest(h, p))
    }

    constructor (stored: map<string, int>)
      ensures Valid() && file == stored && loaded == stored && rounds == []
    {
      file, loaded, rounds := stored, stored, [];
      lastActive := stored - {""};
      wasAvailable := map[];
    }

    /** One entry of a snapshot; `h` is what was seen before it. */
    method See(e: Endpoint, now: int, ghost h: seq<Sighting>) returns (down: bool)
      requires Remembers(h) && e.role != "trunk"
      modifies this`lastActive, this`wasAvailable
      ensures Remembers(h + [Sighting(e.extension, !e.unavailable, now)])
      ensures down == (e.unavailable && Latest(h, e.extension) == Some(true))
    {
      ghost var s := Sighting(e.extension, !e.unavailable, now);
      assert (h + [s])[..|h|] == h;
      down := false;
      if !e.unavailable {
        lastActive := lastActive[e.extension := now];
      } else if Get(wasAvailable, e.extension) == Some(true) {
        down := true;
      }
      wasAvailable := wasAvailable[e.extension := !e.unavailable];
      forall p ensures Get(lastActive, p) == LastHealthy(h + [s], p, Start(p)) {
        assert Get(old(lastActive), p) == LastHealthy(h, p, Start(p));
      }
      forall p ensures Get(wasAvailable, p) == Latest(h + [s], p) {
        assert Get(old(wasAvailable), p) == Latest(h, p);
      }
    }

    method Observe(reachable: bool, endpoints: seq<Endpoint>, now: int, writable: bool) returns (view: map<string, int>)
      requires Valid()
      modifies this
      ensures Valid() && view == lastActive
      ensures rounds == if reachable then old(rounds) + [Round(Sightings(endpoints, now), writable)] else old(rounds)
      ensures !reachable ==> unchanged(this)
    {
      if !reachable {
        return lastActive;
      }
      ghost var before := All(rounds);
      var changed := Scan(endpoints, now, before);
      ghost var round := Round(Sightings(endpoints, now), writable);
      assert (rounds + [round])[..|rounds|] == rounds;
      rounds := rounds + [round];
      assert All(rounds) == before + round.seen;
      hide Latest, LastHealthy, GoesDown, All;
      assert Saves(rounds) == (changed && writable);
      if changed && writable {
        file := lastActive;
      }
      view := lastActive;
      forall p | p != "" ensures Get(file, p) == Stored(rounds, p, Start(p)) {
        assert Get(old(file), p) == Stored(old(rounds), p, Start(p));
      }
    }

    /** The loop of `observe`: whether some phone went down in this snapshot. */
    method Scan(endpoints: seq<Endpoint>, now: int, ghost before: seq<Sighting>) returns (changed: bool)
      requires Remembers(before)
      modifies this`lastActive, this`wasAvailable
      ensures Remembers(before + Sightings(endpoints, now))
      ensures changed == GoesDown(before + Sightings(endpoints, now), |before|)
    {
      hide Latest, GoesDown, Sightings, Remembers;
      changed := false;
      NothingScanned(before, endpoints, now);
      for i := 0 to |endpoints|
        invariant Remembers(before + Sightings(endpoints[..i], now))
        invariant changed == GoesDown(before + Sightings(endpoints[..i], now), |before|)
      {
        OneMoreScanned(before, endpoints, now, i);
        if endpoints[i].role != "trunk" {
          var down := See(endpoints[i], now, before + Sightings(endpoints[..i], now));
          changed := changed || down;
        }
      }
    }
  }

  lemma NothingScanned(before: seq<Sighting>, endpoints: seq<Endpoint>, now: int)
    ensures before + Sightings(endpoints[..0], now) == before && !GoesDown(before, |before|)
    ensures endpoints[..|endpoints|] == endpoints
  {
  }

  /** One more entry of the snapshot. */
  lemma OneMoreScanned(before: seq<Sighting>, endpoints: seq<Endpoint>, now: int, i: nat)
    requires i < |endpoints|
    ensures var h, h' := before + Sightings(endpoints[..i], now), before + Sightings(endpoints[..i + 1], now);
            var e := endpoints[i];
            var down := e.unavailable && Latest(h, e.extension) == Some(true);
            if e.role == "trunk" then h' == h
            else && h' == h + [Sighting(e.extension, !e.unavailable, now)]
                 && GoesDown(h', |before|) == (GoesDown(h, |before|) || down)
  {
    hide GoesDown, Latest;
    assert endpoints[..i + 1][..i] == endpoints[..i];
    var h, e := before + Sightings(endpoints[..i], now), endpoints[i];
    var s := Sighting(e.extension, !e.unavailable, now);
    if e.role == "trunk" {
      assert before + Sightings(endpoints[..i + 1], now) == h;
    } else {
      assert before + Sightings(endpoints[..i + 1], now) == h + [s];
      GoesDownStep(h, s, |before|);
    }
  }

  lemma GoesDownStep(h: seq<Sighting>, s: Sighting, from: nat)
    requires from <= |h|
    ensures GoesDown(h + [s], from)
       <==> GoesDown(h, from) || (!s.available && Latest(h, s.extension) == Some(true))
  {
    hide Latest;
    assert (h + [s])[..|h|] == h;
  }
}
