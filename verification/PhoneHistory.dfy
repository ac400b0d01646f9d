/** Histories of PBX snapshots, as seen by the trackers of pbxsense_agent/pulse.py. */
module PhoneHistory {
  import opened Common

  /** One snapshot: the phones it lists, true for unavailable, and when it was taken. */
  datatype Snapshot = Snapshot(reachable: bool, phones: map<string, bool>, now: int)

  type History = seq<Snapshot>

  predicate Ordered(h: History) {
    forall i, j :: 0 <= i < j < |h| ==> h[i].now <= h[j].now
  }

  predicate StrictlyOrdered(h: History) {
    forall i, j :: 0 <= i < j < |h| ==> h[i].now < h[j].now
  }

  /** The snapshot lists the phone, in the given condition. */
  predicate Shows(s: Snapshot, phone: string, down: bool) {
    s.reachable && Get(s.phones, phone) == Some(down)
  }

  /** When the current run of snapshots showing the phone in this condition began;
      unreachable snapshots neither extend nor end a run. */
  function RunStart(h: History, phone: string, down: bool): Option<int> {
    if h == [] then None
    else
      var before, last := h[..|h| - 1], h[|h| - 1];
      if !last.reachable then RunStart(before, phone, down)
      else if Shows(last, phone, down) then Some(RunStart(before, phone, down).GetOr(last.now))
      else None
  }

  /** The last snapshot is reachable and the current run is at least `confirmation` old. */
  predicate Confirmed(h: History, phone: string, down: bool, confirmation: int) {
    && h != []
    && h[|h| - 1].reachable
    && RunStart(h, phone, down).Some?
    && h[|h| - 1].now - RunStart(h, phone, down).value >= confirmation
  }

  /** From snapshot i on, every reachable snapshot shows the phone in this condition. */
  ghost predicate ShownSince(h: History, i: nat, phone: string, down: bool) {
    && i < |h| && h[i].reachable
    && forall j :: i <= j < |h| && h[j].reachable ==> Shows(h[j], phone, down)
  }

  lemma {:induction false} RunStartIsASnapshot(h: History, phone: string, down: bool) returns (i: nat)
    requires RunStart(h, phone, down).Some?
    ensures ShownSince(h, i, phone, down) && h[i].now == RunStart(h, phone, down).value
  {
    var before, last := h[..|h| - 1], h[|h| - 1];
    if last.reachable && RunStart(before, phone, down).None? {
      i := |h| - 1;
    } else {
      i := RunStartIsASnapshot(before, phone, down);
    }
  }

  lemma {:induction false} RunStartIsEarliest(h: History, i: nat, phone: string, down: bool)
    requires Ordered(h) && ShownSince(h, i, phone, down)
    ensures RunStart(h, phone, down).Some? && RunStart(h, phone, down).value <= h[i].now
  {
    var before, last := h[..|h| - 1], h[|h| - 1];
    if i < |before| {
      RunStartIsEarliest(before, i, phone, down);
    } else if RunStart(before, phone, down).Some? {
      var j := RunStartIsASnapshot(before, phone, down);
    }
  }

  /** What confirmation means without any run bookkeeping. */
  lemma ConfirmedMeaning(h: History, phone: string, down: bool, confirmation: int)
    requires Ordered(h)
    ensures Confirmed(h, phone, down, confirmation)
       <==> h != [] && h[|h| - 1].reachable
            && exists i: nat :: ShownSince(h, i, phone, down) && h[|h| - 1].now - h[i].now >= confirmation
  {
    if Confirmed(h, phone, down, confirmation) {
      var i := RunStartIsASnapshot(h, phone, down);
    }
    forall i: nat | ShownSince(h, i, phone, down) && h[|h| - 1].now - h[i].now >= confirmation
      ensures h[|h| - 1].reachable ==> Confirmed(h, phone, down, confirmation)
    {
      RunStartIsEarliest(h, i, phone, down);
    }
  }

  /** A later run starts at a different time exactly if some reachable snapshot in between broke the run. */
  lemma {:induction false} RunStartIdentifiesRun(h: History, rest: History, phone: string, down: bool)
    requires StrictlyOrdered(h + rest)
    requires RunStart(h, phone, down).Some? && RunStart(h + rest, phone, down).Some?
    ensures RunStart(h + rest, phone, down) == RunStart(h, phone, down)
       <==> forall j :: 0 <= j < |rest| && rest[j].reachable ==> Shows(rest[j], phone, down)
  {
    var all := h + rest;
    var first := RunStartIsASnapshot(h, phone, down);
    if RunStart(all, phone, down) == RunStart(h, phone, down) {
      var i := RunStartIsASnapshot(all, phone, down);
      assert all[first].now == all[i].now;
      forall j | 0 <= j < |rest| && rest[j].reachable ensures Shows(rest[j], phone, down) {
        assert rest[j] == all[|h| + j];
      }
    } else if forall j :: 0 <= j < |rest| && rest[j].reachable ==> Shows(rest[j], phone, down) {
      RunContinues(h, rest, phone, down);
      assert false;
    }
  }

  lemma {:induction false} RunContinues(h: History, rest: History, phone: string, down: bool)
    requires RunStart(h, phone, down).Some?
    requires forall j :: 0 <= j < |rest| && rest[j].reachable ==> Shows(rest[j], phone, down)
    ensures RunStart(h + rest, phone, down) == RunStart(h, phone, down)
  {
    if rest == [] {
      assert h + rest == h;
    } else {
      var before := rest[..|rest| - 1];
      assert (h + rest)[..|h + rest| - 1] == h + before;
      RunContinues(h, before, phone, down);
    }
  }
}
