/**
  Daily usage rollups of push_relay/app.py: live counters in each entity's document, archived once
  per UTC day when the entity is next touched or the dashboard looks at it.  Dates are day numbers.
 */
module Usage {
  import opened Common

  type Counters = map<string, nat>

  /** One entity: its document, and its entries in the daily archive (`usageDaily`), by date. */
  datatype Ledger = Ledger(
    usageDate: Option<int>, usage: Counters, archivedDate: Option<int>, archive: map<int, Counters>)

  const NEW: Ledger := Ledger(None, map[], None, map[])

  function Count(c: Counters, key: string): nat {
    Get(c, key).GetOr(0)
  }

  function Archived(l: Ledger, date: int): Counters {
    Get(l.archive, date).GetOr(map[])
  }

  /** The increments that count: positive ones. */
  function Clean(increments: map<string, int>): Counters {
    map k | k in increments && increments[k] > 0 :: increments[k]
  }

  function Add(a: Counters, b: Counters): Counters {
    map k | k in a.Keys + b.Keys :: Count(a, k) + Count(b, k)
  }

  lemma AddCounts(a: Counters, b: Counters)
    ensures forall key :: Count(Add(a, b), key) == Count(a, key) + Count(b, key)
  {
  }

  /** `_archive_usage`. */
  function Archive(l: Ledger, today: int): Ledger {
    if l.usageDate.None? || l.usageDate == Some(today) || l.archivedDate == l.usageDate || l.usage == map[] then l
    else l.(archive := l.archive[l.usageDate.value := l.usage], archivedDate := l.usageDate)
  }

  /** `_usage_update` and the write that goes with it. */
  function Update(l: Ledger, increments: map<string, int>, today: int): Ledger {
    var a := Archive(l, today);
    if a.usageDate != Some(today) then a.(usageDate := Some(today), usage := Clean(increments))
    else a.(usage := Add(a.usage, Clean(increments)))
  }

  // ---------------------------------------------------------------- runs of one entity

  /** What touches an entity: counters going up, or a report looking at it. */
  datatype Touch = Increments(date: int, increments: map<string, int>) | Glance(date: int)

  predicate InDateOrder(h: seq<Touch>) {
    forall i, j :: 0 <= i < j < |h| ==> h[i].date <= h[j].date
  }

  function Run(h: seq<Touch>): Ledger {
    if h == [] then NEW
    else
      Touched(Run(h[..|h| - 1]), h[|h| - 1])
  }

  function Touched(l: Ledger, t: Touch): Ledger {
    match t
    case Increments(date, increments) => Update(l, increments, date)
    case Glance(date) => Archive(l, date)
  }

  /** What an update adds to a counter: nothing if the increment is missing or not positive. */
  function Gain(increments: map<string, int>, key: string): nat {
    var n := Get(increments, key).GetOr(0);
    if n > 0 then n else 0
  }

  /** All positive increments of a counter made on a date. */
  function Sum(h: seq<Touch>, date: int, key: string): nat {
    if h == [] then 0
    else
      var last := h[|h| - 1];
      Sum(h[..|h| - 1], date, key)
      + (if last.Increments? && last.date == date then Gain(last.increments, key) else 0)
  }

  /** The archive has only completed days, and the current day's entry, if any, equals the counters. */
  ghost predicate Consistent(l: Ledger, today: int) {
    && (l.usageDate.Some? ==> l.usageDate.value <= today)
    && (l.usageDate.None? ==> l.archive == map[] && l.usage == map[])
    && (forall d :: d in l.archive ==> l.usageDate.Some? && d <= l.usageDate.value)
    && (l.usageDate.Some? && l.usageDate.value in l.archive ==>
          l.archivedDate == l.usageDate && l.archive[l.usageDate.value] == l.usage && l.usageDate.value < today)
    && (l.archivedDate.Some? ==> l.archivedDate.value in l.archive)
  }

  /** The total of a date is in the live counters if it is their date, else in the archive. */
  function Recorded(l: Ledger, date: int): Counters {
    if l.usageDate == Some(date) then l.usage else Archived(l, date)
  }

  /** After the last touch every earlier date is in the archive. */
  ghost predicate PastArchived(l: Ledger, today: int) {
    forall d :: d < today ==> Archived(l, d) == Recorded(l, d)
  }

  /** Every date's increments are recorded once. */
  ghost predicate Totalled(h: seq<Touch>) {
    forall date, key :: Sum(h, date, key) == Count(Recorded(Run(h), date), key)
  }

  lemma ArchiveKeeps(l: Ledger, today: int)
    requires Consistent(l, today)
    ensures var a := Archive(l, today);
            Consistent(a, today) && PastArchived(a, today) && forall d :: Recorded(a, d) == Recorded(l, d)
  {
  }

  lemma UpdateKeeps(l: Ledger, increments: map<string, int>, today: int)
    requires Consistent(l, today)
    ensures var u := Update(l, increments, today);
            && Consistent(u, today) && PastArchived(u, today) && u.usageDate == Some(today)
            && (forall d :: d != today ==> Recorded(u, d) == Recorded(l, d))
            && (forall k :: Count(Recorded(u, today), k) == Count(Recorded(l, today), k) + Gain(increments, k))
  {
    ArchiveKeeps(l, today);
  }

  lemma LaterStaysConsistent(l: Ledger, today: int, later: int)
    requires Consistent(l, today) && today <= later
    ensures Consistent(l, later)
  {
  }

  /** Nothing is lost or counted twice at any rollover: every date's increments are recorded once, in
      the archive for every date before the last touch. */
  lemma {:induction false} Conservation(h: seq<Touch>)
    requires InDateOrder(h) && h != []
    ensures Consistent(Run(h), h[|h| - 1].date) && PastArchived(Run(h), h[|h| - 1].date)
    ensures Totalled(h)
  {
    var before, last := h[..|h| - 1], h[|h| - 1];
    if before != [] {
      Conservation(before);
      LaterStaysConsistent(Run(before), before[|before| - 1].date, last.date);
    }
    ConservationStep(h);
  }

  lemma ConservationStep(h: seq<Touch>)
    requires h != [] && Consistent(Run(h[..|h| - 1]), h[|h| - 1].date)
    requires Totalled(h[..|h| - 1])
    ensures Consistent(Run(h), h[|h| - 1].date) && PastArchived(Run(h), h[|h| - 1].date)
    ensures Totalled(h)
  {
    var before, last := Run(h[..|h| - 1]), h[|h| - 1];
    match last {
      case Increments(date, increments) => UpdateKeeps(before, increments, date);
      case Glance(date) => ArchiveKeeps(before, date);
    }
    forall date, key ensures Sum(h, date, key) == Count(Recorded(Run(h), date), key) {
      assert Sum(h[..|h| - 1], date, key) == Count(Recorded(before, date), key);
    }
  }

  predicate Positive(c: Counters) {
    forall k :: k in c ==> c[k] > 0
  }

  /** Nothing without a count is ever stored, and no empty entry archived. */
  lemma {:induction false} RunIsPositive(h: seq<Touch>)
    ensures Positive(Run(h).usage)
    ensures forall d :: d in Run(h).archive ==> Positive(Run(h).archive[d]) && Run(h).archive[d] != map[]
  {
    if h != [] {
      RunIsPositive(h[..|h| - 1]);
    }
  }

  /** For a past date the archive entry alone is the sum of that date's increments. */
  lemma PastArchiveIsSum(h: seq<Touch>, date: int, key: string)
    requires InDateOrder(h) && h != [] && date < h[|h| - 1].date
    ensures Count(Archived(Run(h), date), key) == Sum(h, date, key)
  {
    Conservation(h);
  }

  /** Looking again on the same day changes nothing. */
  lemma ArchivingIsIdempotent(l: Ledger, today: int)
    ensures Archive(Archive(l, today), today) == Archive(l, today)
  {
  }

  // ---------------------------------------------------------------- the fleet

  function Current(l: Ledger, today: int): Counters {
    if l.usageDate == Some(today) then l.usage else map[]
  }

  /** What the report adds up: live counters for today, the archive for other days. */
  function Shown(l: Ledger, date: int, today: int): Counters {
    if date == today then Current(l, today) else Archived(l, date)
  }

  function FleetSum(histories: seq<seq<Touch>>, date: int, key: string): nat {
    if histories == [] then 0
    else FleetSum(histories[..|histories| - 1], date, key) + Sum(histories[|histories| - 1], date, key)
  }

  /** After a report each entity's last touch is that report. */
  ghost predicate Reported(h: seq<Touch>, today: int) {
    h != [] && InDateOrder(h) && h[|h| - 1] == Glance(today)
  }

  /** What a report shows for an entity it has looked at, for any date, is the sum of that date. */
  lemma ShownIsSum(h: seq<Touch>, date: int, today: int, key: string)
    requires Reported(h, today) && date <= today
    ensures Count(Shown(Run(h), date, today), key) == Sum(h, date, key)
  {
    Conservation(h);
    assert Shown(Run(h), date, today) == Recorded(Run(h), date);
  }

  /** The ledger is the result of its entity's history, which has reached `clock`. */
  ghost predicate Follows(l: Ledger, h: seq<Touch>, clock: int) {
    l == Run(h) && InDateOrder(h) && (h != [] ==> h[|h| - 1].date <= clock)
  }

  lemma FollowsOn(l: Ledger, h: seq<Touch>, clock: int, t: Touch)
    requires Follows(l, h, clock) && clock <= t.date
    ensures Follows(l, h, t.date) && Follows(Touched(l, t), h + [t], t.date)
  {
    var all := h + [t];
    assert all[..|h|] == h && all[|h|] == t;
    assert Run(all) == Touched(l, t);
    hide Run, Touched;
    forall i, j | 0 <= i < j < |all| ensures all[i].date <= all[j].date {
      if j == |h| {
        assert all[i] == h[i] && h[i].date <= h[|h| - 1].date;
      } else {
        assert all[i] == h[i] && all[j] == h[j];
      }
    }
  }

  /** A row that has just been looked at shows today's sum. */
  lemma RowIsSum(l: Ledger, h: seq<Touch>, today: int)
    requires Follows(l, h, today) && h != [] && h[|h| - 1] == Glance(today)
    ensures forall key :: Count(Current(l, today), key) == Sum(h, today, key)
  {
    forall key ensures Count(Current(l, today), key) == Sum(h, today, key) {
      ShownIsSum(h, today, today, key);
    }
  }

  /** Totals are the sums of these entities for a date. */
  ghost predicate Total(totals: Counters, histories: seq<seq<Touch>>, date: int) {
    forall key :: Count(totals, key) == FleetSum(histories, date, key)
  }

  lemma OneMoreRow(totals: Counters, usage: Counters, histories: seq<seq<Touch>>, h: seq<Touch>, date: int)
    requires Total(totals, histories, date) && forall key :: Count(usage, key) == Sum(h, date, key)
    ensures Total(Add(totals, usage), histories + [h], date)
  {
    assert (histories + [h])[..|histories|] == histories;
    AddCounts(totals, usage);
    hide Add, Count, Sum;
    forall key ensures Count(Add(totals, usage), key) == FleetSum(histories + [h], date, key) {
      assert Count(totals, key) == FleetSum(histories, date, key);
    }
  }

  /** The dashboard's pass over all entities, and its daily totals. */
  class Fleet {
    var ledgers: seq<Ledger>
    ghost var histories: seq<seq<Touch>>
    ghost var clock: int

    constructor (today: int)
      ensures Valid() && ledgers == [] && clock == today
    {
      ledgers, histories, clock := [], [], today;
    }

    ghost predicate Valid()
      reads this
    {
      |ledgers| == |histories| && forall e :: 0 <= e < |ledgers| ==> Follows(ledgers[e], histories[e], clock)
    }

    method Enroll() returns (e: nat)
      requires Valid()
      modifies this
      ensures Valid() && clock == old(clock)
      ensures e == |old(ledgers)| && ledgers == old(ledgers) + [NEW] && histories == old(histories) + [[]]
    {
      e := |ledgers|;
      ledgers, histories := ledgers + [NEW], histories + [[]];
    }

    /** Write one entity's documents. */
    method Write(e: nat, l: Ledger, ghost t: Touch)
      requires Valid() && e < |ledgers| && clock <= t.date && l == Touched(ledgers[e], t)
      modifies this
      ensures Valid() && clock == t.date
      ensures ledgers == old(ledgers)[e := l] && histories == old(histories)[e := old(histories)[e] + [t]]
    {
      hide Follows, Touched;
      forall i | 0 <= i < |ledgers| ensures Follows(ledgers[i], histories[i], t.date) {
        FollowsOn(ledgers[i], histories[i], clock, t);
      }
      FollowsOn(ledgers[e], histories[e], clock, t);
      ledgers, histories, clock := ledgers[e := l], histories[e := histories[e] + [t]], t.date;
    }

    /** Counters go up as part of an endpoint's own write. */
    method CountUp(e: nat, increments: map<string, int>, today: int)
      requires Valid() && e < |ledgers| && clock <= today
      modifies this
      ensures Valid() && clock == today
      ensures histories == old(histories)[e := old(histories)[e] + [Increments(today, increments)]]
    {
      hide Follows, Update;
      Write(e, Update(ledgers[e], increments, today), Increments(today, increments));
    }

    /** One entity's row: archive what is complete, then read the live counters. */
    method Look(e: nat, today: int) returns (usage: Counters)
      requires Valid() && e < |ledgers| && clock <= today
      modifies this
      ensures Valid() && clock == today
      ensures histories == old(histories)[e := old(histories)[e] + [Glance(today)]]
      ensures forall key :: Count(usage, key) == Sum(histories[e], today, key)
    {
      hide Follows, Archive, Count, Sum;
      Write(e, Archive(ledgers[e], today), Glance(today));
      usage := Current(ledgers[e], today);
      RowIsSum(ledgers[e], histories[e], today);
    }

    /** The first n entities have been looked at. */
    ghost predicate Looked(before: seq<seq<Touch>>, n: nat, today: int)
      reads this
    {
      && Valid() && clock == today && n <= |before| == |histories|
      && (forall i :: 0 <= i < n ==> histories[i] == before[i] + [Glance(today)])
      && (forall i :: n <= i < |before| ==> histories[i] == before[i])
    }

    /** All rows, and today's totals. */
    method Report(today: int) returns (totals: Counters)
      requires Valid() && clock <= today
      modifies this
      ensures Looked(old(histories), |old(histories)|, today)
      ensures Total(totals, histories, today)
    {
      hide Total, Follows;
      ghost var before := histories;
      totals := map[];
      Advance(today);
      for e := 0 to |ledgers|
        invariant |ledgers| == |before| && Looked(before, e, today) && Total(totals, histories[..e], today)
      {
        totals := AddRow(e, today, totals, before);
      }
      assert histories[..|histories|] == histories;
    }

    ghost method Advance(today: int)
      requires Valid() && clock <= today
      modifies this`clock
      ensures Looked(histories, 0, today) && Total(map[], histories[..0], today)
    {
      forall i | 0 <= i < |ledgers| ensures Follows(ledgers[i], histories[i], today) {
        FollowsOn(ledgers[i], histories[i], clock, Glance(today));
      }
      clock := today;
    }

    method AddRow(e: nat, today: int, totals: Counters, ghost before: seq<seq<Touch>>) returns (sum: Counters)
      requires e < |before| && Looked(before, e, today) && Total(totals, histories[..e], today)
      modifies this
      ensures Looked(before, e + 1, today) && Total(sum, histories[..e + 1], today)
    {
      hide Total, Follows, Count, Sum, Add;
      ghost var earlier := histories[..e];
      var usage := Look(e, today);
      assert histories[..e + 1] == earlier + [histories[e]];
      OneMoreRow(totals, usage, earlier, histories[e], today);
      sum := Add(totals, usage);
    }

    /** The rollup of an earlier day: what the entities have in the archive for it. */
    method Rollup(date: int, today: int) returns (totals: Counters)
      requires Valid() && date < today && forall h :: h in histories ==> Reported(h, today)
      ensures Total(totals, histories, date)
    {
      totals := map[];
      assert histories[..|histories|] == histories;
      for e := 0 to |ledgers|
        invariant Total(totals, histories[..e], date)
      {
        var usage := Archived(ledgers[e], date);
        forall key ensures Count(usage, key) == Sum(histories[e], date, key) {
          ShownIsSum(histories[e], date, today, key);
        }
        assert histories[..e + 1] == histories[..e] + [histories[e]];
        OneMoreRow(totals, usage, histories[..e], histories[e], date);
        totals := Add(totals, usage);
      }
    }
  }
}
