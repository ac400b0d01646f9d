/**
  Live updates of pbxsense_agent/live.py and the `/live` loop of pbxsense_agent/main.py: the difference
  between two payloads as events, and what a client that applies them in order ends up with.
 */
module LiveDiff {
  import opened Common

  /** An entry of a collection: its identifying field and everything else. */
  datatype Item = Item(key: string, body: string)

  datatype Collection = Signals | People | Trunks | Queues

  /** The payload; `heading` is the greeting, the mood and the relay status, which no event carries. */
  datatype Home = Home(
    heading: string, connection: string, now: string, calls: string,
    signals: seq<Item>, people: seq<Item>, trunks: seq<Item>, queues: seq<Item>)
  {
    function Of(c: Collection): seq<Item> {
      match c
      case Signals => signals
      case People => people
      case Trunks => trunks
      case Queues => queues
    }
  }

  datatype Message =
    | HomeSnapshot(home: Home)
    | ConnectionUpdated(connection: string)
    | CallUpdated(now: string)
    | CallsUpdated(calls: string)
    | Created(target: Collection, item: Item)
    | Updated(target: Collection, item: Item)
    | Removed(target: Collection, key: string)

  type Table = map<string, Item>

  /** The entries by their key, the last one of a key winning; entries without a key are skipped. */
  function ByKey(items: seq<Item>): Table {
    if items == [] then map[]
    else
      var before, last := ByKey(items[..|items| - 1]), items[|items| - 1];
      if last.key == "" then before else before[last.key := last]
  }

  /** The entry has a key and is not what was there before. */
  predicate Changed(prev: Table, item: Item) {
    item.key != "" && Get(prev, item.key) != Some(item)
  }

  /** The event of a changed entry.  People, trunks and queues have one event type for both cases. */
  function ItemEvent(target: Collection, prev: Table, item: Item): Message {
    if item.key !in prev && target == Signals then Created(target, item) else Updated(target, item)
  }

  function CollectionEvents(target: Collection, prev: Table, cur: seq<Item>): seq<Message> {
    if cur == [] then []
    else
      var before, last := CollectionEvents(target, prev, cur[..|cur| - 1]), cur[|cur| - 1];
      if Changed(prev, last) then before + [ItemEvent(target, prev, last)] else before
  }

  function RemovedEvents(target: Collection, prev: seq<Item>, kept: set<string>): seq<Message> {
    if prev == [] then []
    else
      var before, last := RemovedEvents(target, prev[..|prev| - 1], kept), prev[|prev| - 1];
      if last.key != "" && last.key !in kept then before + [Removed(target, last.key)] else before
  }

  function HomeEvents(prev: Home, cur: Home): seq<Message> {
    (if prev.connection != cur.connection then [ConnectionUpdated(cur.connection)] else [])
    + (if prev.now != cur.now then [CallUpdated(cur.now)] else [])
    + CollectionEvents(Signals, ByKey(prev.signals), cur.signals)
    + RemovedEvents(Signals, prev.signals, ByKey(cur.signals).Keys)
    + (if prev.calls != cur.calls then [CallsUpdated(cur.calls)] else [])
    + CollectionEvents(People, ByKey(prev.people), cur.people)
    + CollectionEvents(Trunks, ByKey(prev.trunks), cur.trunks)
    + CollectionEvents(Queues, ByKey(prev.queues), cur.queues)
  }

  // ---------------------------------------------------------------- the code

  method CollectEvents(target: Collection, prev: seq<Item>, cur: seq<Item>) returns (events: seq<Message>)
    ensures events == CollectionEvents(target, ByKey(prev), cur)
  {
    var previous := Index(prev);
    events := [];
    for i := 0 to |cur|
      invariant events == CollectionEvents(target, previous, cur[..i])
    {
      assert cur[..i + 1][..i] == cur[..i];
      var item := cur[i];
      if item.key != "" {
        if item.key !in previous {
          events := events + [if target == Signals then Created(target, item) else Updated(target, item)];
        } else if previous[item.key] != item {
          events := events + [Updated(target, item)];
        }
      }
    }
    assert cur[..|cur|] == cur;
  }

  method Index(items: seq<Item>) returns (table: Table)
    ensures table == ByKey(items)
  {
    table := map[];
    for i := 0 to |items|
      invariant table == ByKey(items[..i])
    {
      assert items[..i + 1][..i] == items[..i];
      if items[i].key != "" {
        table := table[items[i].key := items[i]];
      }
    }
    assert items[..|items|] == items;
  }

  /** The whole difference, in the order the code appends it. */
  method HomeLiveEvents(prev: Home, cur: Home) returns (events: seq<Message>)
    ensures events == HomeEvents(prev, cur)
  {
    hide CollectionEvents, RemovedEvents, ByKey;
    events := [];
    if prev.connection != cur.connection {
      events := events + [ConnectionUpdated(cur.connection)];
    }
    if prev.now != cur.now {
      events := events + [CallUpdated(cur.now)];
    }
    var changed := CollectEvents(Signals, prev.signals, cur.signals);
    events := events + changed + RemovedEvents(Signals, prev.signals, ByKey(cur.signals).Keys);
    if prev.calls != cur.calls {
      events := events + [CallsUpdated(cur.calls)];
    }
    changed := CollectEvents(People, prev.people, cur.people);
    events := events + changed;
    changed := CollectEvents(Trunks, prev.trunks, cur.trunks);
    events := events + changed;
    changed := CollectEvents(Queues, prev.queues, cur.queues);
    events := events + changed;
  }

  // ---------------------------------------------------------------- a client

  /** What a message does to the table a client keeps for a collection. */
  function Effect(table: Table, c: Collection, m: Message): Table {
    match m
    case HomeSnapshot(home) => ByKey(home.Of(c))
    case Created(target, item) => if target == c then table[item.key := item] else table
    case Updated(target, item) => if target == c then table[item.key := item] else table
    case Removed(target, key) => if target == c then table - {key} else table
    case _ => table
  }

  datatype Texts = Texts(heading: string, connection: string, now: string, calls: string)

  function TextsOf(home: Home): Texts {
    Texts(home.heading, home.connection, home.now, home.calls)
  }

  function TextEffect(t: Texts, m: Message): Texts {
    match m
    case HomeSnapshot(home) => TextsOf(home)
    case ConnectionUpdated(connection) => t.(connection := connection)
    case CallUpdated(now) => t.(now := now)
    case CallsUpdated(calls) => t.(calls := calls)
    case _ => t
  }

  datatype Client = Client(texts: Texts, signals: Table, people: Table, trunks: Table, queues: Table)
  {
    function Of(c: Collection): Table {
      match c
      case Signals => signals
      case People => people
      case Trunks => trunks
      case Queues => queues
    }

    function Receive(m: Message): Client {
      Client(TextEffect(texts, m), Effect(signals, Signals, m), Effect(people, People, m),
             Effect(trunks, Trunks, m), Effect(queues, Queues, m))
    }
  }

  function Replay(c: Client, ms: seq<Message>): Client {
    if ms == [] then c else Replay(c, ms[..|ms| - 1]).Receive(ms[|ms| - 1])
  }

  /** The effect of a run of messages on one table. */
  function Tabulate(table: Table, c: Collection, ms: seq<Message>): Table {
    if ms == [] then table else Effect(Tabulate(table, c, ms[..|ms| - 1]), c, ms[|ms| - 1])
  }

  function Retext(t: Texts, ms: seq<Message>): Texts {
    if ms == [] then t else TextEffect(Retext(t, ms[..|ms| - 1]), ms[|ms| - 1])
  }

  lemma {:induction false} ReplayTabulates(client: Client, c: Collection, ms: seq<Message>)
    ensures Replay(client, ms).Of(c) == Tabulate(client.Of(c), c, ms)
    ensures Replay(client, ms).texts == Retext(client.texts, ms)
  {
    if ms != [] {
      ReplayTabulates(client, c, ms[..|ms| - 1]);
    }
  }

  lemma {:induction false} TabulateConcat(table: Table, c: Collection, a: seq<Message>, b: seq<Message>)
    ensures Tabulate(table, c, a + b) == Tabulate(Tabulate(table, c, a), c, b)
  {
    if b == [] {
      assert a + b == a;
    } else {
      assert (a + b)[..|a + b| - 1] == a + b[..|b| - 1];
      TabulateConcat(table, c, a, b[..|b| - 1]);
    }
  }

  lemma TabulateOne(table: Table, c: Collection, ms: seq<Message>, m: Message)
    ensures Tabulate(table, c, ms + [m]) == Effect(Tabulate(table, c, ms), c, m)
  {
  }

  lemma {:induction false} RetextConcat(t: Texts, a: seq<Message>, b: seq<Message>)
    ensures Retext(t, a + b) == Retext(Retext(t, a), b)
  {
    if b == [] {
      assert a + b == a;
    } else {
      assert (a + b)[..|a + b| - 1] == a + b[..|b| - 1];
      RetextConcat(t, a, b[..|b| - 1]);
    }
  }

  lemma RetextOne(t: Texts, m: Message)
    ensures Retext(t, [m]) == TextEffect(t, m) && Retext(t, []) == t
  {
  }

  predicate AboutItems(m: Message) {
    m.Created? || m.Updated? || m.Removed?
  }

  lemma {:induction false} RetextItems(t: Texts, ms: seq<Message>)
    requires forall m :: m in ms ==> AboutItems(m)
    ensures Retext(t, ms) == t
  {
    if ms != [] {
      RetextItems(t, ms[..|ms| - 1]);
      assert ms[|ms| - 1] in ms;
    }
  }

  /** The message is an event about another part of the payload. */
  predicate Elsewhere(m: Message, c: Collection) {
    match m
    case HomeSnapshot(_) => false
    case Created(target, _) => target != c
    case Updated(target, _) => target != c
    case Removed(target, _) => target != c
    case _ => true
  }

  lemma {:induction false} TabulateElsewhere(table: Table, c: Collection, ms: seq<Message>)
    requires forall m :: m in ms ==> Elsewhere(m, c)
    ensures Tabulate(table, c, ms) == table
  {
    if ms != [] {
      TabulateElsewhere(table, c, ms[..|ms| - 1]);
      assert ms[|ms| - 1] in ms;
    }
  }

  lemma {:induction false} CollectionEventsTarget(target: Collection, prev: Table, cur: seq<Item>)
    ensures forall m :: m in CollectionEvents(target, prev, cur) ==> (m.Created? || m.Updated?) && m.target == target
  {
    if cur != [] {
      CollectionEventsTarget(target, prev, cur[..|cur| - 1]);
    }
  }

  lemma {:induction false} RemovedEventsTarget(target: Collection, prev: seq<Item>, kept: set<string>)
    ensures forall m :: m in RemovedEvents(target, prev, kept) ==> m.Removed? && m.target == target
  {
    if prev != [] {
      RemovedEventsTarget(target, prev[..|prev| - 1], kept);
    }
  }

  // ---------------------------------------------------------------- one difference

  /** The last entry of a key that is not what was there before. */
  function LastChanged(prev: Table, cur: seq<Item>, key: string): Option<Item> {
    if cur == [] then None
    else
      var last := cur[|cur| - 1];
      if last.key == key && Changed(prev, last) then Some(last)
      else LastChanged(prev, cur[..|cur| - 1], key)
  }

  lemma {:induction false} CollectionEventsEffect(target: Collection, prev: Table, cur: seq<Item>, table: Table,
                                                  key: string)
    ensures Get(Tabulate(table, target, CollectionEvents(target, prev, cur)), key)
         == if LastChanged(prev, cur, key).Some? then LastChanged(prev, cur, key) else Get(table, key)
  {
    if cur != [] {
      var front, last := cur[..|cur| - 1], cur[|cur| - 1];
      CollectionEventsEffect(target, prev, front, table, key);
      CollectionEventsStep(target, prev, cur, table);
      hide Tabulate, CollectionEvents;
    }
  }

  lemma CollectionEventsStep(target: Collection, prev: Table, cur: seq<Item>, table: Table)
    requires cur != []
    ensures var front, last := cur[..|cur| - 1], cur[|cur| - 1];
            var before := Tabulate(table, target, CollectionEvents(target, prev, front));
            Tabulate(table, target, CollectionEvents(target, prev, cur))
            == if Changed(prev, last) then before[last.key := last] else before
  {
    hide Changed, Get;
    var events, item := CollectionEvents(target, prev, cur[..|cur| - 1]), cur[|cur| - 1];
    var m := ItemEvent(target, prev, item);
    assert forall t :: Effect(t, target, m) == t[item.key := item];
    hide Effect, ItemEvent;
    TabulateOne(table, target, events, m);
    hide Tabulate;
  }

  lemma {:induction false} RemovedEventsEffect(prev: seq<Item>, kept: set<string>, table: Table, key: string)
    ensures Get(Tabulate(table, Signals, RemovedEvents(Signals, prev, kept)), key)
         == if key in ByKey(prev) && key !in kept then None else Get(table, key)
  {
    if prev != [] {
      var front, last := prev[..|prev| - 1], prev[|prev| - 1];
      RemovedEventsEffect(front, kept, table, key);
      RemovedEventsStep(prev, kept, table);
      hide Tabulate, RemovedEvents;
    }
  }

  lemma RemovedEventsStep(prev: seq<Item>, kept: set<string>, table: Table)
    requires prev != []
    ensures var front, last := prev[..|prev| - 1], prev[|prev| - 1];
            var before := Tabulate(table, Signals, RemovedEvents(Signals, front, kept));
            Tabulate(table, Signals, RemovedEvents(Signals, prev, kept))
            == if last.key != "" && last.key !in kept then before - {last.key} else before
  {
  }

  /** Any entry that is not what was there before is followed by, or is, a last one that is not either. */
  predicate Settled(prev: Table, cur: seq<Item>) {
    forall i :: 0 <= i < |cur| && Changed(prev, cur[i]) ==> Get(prev, cur[i].key) != Get(ByKey(cur), cur[i].key)
  }

  predicate DistinctKeys(items: seq<Item>) {
    forall i, j :: 0 <= i < j < |items| && items[i].key != "" ==> items[i].key != items[j].key
  }

  lemma {:induction false} ByKeyMeaning(items: seq<Item>, key: string)
    ensures key in ByKey(items) ==>
              exists i :: 0 <= i < |items| && items[i] == ByKey(items)[key] && items[i].key == key != ""
    ensures forall i :: 0 <= i < |items| && items[i].key == key != "" ==> key in ByKey(items)
  {
    if items != [] {
      ByKeyMeaning(items[..|items| - 1], key);
    }
  }

  lemma DistinctIsSettled(prev: Table, cur: seq<Item>)
    requires DistinctKeys(cur)
    ensures Settled(prev, cur)
  {
    forall i | 0 <= i < |cur| && cur[i].key != "" ensures Get(ByKey(cur), cur[i].key) == Some(cur[i]) {
      ByKeyMeaning(cur, cur[i].key);
    }
  }

  /** With the last entry of a key: either it is the last changed one, or it equals what was there. */
  lemma {:induction false} LastChangedMeaning(prev: Table, cur: seq<Item>, key: string)
    ensures Get(ByKey(cur), key) != Get(prev, key) && key in ByKey(cur) ==>
              LastChanged(prev, cur, key) == Get(ByKey(cur), key)
    ensures LastChanged(prev, cur, key).Some? ==>
              exists i :: 0 <= i < |cur| && cur[i].key == key && Changed(prev, cur[i])
                          && LastChanged(prev, cur, key) == Some(cur[i])
    ensures forall i :: 0 <= i < |cur| && cur[i].key == key && Changed(prev, cur[i]) ==>
                          LastChanged(prev, cur, key).Some?
  {
    if cur != [] {
      LastChangedMeaning(prev, cur[..|cur| - 1], key);
    }
  }

  /** A client that has what was there before gets the old table overlaid by the new entries exactly
      when the entries are settled. */
  lemma OverlayIffSettled(target: Collection, prev: Table, cur: seq<Item>, table: Table)
    requires forall k :: k in prev ==> Get(table, k) == Get(prev, k)
    ensures Tabulate(table, target, CollectionEvents(target, prev, cur)) == table + ByKey(cur) <==> Settled(prev, cur)
  {
    var after := Tabulate(table, target, CollectionEvents(target, prev, cur));
    if Settled(prev, cur) {
      forall k ensures Get(after, k) == Get(table + ByKey(cur), k) {
        CollectionEventsEffect(target, prev, cur, table, k);
        LastChangedMeaning(prev, cur, k);
        ByKeyMeaning(cur, k);
      }
      SameTable(after, table + ByKey(cur));
    } else {
      var i :| 0 <= i < |cur| && Changed(prev, cur[i]) && Get(prev, cur[i].key) == Get(ByKey(cur), cur[i].key);
      var k := cur[i].key;
      CollectionEventsEffect(target, prev, cur, table, k);
      LastChangedMeaning(prev, cur, k);
      ByKeyMeaning(cur, k);
      assert Get(after, k) != Get(table + ByKey(cur), k);
    }
  }

  lemma SameTable(a: Table, b: Table)
    requires forall k :: Get(a, k) == Get(b, k)
    ensures a == b
  {
    assert forall k :: k in a <==> Get(a, k).Some?;
    assert forall k :: k in b <==> Get(b, k).Some?;
    forall k | k in a ensures k in b && a[k] == b[k] {
      assert Get(a, k) == Get(b, k);
    }
    forall k | k in b ensures k in a {
      assert Get(a, k) == Get(b, k);
    }
  }

  // ---------------------------------------------------------------- one comparison

  /** The events of a comparison, as far as one collection goes. */
  lemma ComparisonTable(table: Table, c: Collection, prev: Home, cur: Home)
    ensures var changed := Tabulate(table, c, CollectionEvents(c, ByKey(prev.Of(c)), cur.Of(c)));
            Tabulate(table, c, HomeEvents(prev, cur))
            == if c != Signals then changed
               else Tabulate(changed, c, RemovedEvents(c, prev.signals, ByKey(cur.signals).Keys))
  {
    hide CollectionEvents, RemovedEvents, Tabulate, ByKey;
    var a := (if prev.connection != cur.connection then [ConnectionUpdated(cur.connection)] else [])
             + (if prev.now != cur.now then [CallUpdated(cur.now)] else []);
    var signals := CollectionEvents(Signals, ByKey(prev.signals), cur.signals);
    var removed := RemovedEvents(Signals, prev.signals, ByKey(cur.signals).Keys);
    var calls := if prev.calls != cur.calls then [CallsUpdated(cur.calls)] else [];
    var people := CollectionEvents(People, ByKey(prev.people), cur.people);
    var trunks := CollectionEvents(Trunks, ByKey(prev.trunks), cur.trunks);
    var queues := CollectionEvents(Queues, ByKey(prev.queues), cur.queues);
    CollectionEventsTarget(Signals, ByKey(prev.signals), cur.signals);
    RemovedEventsTarget(Signals, prev.signals, ByKey(cur.signals).Keys);
    CollectionEventsTarget(People, ByKey(prev.people), cur.people);
    CollectionEventsTarget(Trunks, ByKey(prev.trunks), cur.trunks);
    CollectionEventsTarget(Queues, ByKey(prev.queues), cur.queues);
    var none := Tabulate(table, c, a);
    TabulateElsewhere(table, c, a);
    Segment(table, c, a, signals);
    Segment(table, c, a + signals, removed);
    Segment(table, c, a + signals + removed, calls);
    Segment(table, c, a + signals + removed + calls, people);
    Segment(table, c, a + signals + removed + calls + people, trunks);
    Segment(table, c, a + signals + removed + calls + people + trunks, queues);
    assert HomeEvents(prev, cur) == a + signals + removed + calls + people + trunks + queues;
  }

  lemma Segment(table: Table, c: Collection, before: seq<Message>, ms: seq<Message>)
    ensures Tabulate(table, c, before + ms) == Tabulate(Tabulate(table, c, before), c, ms)
    ensures (forall m :: m in ms ==> Elsewhere(m, c)) ==> Tabulate(table, c, before + ms) == Tabulate(table, c, before)
  {
    TabulateConcat(table, c, before, ms);
    if forall m :: m in ms ==> Elsewhere(m, c) {
      TabulateElsewhere(Tabulate(table, c, before), c, ms);
    }
  }

  /** A client that shows the old signals shows the new ones afterwards, removals included, exactly
      when the new entries are settled; distinct identifiers are enough. */
  lemma SignalsExactIff(table: Table, prev: Home, cur: Home)
    requires table == ByKey(prev.signals)
    ensures Tabulate(table, Signals, HomeEvents(prev, cur)) == ByKey(cur.signals)
       <==> Settled(ByKey(prev.signals), cur.signals)
    ensures DistinctKeys(cur.signals) ==> Settled(ByKey(prev.signals), cur.signals)
  {
    hide Settled, DistinctKeys, HomeEvents, Tabulate, ByKey;
    ComparisonTable(table, Signals, prev, cur);
    var before, shown := ByKey(prev.signals), ByKey(cur.signals);
    var changed := Tabulate(table, Signals, CollectionEvents(Signals, before, cur.signals));
    var after := Tabulate(changed, Signals, RemovedEvents(Signals, prev.signals, shown.Keys));
    OverlayIffSettled(Signals, before, cur.signals, table);
    forall k ensures Get(after, k) == if k in before && k !in shown then None else Get(changed, k) {
      RemovedEventsEffect(prev.signals, shown.Keys, changed, k);
    }
    forall k ensures k in changed ==> k in before || k in shown {
      ChangedKeys(before, cur.signals, table, k);
    }
    if changed == table + shown {
      SameTable(after, shown);
    } else if after == shown {
      forall k ensures Get(changed, k) == Get(table + shown, k) {
        ChangedKeys(before, cur.signals, table, k);
        assert Get(after, k) == Get(shown, k);
      }
      SameTable(changed, table + shown);
    }
    if DistinctKeys(cur.signals) {
      DistinctIsSettled(before, cur.signals);
    }
  }

  /** Only listed keys change. */
  lemma ChangedKeys(prev: Table, cur: seq<Item>, table: Table, key: string)
    ensures key !in ByKey(cur) ==>
              Get(Tabulate(table, Signals, CollectionEvents(Signals, prev, cur)), key) == Get(table, key)
  {
    CollectionEventsEffect(Signals, prev, cur, table, key);
    LastChangedMeaning(prev, cur, key);
    ByKeyMeaning(cur, key);
  }

  lemma {:induction false} CollectionEventsMembers(target: Collection, prev: Table, cur: seq<Item>, item: Item)
    ensures Created(target, item) in CollectionEvents(target, prev, cur) <==>
              target == Signals && item in cur && item.key != "" && item.key !in prev
    ensures Updated(target, item) in CollectionEvents(target, prev, cur) <==>
              item in cur && item.key != "" && (item.key in prev ==> prev[item.key] != item)
              && (target == Signals ==> item.key in prev)
  {
    if cur != [] {
      CollectionEventsMembers(target, prev, cur[..|cur| - 1], item);
      assert cur == cur[..|cur| - 1] + [cur[|cur| - 1]];
    }
  }

  /** A signal is announced as created exactly if no old one has its identifier, and as updated exactly if
      the last old one with it was different. */
  lemma SignalEventsIff(prev: Home, cur: Home, item: Item)
    requires item.key != ""
    ensures Created(Signals, item) in HomeEvents(prev, cur) <==>
              item in cur.signals && forall p :: p in prev.signals ==> p.key != item.key
    ensures Updated(Signals, item) in HomeEvents(prev, cur) <==>
              item in cur.signals && item.key in ByKey(prev.signals) && ByKey(prev.signals)[item.key] != item
  {
    hide CollectionEvents, RemovedEvents, ByKey;
    CollectionEventsMembers(Signals, ByKey(prev.signals), cur.signals, item);
    RemovedEventsTarget(Signals, prev.signals, ByKey(cur.signals).Keys);
    CollectionEventsTarget(People, ByKey(prev.people), cur.people);
    CollectionEventsTarget(Trunks, ByKey(prev.trunks), cur.trunks);
    CollectionEventsTarget(Queues, ByKey(prev.queues), cur.queues);
    ByKeyMeaning(prev.signals, item.key);
  }

  /** Two signals under one identifier: an unchanged payload makes the client show the first of them. */
  lemma DuplicateIdentifierFlips(home: Home, first: Item, second: Item)
    requires home.signals == [first, second] && first.key == second.key != "" && first != second
    ensures Get(ByKey(home.signals), first.key) == Some(second)
    ensures Get(Tabulate(ByKey(home.signals), Signals, HomeEvents(home, home)), first.key) == Some(first)
  {
    assert [first, second][..1] == [first] && [first][..0] == [];
    assert ByKey([first, second]) == ByKey([first])[second.key := second];
    var table := ByKey(home.signals);
    hide ByKey, HomeEvents;
    ComparisonTable(table, Signals, home, home);
    assert LastChanged(table, [first, second], first.key) == Some(first);
    CollectionEventsEffect(Signals, table, home.signals, table, first.key);
    var changed := Tabulate(table, Signals, CollectionEvents(Signals, table, home.signals));
    RemovedEventsEffect(home.signals, table.Keys, changed, first.key);
  }

  /** A client whose table includes the old entries gets it overlaid by the new ones; nothing is removed. */
  lemma OthersAreOverlaid(table: Table, c: Collection, prev: Home, cur: Home)
    requires c != Signals && DistinctKeys(cur.Of(c))
    requires forall k :: k in ByKey(prev.Of(c)) ==> Get(table, k) == Get(ByKey(prev.Of(c)), k)
    ensures Tabulate(table, c, HomeEvents(prev, cur)) == table + ByKey(cur.Of(c))
  {
    ComparisonTable(table, c, prev, cur);
    DistinctIsSettled(ByKey(prev.Of(c)), cur.Of(c));
    OverlayIffSettled(c, ByKey(prev.Of(c)), cur.Of(c), table);
  }

  // ---------------------------------------------------------------- a session

  /** The loop sends a full payload when the payload changed and no event says how. */
  predicate Resends(prev: Home, cur: Home) {
    prev != cur && HomeEvents(prev, cur) == []
  }

  function Messages(prev: Home, cur: Home): seq<Message> {
    if Resends(prev, cur) then [HomeSnapshot(cur)] else HomeEvents(prev, cur)
  }

  lemma {:induction false} NothingChanged(target: Collection, prev: Table, cur: seq<Item>)
    requires forall i :: 0 <= i < |cur| ==> !Changed(prev, cur[i])
    ensures CollectionEvents(target, prev, cur) == []
  {
    if cur != [] {
      NothingChanged(target, prev, cur[..|cur| - 1]);
    }
  }

  lemma {:induction false} NothingRemoved(target: Collection, prev: seq<Item>, kept: set<string>)
    requires forall i :: 0 <= i < |prev| && prev[i].key != "" ==> prev[i].key in kept
    ensures RemovedEvents(target, prev, kept) == []
  {
    if prev != [] {
      NothingRemoved(target, prev[..|prev| - 1], kept);
    }
  }

  /** An unchanged payload sends nothing; a changed one always sends something, and whatever there is an
      event for is sent as that event. */
  lemma SendsOnlyChanges(prev: Home, cur: Home)
    ensures prev != cur ==> Messages(prev, cur) != []
    ensures (forall c: Collection :: DistinctKeys(cur.Of(c))) ==> Messages(cur, cur) == []
    ensures forall m :: m in HomeEvents(prev, cur) ==> m in Messages(prev, cur)
  {
    if forall c: Collection :: DistinctKeys(cur.Of(c)) {
      forall c: Collection ensures CollectionEvents(c, ByKey(cur.Of(c)), cur.Of(c)) == [] {
        forall i | 0 <= i < |cur.Of(c)| ensures !Changed(ByKey(cur.Of(c)), cur.Of(c)[i]) {
          ByKeyMeaning(cur.Of(c), cur.Of(c)[i].key);
        }
        NothingChanged(c, ByKey(cur.Of(c)), cur.Of(c));
      }
      forall i | 0 <= i < |cur.signals| ensures cur.signals[i].key != "" ==> cur.signals[i].key in ByKey(cur.signals) {
        ByKeyMeaning(cur.signals, cur.signals[i].key);
      }
      NothingRemoved(Signals, cur.signals, ByKey(cur.signals).Keys);
      assert CollectionEvents(Signals, ByKey(cur.Of(Signals)), cur.Of(Signals)) == [];
      assert CollectionEvents(People, ByKey(cur.Of(People)), cur.Of(People)) == [];
      assert CollectionEvents(Trunks, ByKey(cur.Of(Trunks)), cur.Of(Trunks)) == [];
      assert CollectionEvents(Queues, ByKey(cur.Of(Queues)), cur.Of(Queues)) == [];
    }
  }

  function Fresh(home: Home): Client {
    Client(TextsOf(home), ByKey(home.signals), ByKey(home.people), ByKey(home.trunks), ByKey(home.queues))
  }

  /** A client of one connection, after the payloads the loop has compared so far. */
  function Session(payloads: seq<Home>): Client
    requires payloads != []
  {
    var n := |payloads| - 1;
    if n == 0 then Fresh(payloads[0])
    else Replay(Session(payloads[..n]), Messages(payloads[n - 1], payloads[n]))
  }

  /** Where the last full payload was sent. */
  function LastFull(payloads: seq<Home>): (k: nat)
    requires payloads != []
    ensures k < |payloads|
  {
    var n := |payloads| - 1;
    if n == 0 || Resends(payloads[n - 1], payloads[n]) then n else LastFull(payloads[..n])
  }

  /** The entries of a collection over some payloads, the latest of a key winning. */
  function Overlay(payloads: seq<Home>, c: Collection): Table {
    if payloads == [] then map[]
    else Overlay(payloads[..|payloads| - 1], c) + ByKey(payloads[|payloads| - 1].Of(c))
  }

  ghost predicate AllDistinct(payloads: seq<Home>) {
    forall h, c: Collection :: h in payloads ==> DistinctKeys(h.Of(c))
  }

  lemma FreshReplay(client: Client, home: Home)
    ensures Replay(client, [HomeSnapshot(home)]) == Fresh(home)
  {
  }

  /** What a client shows: the last payload's signals, connection, current call and calls; of people,
      trunks and queues the latest of everything since the last full payload; and the heading of
      that payload. */
  ghost predicate Shows(client: Client, payloads: seq<Home>)
    requires payloads != []
  {
    var last, full := payloads[|payloads| - 1], LastFull(payloads);
    && client.signals == ByKey(last.signals)
    && client.texts == TextsOf(last).(heading := payloads[full].heading)
    && forall c: Collection :: c != Signals ==> client.Of(c) == Overlay(payloads[full..], c)
  }

  /** Over a whole connection with distinct identifiers, that is what applying the messages gives. */
  lemma {:induction false} SessionMeaning(payloads: seq<Home>)
    requires payloads != [] && AllDistinct(payloads)
    ensures Shows(Session(payloads), payloads)
  {
    var n := |payloads| - 1;
    if n == 0 || Resends(payloads[n - 1], payloads[n]) {
      FullPayloadShows(payloads);
    } else {
      assert AllDistinct(payloads[..n]) by {
        assert forall h :: h in payloads[..n] ==> h in payloads;
      }
      SessionMeaning(payloads[..n]);
      EventsShow(Session(payloads[..n]), payloads);
    }
  }

  lemma OverlayOfOne(home: Home, c: Collection)
    ensures Overlay([home], c) == Fresh(home).Of(c)
  {
  }

  lemma FullPayloadShows(payloads: seq<Home>)
    requires payloads != []
    requires var n := |payloads| - 1; n == 0 || Resends(payloads[n - 1], payloads[n])
    ensures Shows(Session(payloads), payloads)
  {
    var n := |payloads| - 1;
    if n > 0 {
      FreshReplay(Session(payloads[..n]), payloads[n]);
      assert Session(payloads) == Replay(Session(payloads[..n]), [HomeSnapshot(payloads[n])]);
    }
    assert Session(payloads) == Fresh(payloads[n]) && LastFull(payloads) == n;
    hide Session, LastFull, Replay, Resends, ByKey, Overlay;
    assert payloads[n..] == [payloads[n]];
    forall c: Collection ensures Overlay([payloads[n]], c) == Fresh(payloads[n]).Of(c) {
      OverlayOfOne(payloads[n], c);
    }
  }

  /** One more payload since the last full one. */
  lemma OverlayStep(payloads: seq<Home>, full: nat, c: Collection)
    requires full < |payloads| - 1
    ensures var n := |payloads| - 1;
            && Overlay(payloads[full..], c) == Overlay(payloads[..n][full..], c) + ByKey(payloads[n].Of(c))
            && forall k :: k in ByKey(payloads[n - 1].Of(c)) ==>
                 Get(Overlay(payloads[..n][full..], c), k) == Get(ByKey(payloads[n - 1].Of(c)), k)
  {
    hide ByKey;
    var n := |payloads| - 1;
    var since, before := payloads[full..], payloads[..n][full..];
    assert |since| == n - full + 1 && since[n - full] == payloads[n];
    assert |before| == n - full && before[n - full - 1] == payloads[n - 1];
    assert since[..n - full] == before;
  }

  lemma EventsShow(client: Client, payloads: seq<Home>)
    requires |payloads| > 1 && AllDistinct(payloads)
    requires var n := |payloads| - 1; Shows(client, payloads[..n]) && !Resends(payloads[n - 1], payloads[n])
    ensures var n := |payloads| - 1; Shows(Replay(client, HomeEvents(payloads[n - 1], payloads[n])), payloads)
  {
    hide ByKey, HomeEvents, Tabulate, Replay, DistinctKeys, Retext;
    var n := |payloads| - 1;
    var front, prev, cur := payloads[..n], payloads[n - 1], payloads[n];
    var full := LastFull(front);
    assert LastFull(payloads) == full && prev == front[n - 1] && cur in payloads;
    hide LastFull, Resends, Overlay;
    var after := Replay(client, HomeEvents(prev, cur));
    ReplayTabulates(client, Signals, HomeEvents(prev, cur));
    SignalsExactIff(client.signals, prev, cur);
    assert DistinctKeys(cur.Of(Signals));
    ComparisonTexts(client.texts, prev, cur);
    forall c: Collection | c != Signals ensures after.Of(c) == Overlay(payloads[full..], c) {
      ReplayTabulates(client, c, HomeEvents(prev, cur));
      OverlayStep(payloads, full, c);
      assert DistinctKeys(cur.Of(c));
      OthersAreOverlaid(client.Of(c), c, prev, cur);
    }
  }

  /** Every entry of these payloads is still in the last one. */
  ghost predicate NothingGone(since: seq<Home>, c: Collection)
    requires since != []
  {
    forall h :: h in since ==> ByKey(h.Of(c)).Keys <= ByKey(since[|since| - 1].Of(c)).Keys
  }

  /** A client's table of people, trunks or queues is the server's exactly when nothing shown since the
      last full payload has gone. */
  lemma OthersExactIff(since: seq<Home>, c: Collection)
    requires since != []
    ensures Overlay(since, c) == ByKey(since[|since| - 1].Of(c)) <==> NothingGone(since, c)
  {
    hide ByKey;
    var home := since[|since| - 1];
    var before, last := Overlay(since[..|since| - 1], c), ByKey(home.Of(c));
    assert Overlay(since, c) == before + last;
    OverlayKeys(since, c);
    hide Overlay;
    assert home in since;
    if NothingGone(since, c) {
      forall k | k in before + last ensures k in last {
        var h :| h in since && k in ByKey(h.Of(c));
      }
      assert before + last == last;
    } else {
      var h :| h in since && !(ByKey(h.Of(c)).Keys <= last.Keys);
      var k :| k in ByKey(h.Of(c)) && k !in last;
      assert k in before + last;
    }
  }

  lemma {:induction false} OverlayKeys(payloads: seq<Home>, c: Collection)
    ensures forall k :: k in Overlay(payloads, c) <==> exists h :: h in payloads && k in ByKey(h.Of(c))
  {
    if payloads != [] {
      var front, last := payloads[..|payloads| - 1], payloads[|payloads| - 1];
      OverlayKeys(front, c);
      hide ByKey;
      assert payloads == front + [last];
      assert forall h :: h in payloads <==> h in front || h == last;
    }
  }

  /** The texts a comparison has events for follow the payload; the heading does not. */
  lemma ComparisonTexts(t: Texts, prev: Home, cur: Home)
    requires t == TextsOf(prev).(heading := t.heading)
    ensures Retext(t, HomeEvents(prev, cur)) == TextsOf(cur).(heading := t.heading)
  {
    hide CollectionEvents, RemovedEvents, ByKey, Retext;
    var connection := if prev.connection != cur.connection then [ConnectionUpdated(cur.connection)] else [];
    var now := if prev.now != cur.now then [CallUpdated(cur.now)] else [];
    var signals := CollectionEvents(Signals, ByKey(prev.signals), cur.signals);
    var removed := RemovedEvents(Signals, prev.signals, ByKey(cur.signals).Keys);
    var calls := if prev.calls != cur.calls then [CallsUpdated(cur.calls)] else [];
    var people := CollectionEvents(People, ByKey(prev.people), cur.people);
    var trunks := CollectionEvents(Trunks, ByKey(prev.trunks), cur.trunks);
    var queues := CollectionEvents(Queues, ByKey(prev.queues), cur.queues);
    CollectionEventsTarget(Signals, ByKey(prev.signals), cur.signals);
    RemovedEventsTarget(Signals, prev.signals, ByKey(cur.signals).Keys);
    CollectionEventsTarget(People, ByKey(prev.people), cur.people);
    CollectionEventsTarget(Trunks, ByKey(prev.trunks), cur.trunks);
    CollectionEventsTarget(Queues, ByKey(prev.queues), cur.queues);
    var items, others := signals + removed, people + trunks + queues;
    assert HomeEvents(prev, cur) == (connection + now) + items + calls + others;
    RetextConcat(t, connection + now + items + calls, others);
    RetextConcat(t, connection + now + items, calls);
    RetextConcat(t, connection + now, items);
    RetextConcat(t, connection, now);
    var t1 := Retext(t, connection);
    RetextOne(t, ConnectionUpdated(cur.connection));
    assert t1 == t.(connection := cur.connection);
    var t2 := Retext(t1, now);
    RetextOne(t1, CallUpdated(cur.now));
    assert t2 == t1.(now := cur.now);
    RetextItems(t2, items);
    RetextOne(t2, CallsUpdated(cur.calls));
    assert Retext(t2, calls) == t2.(calls := cur.calls);
    RetextItems(Retext(t2, calls), others);
  }
}
