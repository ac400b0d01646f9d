/**
  The Agent's durable outbox (pbxsense_agent/relay.py): deduplication of Signals by
  fingerprint, the queue of unsent items, and the flush loop.

  `Agent` is the part of the identity file that matters here, together with three histories
  that the file does not hold: the rounds of Signals seen, everything ever queued, and everything
  ever settled (accepted by the relay or quarantined).  `Sound` says that the recorded
  fingerprints and the queued events are exactly those the rounds call for, and that nothing is
  lost between queue and settlement.
 */
module AgentOutbox {
  import opened Common

  datatype Signal = Signal(
    id: string, notificationId: Option<string>, state: string, category: string,
    importance: string, kind: string, text: string)

  datatype Item =
    | Event(eventId: string, signalId: string, text: string, category: string, importance: string)
    | Device(token: string, profile: string)

  /** What one request to the relay came back with. */
  datatype Reply = Accepted | Rejected(status: int) | Unreachable

  datatype Settlement = Settlement(item: Item, reply: Reply)

  datatype Rejection = Rejection(device: bool, status: int)

  datatype Agent = Agent(
    delivered: map<string, Signal>, outbox: seq<Item>, rejected: seq<Rejection>,
    queued: seq<Item>, settled: seq<Settlement>, rounds: seq<Round>)

  const FEED_ONLY_LIVE_CALL_KINDS: set<string> :=
    {"call_active", "pbx_live_calls_activity", "trunk_active", "trunk_call_active"}

  predicate ShouldRelay(s: Signal) {
    && s.state == "active"
    && s.category != "recommendation"
    && s.kind !in FEED_ONLY_LIVE_CALL_KINDS
    && (s.category == "activity" || s.importance == "attention" || s.importance == "important")
  }

  /** Everything about a Signal except its occurrence token. */
  function Fingerprint(s: Signal): Signal {
    s.(notificationId := None)
  }

  function EventOf(s: Signal): Item {
    Event(s.notificationId.GetOr(s.id), s.id, s.text, s.category, s.importance)
  }

  predicate Retryable(status: int) {
    status == 408 || status == 425 || status == 429 || status >= 500
  }

  predicate Final(r: Reply) {
    r.Accepted? || (r.Rejected? && !Retryable(r.status))
  }

  /** No answer, a timeout, "too early", the relay's own rate limit, or an error of the server. */
  predicate TryLater(r: Reply) {
    r.Unreachable? || (r.Rejected? && (r.status in {408, 425, 429} || r.status >= 500))
  }

  /** Exactly these replies leave an item in the outbox. */
  lemma FinalMeaning(r: Reply)
    ensures Final(r) <==> !TryLater(r)
  {
  }

  // ---------------------------------------------------------------- deduplication

  /** One call of `observe`, or the part of it that reached the file before a crash. */
  datatype Round = Round(active: set<string>, offered: seq<Signal>)

  function ActiveIds(signals: seq<Signal>): set<string> {
    set s | s in signals && s.state == "active" :: s.id
  }

  function Retain(delivered: map<string, Signal>, active: set<string>): map<string, Signal> {
    map id | id in delivered && id in active :: delivered[id]
  }

  predicate Fresh(delivered: map<string, Signal>, s: Signal) {
    ShouldRelay(s) && Get(delivered, s.id) != Some(Fingerprint(s))
  }

  function Note(delivered: map<string, Signal>, s: Signal): map<string, Signal> {
    if Fresh(delivered, s) then delivered[s.id := Fingerprint(s)] else delivered
  }

  function NoteAll(delivered: map<string, Signal>, signals: seq<Signal>): map<string, Signal> {
    if signals == [] then delivered
    else Note(NoteAll(delivered, signals[..|signals| - 1]), signals[|signals| - 1])
  }

  function DeliveredAfter(h: seq<Round>): map<string, Signal> {
    if h == [] then map[]
    else
      var last := h[|h| - 1];
      NoteAll(Retain(DeliveredAfter(h[..|h| - 1]), last.active), last.offered)
  }

  /** The fingerprint of the last eligible Signal named `id` among `signals`. */
  function LastEligible(signals: seq<Signal>, id: string): Option<Signal> {
    if signals == [] then None
    else
      var s := signals[|signals| - 1];
      if s.id == id && ShouldRelay(s) then Some(Fingerprint(s))
      else LastEligible(signals[..|signals| - 1], id)
  }

  /** The fingerprint last offered under `id` since `id` was last missing from a round's active set. */
  function Standing(h: seq<Round>, id: string): Option<Signal> {
    if h == [] then None
    else
      var last := h[|h| - 1];
      match LastEligible(last.offered, id)
      case Some(f) => Some(f)
      case None => if id in last.active then Standing(h[..|h| - 1], id) else None
  }

  lemma {:induction false} NoteAllIsLastEligible(delivered: map<string, Signal>, signals: seq<Signal>, id: string)
    ensures Get(NoteAll(delivered, signals), id)
         == match LastEligible(signals, id)
            case Some(f) => Some(f)
            case None => Get(delivered, id)
  {
    if signals != [] {
      NoteAllIsLastEligible(delivered, signals[..|signals| - 1], id);
    }
  }

  lemma {:induction false} DeliveredIsStanding(h: seq<Round>, id: string)
    ensures Get(DeliveredAfter(h), id) == Standing(h, id)
  {
    if h != [] {
      var before, last := h[..|h| - 1], h[|h| - 1];
      DeliveredIsStanding(before, id);
      NoteAllIsLastEligible(Retain(DeliveredAfter(before), last.active), last.offered, id);
    }
  }

  /** The Signal at position i of a round is queued exactly when it is eligible and its fingerprint
      is not the one standing under its id, whatever happened in the earlier rounds. */
  lemma DedupeRefinesHistory(h: seq<Round>, active: set<string>, signals: seq<Signal>, i: nat)
    requires i < |signals|
    ensures Fresh(NoteAll(Retain(DeliveredAfter(h), active), signals[..i]), signals[i])
       <==> ShouldRelay(signals[i])
            && Standing(h + [Round(active, signals[..i])], signals[i].id) != Some(Fingerprint(signals[i]))
  {
    var h' := h + [Round(active, signals[..i])];
    assert h'[..|h'| - 1] == h;
    DeliveredIsStanding(h', signals[i].id);
  }

  /** The two differ at most in their occurrence tokens. */
  predicate SameButToken(s: Signal, g: Signal) {
    s.(notificationId := g.notificationId) == g
  }

  /** While the id of g stays active and every eligible Signal under it is g up to the occurrence token,
      which may change freely, g is not queued again under any token; anything else eligible is. */
  lemma {:induction false} QuietWhileUnchanged(h: seq<Round>, rest: seq<Round>, g: Signal)
    requires Standing(h, g.id) == Some(Fingerprint(g))
    requires forall r :: r in rest ==> g.id in r.active
    requires forall r, s :: r in rest && s in r.offered && s.id == g.id && ShouldRelay(s) ==> SameButToken(s, g)
    ensures Standing(h + rest, g.id) == Some(Fingerprint(g))
    ensures forall s: Signal :: s.id == g.id ==>
              (Fresh(DeliveredAfter(h + rest), s) <==> ShouldRelay(s) && !SameButToken(s, g))
  {
    if rest == [] {
      assert h + rest == h;
    } else {
      var before, last := rest[..|rest| - 1], rest[|rest| - 1];
      QuietWhileUnchanged(h, before, g);
      assert (h + rest)[..|h + rest| - 1] == h + before;
      LastEligibleOccurs(last.offered, g.id);
    }
    DeliveredIsStanding(h + rest, g.id);
    forall s: Signal ensures Fingerprint(s) == Fingerprint(g) <==> SameButToken(s, g) {
    }
  }

  lemma {:induction false} LastEligibleOccurs(signals: seq<Signal>, id: string)
    ensures LastEligible(signals, id).Some? ==>
              exists s :: s in signals && s.id == id && ShouldRelay(s)
                          && LastEligible(signals, id) == Some(Fingerprint(s))
  {
    if signals != [] {
      var s := signals[|signals| - 1];
      if s.id == id && ShouldRelay(s) {
        assert s in signals;
      } else {
        LastEligibleOccurs(signals[..|signals| - 1], id);
      }
    }
  }

  /** What a call of `observe` leaves recorded: ids offered an eligible Signal, and of those recorded
      before the ones that an active Signal still carries. */
  lemma RecordedIds(delivered: map<string, Signal>, signals: seq<Signal>, id: string)
    ensures id in NoteAll(Retain(delivered, ActiveIds(signals)), signals)
       <==> exists s :: s in signals && s.id == id && (ShouldRelay(s) || (s.state == "active" && id in delivered))
  {
    NoteAllIsLastEligible(Retain(delivered, ActiveIds(signals)), signals, id);
    LastEligibleOccurs(signals, id);
    if exists s :: s in signals && s.id == id && ShouldRelay(s) {
      var s :| s in signals && s.id == id && ShouldRelay(s);
      EligibleIsFound(signals, s);
    }
  }

  lemma {:induction false} EligibleIsFound(signals: seq<Signal>, s: Signal)
    requires s in signals && ShouldRelay(s)
    ensures LastEligible(signals, s.id).Some?
  {
    var front := signals[..|signals| - 1];
    assert signals == front + [signals[|signals| - 1]];
    if s in front {
      EligibleIsFound(front, s);
    }
  }

  /** The events of a round that its history calls for: one for each eligible Signal whose fingerprint
      is not the one standing under its id. */
  function Announced(h: seq<Round>, active: set<string>, signals: seq<Signal>): seq<Item> {
    if signals == [] then []
    else
      var front, s := signals[..|signals| - 1], signals[|signals| - 1];
      Announced(h, active, front)
      + (if ShouldRelay(s) && Standing(h + [Round(active, front)], s.id) != Some(Fingerprint(s))
         then [EventOf(s)] else [])
  }

  /** The events of all rounds, in order. */
  function Announcements(h: seq<Round>): seq<Item> {
    if h == [] then []
    else
      var before, last := h[..|h| - 1], h[|h| - 1];
      Announcements(before) + Announced(before, last.active, last.offered)
  }

  /** One more Signal in the last round. */
  function Extend(h: seq<Round>, s: Signal): seq<Round> {
    if h == [] then [Round({}, [s])]
    else h[..|h| - 1] + [Round(h[|h| - 1].active, h[|h| - 1].offered + [s])]
  }

  lemma AnnouncedStep(h: seq<Round>, active: set<string>, front: seq<Signal>, s: Signal)
    ensures Announced(h, active, front + [s])
         == Announced(h, active, front)
            + (if Fresh(DeliveredAfter(h + [Round(active, front)]), s) then [EventOf(s)] else [])
  {
    var rounds, signals := h + [Round(active, front)], front + [s];
    assert rounds[..|h|] == h && signals[..|front|] == front;
    DedupeRefinesHistory(h, active, signals, |front|);
  }

  lemma OneMoreRound(h: seq<Round>, r: Round)
    ensures DeliveredAfter(h + [r]) == NoteAll(Retain(DeliveredAfter(h), r.active), r.offered)
    ensures Announcements(h + [r]) == Announcements(h) + Announced(h, r.active, r.offered)
  {
    var all := h + [r];
    assert |all| == |h| + 1 && all[..|h|] == h && all[|h|] == r;
  }

  lemma OneMoreNoted(delivered: map<string, Signal>, signals: seq<Signal>, s: Signal)
    ensures NoteAll(delivered, signals + [s]) == Note(NoteAll(delivered, signals), s)
  {
    var all := signals + [s];
    assert all[..|signals|] == signals && all[|signals|] == s;
  }

  /** One more Signal in the last round is recorded, and announced, exactly if it is fresh. */
  lemma LastRoundGrows(h: seq<Round>, r: Round, s: Signal)
    ensures var rounds, grown := h + [r], h + [Round(r.active, r.offered + [s])];
            && DeliveredAfter(grown) == Note(DeliveredAfter(rounds), s)
            && Announcements(grown)
               == Announcements(rounds) + (if Fresh(DeliveredAfter(rounds), s) then [EventOf(s)] else [])
  {
    hide DeliveredAfter, Announcements, Announced, NoteAll, Retain, Fresh, Note;
    OneMoreRound(h, r);
    OneMoreRound(h, Round(r.active, r.offered + [s]));
    OneMoreNoted(Retain(DeliveredAfter(h), r.active), r.offered, s);
    AnnouncedStep(h, r.active, r.offered, s);
  }

  lemma ExtendMeaning(h: seq<Round>, s: Signal)
    ensures DeliveredAfter(Extend(h, s)) == Note(DeliveredAfter(h), s)
    ensures Announcements(Extend(h, s))
         == Announcements(h) + (if Fresh(DeliveredAfter(h), s) then [EventOf(s)] else [])
  {
    if h == [] {
      NoRounds(s);
      LastRoundGrows([], Round({}, []), s);
    } else {
      hide DeliveredAfter, Announcements, Fresh, Note;
      var front, last := h[..|h| - 1], h[|h| - 1];
      assert h == front + [last];
      LastRoundGrows(front, last, s);
    }
  }

  lemma NoRounds(s: Signal)
    ensures var r, none: seq<Round> := Round({}, []), [];
            && none + [r] == [r]
            && DeliveredAfter([r]) == DeliveredAfter(none) && Announcements([r]) == Announcements(none)
            && none + [Round({}, r.offered + [s])] == Extend(none, s)
  {
    var r, none: seq<Round> := Round({}, []), [];
    assert none + [r] == [r] && r.offered + [s] == [s];
    OneMoreRound(none, r);
    assert Retain(DeliveredAfter(none), {}) == DeliveredAfter(none);
  }

  // ---------------------------------------------------------------- queue and settlement

  function IsEvent(): Item -> bool { (i: Item) => i.Event? }

  function IsDeviceOf(token: string): Item -> bool { (i: Item) => i.Device? && i.token == token }

  function NotDeviceOf(token: string): Item -> bool { (i: Item) => !(i.Device? && i.token == token) }

  function Events(items: seq<Item>): seq<Item> { Filter(IsEvent(), items) }

  function DevicesOf(token: string, items: seq<Item>): seq<Item> { Filter(IsDeviceOf(token), items) }

  function Items(settled: seq<Settlement>): (items: seq<Item>)
    ensures |items| == |settled| && forall i :: 0 <= i < |items| ==> items[i] == settled[i].item
  {
    seq(|settled|, i requires 0 <= i < |settled| => settled[i].item)
  }

  function Rejections(settled: seq<Settlement>): seq<Rejection> {
    if settled == [] then []
    else
      var last := settled[|settled| - 1];
      Rejections(settled[..|settled| - 1])
      + (if last.reply.Rejected? then [Rejection(last.item.Device?, last.reply.status)] else [])
  }

  function LastTwenty<T>(s: seq<T>): seq<T> {
    if |s| <= 20 then s else s[|s| - 20..]
  }

  lemma LastTwentyMeaning<T>(s: seq<T>)
    ensures |LastTwenty(s)| == if |s| < 20 then |s| else 20
    ensures LastTwenty(s) == s[|s| - |LastTwenty(s)|..]
  {
  }

  function Last<T>(s: seq<T>): T
    requires s != []
  {
    s[|s| - 1]
  }

  function Prune(a: Agent, active: set<string>): Agent {
    a.(delivered := Retain(a.delivered, active), rounds := a.rounds + [Round(active, [])])
  }

  function Enqueue(a: Agent, item: Item): Agent {
    var kept := if item.Device? then Filter(NotDeviceOf(item.token), a.outbox) else a.outbox;
    a.(outbox := kept + [item], queued := a.queued + [item])
  }

  function Offer(a: Agent, s: Signal): Agent {
    var b := a.(delivered := Note(a.delivered, s), rounds := Extend(a.rounds, s));
    if Fresh(a.delivered, s) then Enqueue(b, EventOf(s)) else b
  }

  function OfferAll(a: Agent, signals: seq<Signal>): Agent {
    if signals == [] then a
    else Offer(OfferAll(a, signals[..|signals| - 1]), signals[|signals| - 1])
  }

  function SettleHead(a: Agent, reply: Reply): Agent
    requires a.outbox != [] && Final(reply)
  {
    var head := a.outbox[0];
    a.(outbox := a.outbox[1..],
       settled := a.settled + [Settlement(head, reply)],
       rejected := if reply.Rejected?
                   then LastTwenty(a.rejected + [Rejection(head.Device?, reply.status)])
                   else a.rejected)
  }

  /** The state after the first n outbox items got the replies `replies[..n]`. */
  function SettleMany(a: Agent, replies: seq<Reply>, n: nat): (b: Agent)
    requires n <= |a.outbox| && n <= |replies|
    requires forall i :: 0 <= i < n ==> Final(replies[i])
    ensures b.outbox == a.outbox[n..]
  {
    if n == 0 then a else SettleHead(SettleMany(a, replies, n - 1), replies[n - 1])
  }

  lemma EnqueueQueues(a: Agent, item: Item)
    ensures Enqueue(a, item).queued == a.queued + [item]
  {
  }

  lemma NothingSettled(a: Agent, replies: seq<Reply>)
    ensures SettleMany(a, replies, 0) == a
  {
  }

  lemma SettleOneMore(a: Agent, replies: seq<Reply>, n: nat)
    requires 0 < n <= |a.outbox| && n <= |replies|
    requires forall i :: 0 <= i < n ==> Final(replies[i])
    ensures SettleMany(a, replies, n) == SettleHead(SettleMany(a, replies, n - 1), replies[n - 1])
  {
  }

  /** A flush moves a prefix of the outbox, in order and reply by reply, to the settled history. */
  lemma {:induction false} FlushSettlesPrefixInOrder(a: Agent, replies: seq<Reply>, n: nat)
    requires n <= |a.outbox| && n <= |replies|
    requires forall i :: 0 <= i < n ==> Final(replies[i])
    ensures var b := SettleMany(a, replies, n);
            && b == a.(outbox := a.outbox[n..], settled := b.settled, rejected := b.rejected)
            && b.settled == a.settled + seq(n, i requires 0 <= i < n => Settlement(a.outbox[i], replies[i]))
  {
    if n != 0 {
      FlushSettlesPrefixInOrder(a, replies, n - 1);
    }
  }

  /** The newest registration queued for a token is still waiting, alone, or was the last one settled. */
  ghost predicate NewestDeviceKept(a: Agent, token: string) {
    var queued := DevicesOf(token, a.queued);
    var waiting := DevicesOf(token, a.outbox);
    var settled := DevicesOf(token, Items(a.settled));
    if queued == [] then waiting == []
    else waiting == [Last(queued)] || (waiting == [] && settled != [] && Last(settled) == Last(queued))
  }

  /** Events leave the queue only by settlement and in queue order; at most one registration per
      token waits, the newest; the quarantine list is the last twenty rejections ever. */
  ghost predicate Ledger(a: Agent) {
    && Events(Items(a.settled)) + Events(a.outbox) == Events(a.queued)
    && (forall token :: NewestDeviceKept(a, token))
    && a.rejected == LastTwenty(Rejections(a.settled))
  }

  /** The recorded fingerprints and the queued events are those the rounds call for: no fingerprint
      without its own event, and no event without a reason. */
  ghost predicate Explained(a: Agent) {
    a.delivered == DeliveredAfter(a.rounds) && Events(a.queued) == Announcements(a.rounds)
  }

  ghost predicate Sound(a: Agent) {
    Ledger(a) && Explained(a)
  }

  lemma SoundKeepsNewest(a: Agent, token: string)
    requires Sound(a)
    ensures NewestDeviceKept(a, token)
  {
  }

  lemma SoundIsExplained(a: Agent)
    requires Sound(a)
    ensures Explained(a)
  {
  }

  lemma EnqueueKeepsEvents(a: Agent, item: Item)
    requires Events(Items(a.settled)) + Events(a.outbox) == Events(a.queued)
    ensures Events(Items(a.settled)) + Events(Enqueue(a, item).outbox) == Events(a.queued + [item])
  {
    var kept := if item.Device? then Filter(NotDeviceOf(item.token), a.outbox) else a.outbox;
    if item.Device? {
      FilterThrough(IsEvent(), NotDeviceOf(item.token), a.outbox);
    }
    var news := if item.Event? then [item] else [];
    FilterAppend(IsEvent(), a.queued, item);
    FilterAppend(IsEvent(), kept, item);
    assert Events(Items(a.settled)) + (Events(a.outbox) + news) == Events(a.queued) + news;
  }

  lemma EnqueueKeepsDevice(a: Agent, item: Item, token: string)
    requires NewestDeviceKept(a, token)
    ensures NewestDeviceKept(Enqueue(a, item), token)
  {
    hide Filter;
    var p := IsDeviceOf(token);
    FilterAppend(p, a.queued, item);
    if item.Event? {
      FilterAppend(p, a.outbox, item);
    } else {
      var kept := Filter(NotDeviceOf(item.token), a.outbox);
      FilterAppend(p, kept, item);
      if item.token == token {
        FilterDisjoint(p, NotDeviceOf(token), a.outbox);
      } else {
        FilterThrough(p, NotDeviceOf(item.token), a.outbox);
      }
    }
  }

  lemma EnqueueKeepsLedger(a: Agent, item: Item)
    requires Ledger(a)
    ensures Ledger(Enqueue(a, item))
  {
    EnqueueKeepsEvents(a, item);
    forall token ensures NewestDeviceKept(Enqueue(a, item), token) {
      EnqueueKeepsDevice(a, item, token);
    }
  }

  lemma SettleHeadKeepsEvents(a: Agent, reply: Reply)
    requires Events(Items(a.settled)) + Events(a.outbox) == Events(a.queued)
    requires a.outbox != [] && Final(reply)
    ensures var b := SettleHead(a, reply);
            Events(Items(b.settled)) + Events(b.outbox) == Events(b.queued)
  {
    assert Items(SettleHead(a, reply).settled) == Items(a.settled) + [a.outbox[0]];
    FilterAppend(IsEvent(), Items(a.settled), a.outbox[0]);
    FilterHead(IsEvent(), a.outbox);
  }

  lemma SettleHeadKeepsDevice(a: Agent, reply: Reply, token: string)
    requires NewestDeviceKept(a, token) && a.outbox != [] && Final(reply)
    ensures NewestDeviceKept(SettleHead(a, reply), token)
  {
    var p, head := IsDeviceOf(token), a.outbox[0];
    assert Items(SettleHead(a, reply).settled) == Items(a.settled) + [head];
    FilterAppend(p, Items(a.settled), head);
    FilterHead(p, a.outbox);
    if p(head) {
      assert Filter(p, a.outbox)[0] == head;
      assert Filter(p, a.outbox[1..]) == [];
    }
  }

  lemma SettleHeadKeepsLedger(a: Agent, reply: Reply)
    requires Ledger(a) && a.outbox != [] && Final(reply)
    ensures Ledger(SettleHead(a, reply))
  {
    var b := SettleHead(a, reply);
    SettleHeadKeepsEvents(a, reply);
    forall token ensures NewestDeviceKept(b, token) {
      SettleHeadKeepsDevice(a, reply, token);
    }
    assert b.settled[..|b.settled| - 1] == a.settled;
  }

  /** The ledger mentions neither fingerprints nor rounds. */
  lemma LedgerIgnoresHistory(a: Agent, b: Agent)
    requires Ledger(a) && b == a.(delivered := b.delivered, rounds := b.rounds)
    ensures Ledger(b)
  {
    forall token ensures NewestDeviceKept(b, token) {
      assert NewestDeviceKept(a, token);
    }
  }

  lemma OfferKeepsSound(a: Agent, s: Signal)
    requires Sound(a)
    ensures Sound(Offer(a, s))
  {
    hide Ledger;
    var b := a.(delivered := Note(a.delivered, s), rounds := Extend(a.rounds, s));
    LedgerIgnoresHistory(a, b);
    ExtendMeaning(a.rounds, s);
    if Fresh(a.delivered, s) {
      EnqueueKeepsLedger(b, EventOf(s));
      FilterAppend(IsEvent(), a.queued, EventOf(s));
    }
  }

  lemma PruneKeepsSound(a: Agent, active: set<string>)
    requires Sound(a)
    ensures Sound(Prune(a, active))
  {
    var b := Prune(a, active);
    LedgerIgnoresHistory(a, b);
    assert b.rounds[..|a.rounds|] == a.rounds;
  }

  lemma SettleHeadKeepsSound(a: Agent, reply: Reply)
    requires Sound(a) && a.outbox != [] && Final(reply)
    ensures Sound(SettleHead(a, reply))
  {
    SettleHeadKeepsLedger(a, reply);
  }

  lemma {:induction false} SettleManyKeepsSound(a: Agent, replies: seq<Reply>, n: nat)
    requires Sound(a) && n <= |a.outbox| && n <= |replies|
    requires forall i :: 0 <= i < n ==> Final(replies[i])
    ensures Sound(SettleMany(a, replies, n))
  {
    if n != 0 {
      SettleManyKeepsSound(a, replies, n - 1);
      SettleHeadKeepsSound(SettleMany(a, replies, n - 1), replies[n - 1]);
    }
  }

  lemma EnqueueDeviceKeepsSound(a: Agent, item: Item)
    requires Sound(a) && item.Device?
    ensures Sound(Enqueue(a, item))
  {
    EnqueueKeepsLedger(a, item);
    FilterAppend(IsEvent(), a.queued, item);
  }

  /** A round queues exactly the events its history calls for, in the order of its Signals. */
  lemma {:induction false} OfferAllRefinesHistory(a: Agent, active: set<string>, signals: seq<Signal>)
    requires Explained(a)
    ensures var b := OfferAll(Prune(a, active), signals);
            && b.rounds == a.rounds + [Round(active, signals)]
            && b.delivered == DeliveredAfter(b.rounds)
            && b.queued == a.queued + Announced(a.rounds, active, signals)
  {
    if signals == [] {
      PruneExtends(a, active);
    } else {
      var front, s := signals[..|signals| - 1], signals[|signals| - 1];
      OfferAllRefinesHistory(a, active, front);
      OfferOneMore(a, active, front, s);
      assert front + [s] == signals;
    }
  }

  lemma PruneExtends(a: Agent, active: set<string>)
    requires Explained(a)
    ensures var b := OfferAll(Prune(a, active), []);
            && b.rounds == a.rounds + [Round(active, [])] && b.delivered == DeliveredAfter(b.rounds)
            && b.queued == a.queued + Announced(a.rounds, active, [])
  {
    OneMoreRound(a.rounds, Round(active, []));
    hide DeliveredAfter, Announcements, Retain;
  }

  lemma OfferOneMore(a: Agent, active: set<string>, front: seq<Signal>, s: Signal)
    requires var b := OfferAll(Prune(a, active), front);
             && b.rounds == a.rounds + [Round(active, front)] && b.delivered == DeliveredAfter(b.rounds)
             && b.queued == a.queued + Announced(a.rounds, active, front)
    ensures var b := OfferAll(Prune(a, active), front + [s]);
            && b.rounds == a.rounds + [Round(active, front + [s])] && b.delivered == DeliveredAfter(b.rounds)
            && b.queued == a.queued + Announced(a.rounds, active, front + [s])
  {
    var b := OfferAll(Prune(a, active), front);
    assert (front + [s])[..|front|] == front;
    assert OfferAll(Prune(a, active), front + [s]) == Offer(b, s);
    hide OfferAll, Offer, DeliveredAfter, Announced, Fresh, Prune, Extend;
    OfferExtends(b, s);
    ExtendsLastRound(a.rounds, active, front, s);
    AnnouncedStep(a.rounds, active, front, s);
  }

  lemma OfferExtends(a: Agent, s: Signal)
    requires a.delivered == DeliveredAfter(a.rounds)
    ensures var b := Offer(a, s);
            && b.rounds == Extend(a.rounds, s) && b.delivered == DeliveredAfter(b.rounds)
            && b.queued == a.queued + (if Fresh(a.delivered, s) then [EventOf(s)] else [])
  {
    hide DeliveredAfter, Announcements, Fresh, Extend;
    ExtendMeaning(a.rounds, s);
  }

  lemma ExtendsLastRound(h: seq<Round>, active: set<string>, front: seq<Signal>, s: Signal)
    ensures Extend(h + [Round(active, front)], s) == h + [Round(active, front + [s])]
  {
    var rounds := h + [Round(active, front)];
    assert |rounds| == |h| + 1 && rounds[|h|] == Round(active, front) && rounds[..|h|] == h;
  }

  /** A registration of the token is in the outbox. */
  predicate Waits(token: string, outbox: seq<Item>) {
    exists i :: 0 <= i < |outbox| && IsDeviceOf(token)(outbox[i])
  }

  /** The registration queued last for a token either waits in the outbox or was settled last. */
  lemma NewestDeviceOutcome(a: Agent, before: seq<Item>, item: Item)
    requires item.Device? && NewestDeviceKept(a, item.token) && a.queued == before + [item]
    ensures var settled := DevicesOf(item.token, Items(a.settled));
            if Waits(item.token, a.outbox) then item in a.outbox else settled != [] && Last(settled) == item
  {
    FilterAppend(IsDeviceOf(item.token), before, item);
    FilterMembers(IsDeviceOf(item.token), a.outbox);
    var waiting := DevicesOf(item.token, a.outbox);
    if waiting == [Last(DevicesOf(item.token, a.queued))] {
      assert item in waiting;
    } else {
      assert forall x :: x !in waiting;
    }
  }

  /** What the relay ignores. */
  predicate IsTip(item: Item) {
    item.Event? && item.category == "recommendation"
  }

  lemma {:induction false} AnnouncedAreNoTips(h: seq<Round>, active: set<string>, signals: seq<Signal>)
    ensures forall e :: e in Announced(h, active, signals) ==> !IsTip(e)
  {
    if signals != [] {
      AnnouncedAreNoTips(h, active, signals[..|signals| - 1]);
    }
  }

  lemma {:induction false} AnnouncementsAreNoTips(h: seq<Round>)
    ensures forall e :: e in Announcements(h) ==> !IsTip(e)
  {
    if h != [] {
      AnnouncementsAreNoTips(h[..|h| - 1]);
      AnnouncedAreNoTips(h[..|h| - 1], h[|h| - 1].active, h[|h| - 1].offered);
    }
  }

  /** So no tip ever waits in an outbox. */
  lemma OutboxHasNoTips(a: Agent)
    requires Sound(a)
    ensures forall item :: item in a.outbox ==> !IsTip(item)
  {
    AnnouncementsAreNoTips(a.rounds);
    FilterMembers(IsEvent(), a.outbox);
    forall item | item in a.outbox ensures !IsTip(item) {
      if item.Event? {
        assert item in Events(a.outbox);
        assert item in Events(Items(a.settled)) + Events(a.outbox);
      }
    }
  }

  // ---------------------------------------------------------------- the class

  /** The answer to request number i of one call; past the end of `replies` the relay is unreachable. */
  function Answer(replies: seq<Reply>, i: nat): Reply {
    if i < |replies| then replies[i] else Unreachable
  }

  class AgentRelay {
    var delivered: map<string, Signal>
    var outbox: seq<Item>
    var rejected: seq<Rejection>
    ghost var queued: seq<Item>
    ghost var settled: seq<Settlement>
    ghost var rounds: seq<Round>
    ghost var files: seq<Agent>  // the file loaded, and every file written since

    ghost function View(): Agent
      reads this
    {
      Agent(delivered, outbox, rejected, queued, settled, rounds)
    }

    /** Every file a stopped process may have left can be loaded. */
    ghost predicate Loadable()
      reads this
    {
      files != [] && forall f :: f in files ==> Sound(f)
    }

    /** Between calls the file holds what memory holds. */
    ghost predicate Valid()
      reads this
    {
      Loadable() && Last(files) == View()
    }

    /** Start from a saved file; the empty file is the first start. */
    constructor Load(file: Agent)
      requires Sound(file)
      ensures Valid() && View() == file && files == [file]
    {
      delivered, outbox, rejected := file.delivered, file.outbox, file.rejected;
      queued, settled, rounds, files := file.queued, file.settled, file.rounds, [file];
    }

    method Save()
      modifies this`files
      ensures files == old(files) + [View()]
    {
      files := files + [View()];
    }

    method Queue(item: Item)
      modifies this
      ensures View() == Enqueue(old(View()), item) && files == old(files) + [View()]
    {
      if item.Device? {
        outbox := WithoutToken(item.token, outbox);
      }
      outbox := outbox + [item];
      queued := queued + [item];
      Save();
    }

    static method WithoutToken(token: string, items: seq<Item>) returns (kept: seq<Item>)
      ensures kept == Filter(NotDeviceOf(token), items)
    {
      kept := [];
      for i := 0 to |items|
        invariant kept == Filter(NotDeviceOf(token), items[..i])
      {
        assert items[..i + 1][..i] == items[..i];
        if !items[i].Device? || items[i].token != token {
          kept := kept + [items[i]];
        }
      }
      assert items[..|items|] == items;
    }

    /** Prune departed Signals, offer the rest in order, save, flush: the events queued are those the
        history of rounds calls for, the flush settles a prefix of the outbox, and every file written
        on the way is sound. */
    method Observe(enrolled: bool, signals: seq<Signal>, replies: seq<Reply>) returns (sent: nat)
      requires Valid()
      modifies this
      ensures Valid() && old(files) <= files
      ensures !enrolled ==> View() == old(View())
      ensures enrolled ==> rounds == old(rounds) + [Round(ActiveIds(signals), signals)]
      ensures enrolled ==> queued == old(queued) + Announced(old(rounds), ActiveIds(signals), signals)
      ensures enrolled ==>
                var offered := OfferAll(Prune(old(View()), ActiveIds(signals)), signals);
                && sent <= |offered.outbox| && sent <= |replies| && (forall i :: 0 <= i < sent ==> Final(replies[i]))
                && View() == SettleMany(offered, replies, sent)
                && (outbox == [] || TryLater(Answer(replies, sent)))
    {
      if !enrolled {
        return 0;
      }
      hide Sound, OfferAll, SettleMany, Announced, Retain, Final, DeliveredAfter;
      var active := ActiveIds(signals);
      PruneKeepsSound(View(), active);
      SoundIsExplained(View());
      OfferAllRefinesHistory(View(), active, signals);
      delivered, rounds := Retain(delivered, active), rounds + [Round(active, [])];
      OfferEach(signals);
      Save();
      ghost var before := View();
      sent := Flush(replies);
      FlushSettlesPrefixInOrder(before, replies, sent);
    }

    /** The loop of `observe`. */
    method OfferEach(signals: seq<Signal>)
      requires Loadable() && Sound(View())
      modifies this
      ensures Loadable() && Sound(View()) && old(files) <= files && View() == OfferAll(old(View()), signals)
    {
      hide Sound, Enqueue;
      ghost var start := View();
      for i := 0 to |signals|
        invariant View() == OfferAll(start, signals[..i]) && Sound(View())
        invariant Loadable() && old(files) <= files
      {
        assert signals[..i + 1][..i] == signals[..i];
        OfferKeepsSound(View(), signals[i]);
        rounds := Extend(rounds, signals[i]);
        if Fresh(delivered, signals[i]) {
          delivered := delivered[signals[i].id := Fingerprint(signals[i])];
          Queue(EventOf(signals[i]));
        }
      }
      assert signals[..|signals|] == signals;
    }

    /** Queue a registration and, once enrolled, flush.  It is delivered if it was settled, by acceptance
        or by rejection, and the relay then lists it. */
    method RegisterDevice(token: string, profile: string, enrolled: bool, replies: seq<Reply>, listed: bool)
      returns (delivered: bool, ghost sent: nat)
      requires Valid()
      modifies this
      ensures Valid() && old(files) <= files
      ensures token == "" ==> View() == old(View()) && !delivered
      ensures token != "" && !enrolled ==> View() == Enqueue(old(View()), Device(token, profile))
      ensures token != "" && enrolled ==>
                var b := Enqueue(old(View()), Device(token, profile));
                && sent <= |b.outbox| && sent <= |replies| && (forall i :: 0 <= i < sent ==> Final(replies[i]))
                && View() == SettleMany(b, replies, sent)
      ensures delivered ==> enrolled && listed && DevicesOf(token, Items(settled)) != []
                            && Last(DevicesOf(token, Items(settled))) == Device(token, profile)
      ensures !delivered && enrolled && listed && token != "" ==> Device(token, profile) in outbox
    {
      delivered, sent := false, 0;
      if token == "" {
        return;
      }
      sent := QueueAndFlush(Device(token, profile), enrolled, replies);
      SoundKeepsNewest(View(), token);
      hide Sound, Enqueue, SettleMany, Final;
      NewestDeviceOutcome(View(), old(queued), Device(token, profile));
      var accepted := enrolled && !Waits(token, outbox);
      delivered := accepted && listed;
    }

    method QueueAndFlush(item: Item, enrolled: bool, replies: seq<Reply>) returns (ghost sent: nat)
      requires Valid() && item.Device?
      modifies this
      ensures Valid() && old(files) <= files && queued == old(queued) + [item]
      ensures var b := Enqueue(old(View()), item);
              && sent <= |b.outbox| && sent <= |replies| && (forall i :: 0 <= i < sent ==> Final(replies[i]))
              && View() == SettleMany(b, replies, sent) && (!enrolled ==> sent == 0)
    {
      hide Sound, Enqueue, SettleMany, Final;
      sent := 0;
      EnqueueDeviceKeepsSound(View(), item);
      ghost var before := Enqueue(View(), item);
      EnqueueQueues(View(), item);
      Queue(item);
      if enrolled {
        sent := Flush(replies);
      } else {
        NothingSettled(before, replies);
      }
      FlushSettlesPrefixInOrder(before, replies, sent);
    }

    /** Send the head until the outbox is empty or the relay gives a retryable answer or none. */
    method Flush(replies: seq<Reply>) returns (sent: nat)
      requires Valid()
      modifies this
      ensures Valid() && old(files) <= files
      ensures sent <= |old(outbox)| && sent <= |replies|
      ensures forall i :: 0 <= i < sent ==> Final(replies[i]) && !TryLater(replies[i])
      ensures View() == SettleMany(old(View()), replies, sent)
      ensures outbox == [] || TryLater(Answer(replies, sent))
    {
      hide Sound;
      sent := 0;
      ghost var start := View();
      while outbox != []
        invariant Loadable() && old(files) <= files && Last(files) == View()
        invariant sent <= |start.outbox| && sent <= |replies|
        invariant forall i :: 0 <= i < sent ==> Final(replies[i])
        invariant View() == SettleMany(start, replies, sent)
        decreases |outbox|
      {
        var reply := Answer(replies, sent);
        if reply.Unreachable? || (reply.Rejected? && Retryable(reply.status)) {
          break;
        }
        SettleHeadKeepsSound(View(), reply);
        PopHead(reply);
        sent := sent + 1;
        SettleOneMore(start, replies, sent);
      }
    }

    /** The two ways out of the outbox: accepted, or moved to the bounded quarantine list. */
    method PopHead(reply: Reply)
      requires outbox != [] && Final(reply)
      modifies this
      ensures View() == SettleHead(old(View()), reply) && files == old(files) + [View()]
    {
      var item := outbox[0];
      outbox := outbox[1..];
      settled := settled + [Settlement(item, reply)];
      if reply.Rejected? {
        rejected := LastTwenty(rejected + [Rejection(item.Device?, reply.status)]);
      }
      Save();
    }
  }
}
