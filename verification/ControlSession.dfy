/**
  The control-command session (pbxsense_agent/internet_relay.py with `secure_exchange` of
  push_relay/app.py): the Agent polls, the relay completes what was answered and hands out what is queued.
  A command stays "queued" at the relay while it is delivered, so it may be handed out again.
 */
module ControlSession {
  import opened Common

  const BATCH: nat := 20

  datatype Response = Response(id: string, status: string, kind: string)

  datatype Delivered = Delivered(id: string, kind: string, expiresAt: int)

  datatype CommandState = Queued | Completed | Expired

  datatype Command = Command(kind: string, state: CommandState, expiresAt: int)

  // ---------------------------------------------------------------- the Agent's part

  predicate WellFormedId(id: string) {
    1 <= |id| <= 96
    && forall i :: 0 <= i < |id| ==>
         'A' <= id[i] <= 'Z' || 'a' <= id[i] <= 'z' || '0' <= id[i] <= '9' || id[i] == '_' || id[i] == '-'
  }

  /** The alphabet of section 5 of RFC 4648, in which the relay writes its command ids. */
  const UPPER := "ABCDEFGHIJKLMNOPQRSTUVWXYZ"
  const LOWER := "abcdefghijklmnopqrstuvwxyz"
  const DIGITS := "0123456789"

  predicate UrlSafe(c: char) {
    c in UPPER || c in LOWER || c in DIGITS || c in "-_"
  }

  lemma IsUpper(c: char)
    ensures c in UPPER <==> 'A' <= c <= 'Z'
  {
  }

  lemma IsLower(c: char)
    ensures c in LOWER <==> 'a' <= c <= 'z'
  {
  }

  lemma IsDigit(c: char)
    ensures c in DIGITS <==> '0' <= c <= '9'
  {
  }

  lemma WellFormedIdMeaning(id: string)
    ensures WellFormedId(id) <==> 1 <= |id| <= 96 && forall i :: 0 <= i < |id| ==> UrlSafe(id[i])
  {
    forall i | 0 <= i < |id|
      ensures UrlSafe(id[i]) <==> 'A' <= id[i] <= 'Z' || 'a' <= id[i] <= 'z' || '0' <= id[i] <= '9'
                                  || id[i] == '_' || id[i] == '-'
    {
      IsUpper(id[i]);
      IsLower(id[i]);
      IsDigit(id[i]);
    }
  }

  predicate Accepts(c: Delivered, now: int) {
    WellFormedId(c.id) && c.expiresAt >= now
  }

  function Answer(c: Delivered): Response {
    if c.kind == "ping" then Response(c.id, "ok", "pong") else Response(c.id, "unsupported", "")
  }

  /** The responses to the accepted ones among the commands, in order. */
  function Answers(commands: seq<Delivered>, now: int): seq<Response> {
    if commands == [] then []
    else
      var last := commands[|commands| - 1];
      Answers(commands[..|commands| - 1], now) + (if Accepts(last, now) then [Answer(last)] else [])
  }

  predicate InPolicy(offered: Option<int>) {
    offered.Some? && 60 <= offered.value <= 900
  }

  /** The interval is the last of these offers that is in policy, and 300 seconds before the first one. */
  ghost predicate InForce(offers: seq<Option<int>>, interval: int) {
    if exists i :: 0 <= i < |offers| && InPolicy(offers[i])
    then exists i :: 0 <= i < |offers| && InPolicy(offers[i]) && offers[i] == Some(interval)
                     && forall j :: i < j < |offers| ==> !InPolicy(offers[j])
    else interval == 300
  }

  /** So it always lies between 60 and 900 seconds, and the offers determine it. */
  lemma InForceMeaning(offers: seq<Option<int>>, interval: int, other: int)
    requires InForce(offers, interval)
    ensures 60 <= interval <= 900
    ensures InForce(offers, other) ==> other == interval
  {
  }

  /** One more offer is in force if it is between 60 and 900 seconds; any other changes nothing. */
  lemma OfferCountsIff(offers: seq<Option<int>>, offered: Option<int>, before: int, after: int)
    requires InForce(offers, before) && InForce(offers + [offered], after)
    ensures after == if offered.Some? && 60 <= offered.value <= 900 then offered.value else before
  {
    OneMoreOffer(offers, offered, before, if InPolicy(offered) then offered.value else before);
  }

  /** Python's slice `[:20]`. */
  function FirstBatch(responses: seq<Response>): seq<Response> {
    if |responses| <= BATCH then responses else responses[..BATCH]
  }

  datatype Reply = Reply(commands: seq<Delivered>, interval: Option<int>)

  /** What a poll depends on. */
  datatype Poller = Poller(pending: seq<Response>, lastExchangeAt: int, interval: int)

  predicate Due(p: Poller, now: int) {
    p.lastExchangeAt == 0 || now - p.lastExchangeAt >= p.interval || p.pending != []
  }

  /** One poll.  Pending responses are given up only for a reply; a reply with more than 20 commands is an
      error and adds nothing. */
  function Polled(p: Poller, now: int, reply: Option<Reply>): Poller {
    if !Due(p, now) || reply.None? then p
    else if |reply.value.commands| > BATCH then p.(pending := [])
    else Poller(Answers(reply.value.commands, now), now,
                if InPolicy(reply.value.interval) then reply.value.interval.value else p.interval)
  }

  class SecureInternetRelay {
    const enabled: bool
    var pending: seq<Response>
    var lastExchangeAt: int
    var interval: int
    var connected: bool
    ghost var offers: seq<Option<int>>

    constructor (enabled: bool)
      ensures Valid() && View() == Poller([], 0, 300) && this.enabled == enabled
    {
      this.enabled := enabled;
      pending, lastExchangeAt, interval, connected, offers := [], 0, 300, false, [];
    }

    ghost predicate Valid()
      reads this
    {
      |pending| <= BATCH && InForce(offers, interval) && 60 <= interval <= 900
    }

    ghost function View(): Poller
      reads this
    {
      Poller(pending, lastExchangeAt, interval)
    }

    /** `sent` is the response list of the exchange, which is always all of `pending`. */
    method Poll(now: int, reply: Option<Reply>, published: bool) returns (sent: Option<seq<Response>>)
      requires Valid()
      modifies this
      ensures Valid()
      ensures sent == if enabled && Due(old(View()), now) then Some(old(pending)) else None
      ensures View() == if enabled then Polled(old(View()), now, reply) else old(View())
      ensures offers == if sent.None? || reply.None? || |reply.value.commands| > BATCH then old(offers)
                        else old(offers) + [reply.value.interval]
      ensures enabled ==> (connected <==>
                published && (sent.None? || (reply.Some? && |reply.value.commands| <= BATCH)))
    {
      sent := None;
      if !enabled {
        return;
      }
      if lastExchangeAt == 0 || now - lastExchangeAt >= interval || pending != [] {
        sent := Some(FirstBatch(pending));
        if reply.None? {
          connected := false;
          return;
        }
        pending := [];
        if |reply.value.commands| > BATCH {
          connected := false;
          return;
        }
        AcceptCommands(reply.value.commands, now);
        AcceptPolicy(reply.value.interval);
        lastExchangeAt := now;
      }
      connected := published;
    }

    method AcceptCommands(commands: seq<Delivered>, now: int)
      requires pending == [] && |commands| <= BATCH
      modifies this`pending
      ensures pending == Answers(commands, now) && |pending| <= BATCH
    {
      for i := 0 to |commands|
        invariant pending == Answers(commands[..i], now) && |pending| <= i
      {
        assert commands[..i + 1][..i] == commands[..i];
        if WellFormedId(commands[i].id) && commands[i].expiresAt >= now {
          if commands[i].kind == "ping" {
            pending := pending + [Response(commands[i].id, "ok", "pong")];
          } else {
            pending := pending + [Response(commands[i].id, "unsupported", "")];
          }
        }
      }
      assert commands[..|commands|] == commands;
    }

    method AcceptPolicy(offered: Option<int>)
      requires InForce(offers, interval)
      modifies this`interval, this`offers
      ensures offers == old(offers) + [offered] && InForce(offers, interval) && 60 <= interval <= 900
      ensures interval == if InPolicy(offered) then offered.value else old(interval)
    {
      if offered.Some? && 60 <= offered.value <= 900 {
        interval := offered.value;
      }
      OneMoreOffer(offers, offered, old(interval), interval);
      offers := offers + [offered];
    }
  }

  lemma OneMoreOffer(offers: seq<Option<int>>, offered: Option<int>, before: int, after: int)
    requires InForce(offers, before) && after == if InPolicy(offered) then offered.value else before
    ensures InForce(offers + [offered], after) && 60 <= after <= 900
  {
    var all := offers + [offered];
    assert all[|offers|] == offered && forall i :: 0 <= i < |offers| ==> all[i] == offers[i];
    if !InPolicy(offered) && exists i :: 0 <= i < |offers| && InPolicy(offers[i]) {
      var i :| 0 <= i < |offers| && InPolicy(offers[i]) && offers[i] == Some(before)
               && forall j :: i < j < |offers| ==> !InPolicy(offers[j]);
      assert InPolicy(all[i]);
    }
  }

  // ---------------------------------------------------------------- runs of polls

  datatype Call = Call(now: int, reply: Option<Reply>)

  function AfterCalls(p: Poller, calls: seq<Call>): Poller {
    if calls == [] then p
    else Polled(AfterCalls(p, calls[..|calls| - 1]), calls[|calls| - 1].now, calls[|calls| - 1].reply)
  }

  /** The poll at call i is an exchange. */
  predicate ExchangeAt(p: Poller, calls: seq<Call>, i: nat) {
    i < |calls| && Due(AfterCalls(p, calls[..i]), calls[i].now)
  }

  /** Call i is an exchange with a proper reply. */
  predicate Exchanged(p: Poller, calls: seq<Call>, i: nat) {
    ExchangeAt(p, calls, i) && calls[i].reply.Some? && |calls[i].reply.value.commands| <= BATCH && calls[i].now != 0
  }

  lemma OneMoreCall(p: Poller, calls: seq<Call>, i: nat)
    requires i < |calls|
    ensures AfterCalls(p, calls[..i + 1]) == Polled(AfterCalls(p, calls[..i]), calls[i].now, calls[i].reply)
  {
    assert calls[..i + 1][..i] == calls[..i];
  }

  lemma {:induction false} QuietCallsChangeNothing(p: Poller, calls: seq<Call>, i: nat, k: nat)
    requires i < k <= |calls| && forall j :: i < j < k ==> !ExchangeAt(p, calls, j)
    ensures AfterCalls(p, calls[..k]) == AfterCalls(p, calls[..i + 1])
  {
    if k > i + 1 {
      QuietCallsChangeNothing(p, calls, i, k - 1);
      OneMoreCall(p, calls, k - 1);
      assert !ExchangeAt(p, calls, k - 1);
    }
  }

  /** After an exchange the next one is the first poll with an answer to send or at least the interval
      later, whatever polls there are in between. */
  lemma NextExchangeIff(p: Poller, calls: seq<Call>, i: nat, k: nat)
    requires i < k < |calls| && Exchanged(p, calls, i) && forall j :: i < j < k ==> !ExchangeAt(p, calls, j)
    ensures var q := AfterCalls(p, calls[..i + 1]);
            && q.pending == Answers(calls[i].reply.value.commands, calls[i].now)
            && (ExchangeAt(p, calls, k) <==> q.pending != [] || calls[k].now >= calls[i].now + q.interval)
  {
    OneMoreCall(p, calls, i);
    QuietCallsChangeNothing(p, calls, i, k);
  }

  /** When polls are at most `gap` apart, at the latest the interval plus that gap after an exchange there
      has been another one. */
  lemma ExchangesKeepPace(p: Poller, calls: seq<Call>, i: nat, k: nat, gap: nat)
    requires i < k < |calls| && Exchanged(p, calls, i)
    requires forall j :: i < j <= k ==> calls[j].now - calls[j - 1].now <= gap
    requires AfterCalls(p, calls[..i + 1]).interval > 0
    requires calls[k].now >= calls[i].now + AfterCalls(p, calls[..i + 1]).interval + gap
    ensures exists j :: i < j < k && ExchangeAt(p, calls, j)
  {
    assert calls[k].now - calls[k - 1].now <= gap;
    if k > i + 1 && forall j :: i < j < k ==> !ExchangeAt(p, calls, j) {
      NextExchangeIff(p, calls, i, k - 1);
      assert false;
    }
  }

  /** A reply with more than 20 commands loses the answers that were sent, and does not count as an exchange
      for the interval: the next poll is one again as if this one had not been. */
  lemma OversizedReplyDropsAnswers(p: Poller, calls: seq<Call>, i: nat, now: int)
    requires ExchangeAt(p, calls, i) && calls[i].reply.Some? && |calls[i].reply.value.commands| > 20
    ensures var before, after := AfterCalls(p, calls[..i]), AfterCalls(p, calls[..i + 1]);
            && after.pending == [] && after.interval == before.interval
            && (Due(after, now) <==> before.lastExchangeAt == 0 || now >= before.lastExchangeAt + before.interval)
  {
    OneMoreCall(p, calls, i);
  }

  /** Until the first reply every poll is an exchange. */
  lemma {:induction false} TriesUntilFirstReply(p: Poller, calls: seq<Call>, k: nat)
    requires p.lastExchangeAt == 0 && k < |calls| && forall j :: 0 <= j < k ==> calls[j].reply.None?
    ensures ExchangeAt(p, calls, k) && AfterCalls(p, calls[..k]) == p
  {
    if k != 0 {
      TriesUntilFirstReply(p, calls, k - 1);
      OneMoreCall(p, calls, k - 1);
    }
  }

  /** Answers go out with the very next poll and, while replies are lost, with every poll after that. */
  lemma {:induction false} AnswersGoOut(p: Poller, calls: seq<Call>, i: nat, k: nat)
    requires i < k < |calls| && Exchanged(p, calls, i)
    requires Answers(calls[i].reply.value.commands, calls[i].now) != []
    requires forall j :: i < j < k ==> calls[j].reply.None?
    ensures ExchangeAt(p, calls, k)
    ensures AfterCalls(p, calls[..k]).pending == Answers(calls[i].reply.value.commands, calls[i].now)
  {
    if k == i + 1 {
      OneMoreCall(p, calls, i);
    } else {
      AnswersGoOut(p, calls, i, k - 1);
      OneMoreCall(p, calls, k - 1);
    }
  }

  // ---------------------------------------------------------------- the relay's part

  /** Mark every answered command completed; an unknown id gets a document of its own. */
  function Complete(commands: map<string, Command>, responses: seq<Response>): map<string, Command> {
    if responses == [] then commands
    else
      var id := responses[|responses| - 1].id;
      var before := Complete(commands, responses[..|responses| - 1]);
      before[id := if id in before then before[id].(state := Completed) else Command("", Completed, 0)]
  }

  /** Hand out a batch of queued commands; those past their time are marked expired instead. */
  function Expire(commands: map<string, Command>, batch: seq<string>, now: int): map<string, Command> {
    map id | id in commands ::
      if id in batch && commands[id].expiresAt <= now then commands[id].(state := Expired) else commands[id]
  }

  function HandOut(commands: map<string, Command>, batch: seq<string>, now: int): seq<Delivered> {
    if batch == [] then []
    else
      var id := batch[|batch| - 1];
      var before := HandOut(commands, batch[..|batch| - 1], now);
      if id in commands && commands[id].expiresAt > now && commands[id].kind != ""
      then before + [Delivered(id, commands[id].kind, commands[id].expiresAt)] else before
  }

  /** What the query for queued commands returns: at most 20 different ones, all queued. */
  predicate QueuedBatch(commands: map<string, Command>, batch: seq<string>) {
    && |batch| <= BATCH
    && (forall i :: 0 <= i < |batch| ==> batch[i] in commands && commands[batch[i]].state.Queued?)
    && (forall i, j :: 0 <= i < j < |batch| ==> batch[i] != batch[j])
  }

  // ---------------------------------------------------------------- the session

  /** `added` lists every command id ever put on the pending list; `late` holds the response lists of
      requests the Agent gave up on, which the relay may still process at any time. */
  datatype Session = Session(
    commands: map<string, Command>, pending: seq<Response>, added: seq<string>, late: set<seq<Response>>)

  datatype Step =
    | QueuePing(id: string, expiresAt: int)
    | Exchange(batch: seq<string>, relayNow: int, agentNow: int)
    | LoseReply(batch: seq<string>, relayNow: int)
    | LoseRequest
    | RestartAgent
    | ArriveLate(responses: seq<Response>, batch: seq<string>, relayNow: int)

  function Sent(s: Session): seq<Response> {
    FirstBatch(s.pending)
  }

  predicate Enabled(s: Session, step: Step) {
    match step
    case QueuePing(id, _) => id !in s.commands
    case Exchange(batch, _, _) => QueuedBatch(Complete(s.commands, Sent(s)), batch)
    case LoseReply(batch, _) => QueuedBatch(Complete(s.commands, Sent(s)), batch)
    case LoseRequest => true
    case RestartAgent => true
    case ArriveLate(responses, batch, _) => responses in s.late && QueuedBatch(Complete(s.commands, responses), batch)
  }

  function Ids(responses: seq<Response>): (ids: seq<string>)
    ensures |ids| == |responses| && forall i :: 0 <= i < |ids| ==> ids[i] == responses[i].id
  {
    seq(|responses|, i requires 0 <= i < |responses| => responses[i].id)
  }

  function Apply(s: Session, step: Step): Session {
    match step
    case QueuePing(id, expiresAt) => s.(commands := s.commands[id := Command("ping", Queued, expiresAt)])
    case Exchange(batch, relayNow, agentNow) =>
      var completed := Complete(s.commands, Sent(s));
      var news := Answers(HandOut(completed, batch, relayNow), agentNow);
      s.(commands := Expire(completed, batch, relayNow), pending := news, added := s.added + Ids(news))
    case LoseReply(batch, relayNow) =>
      s.(commands := Expire(Complete(s.commands, Sent(s)), batch, relayNow))
    case LoseRequest => s.(late := s.late + {Sent(s)})
    case RestartAgent => s.(pending := [])
    case ArriveLate(responses, batch, relayNow) =>
      s.(commands := Expire(Complete(s.commands, responses), batch, relayNow))
  }

  ghost predicate Possible(s: Session, steps: seq<Step>)
    decreases |steps|
  {
    steps == [] || (Enabled(s, steps[0]) && Possible(Apply(s, steps[0]), steps[1..]))
  }

  function After(s: Session, steps: seq<Step>): Session
    decreases |steps|
  {
    if steps == [] then s else After(Apply(s, steps[0]), steps[1..])
  }

  predicate Distinct(ids: seq<string>) {
    forall i, j :: 0 <= i < j < |ids| ==> ids[i] != ids[j]
  }

  predicate IsCompleted(s: Session, id: string) {
    id in s.commands && s.commands[id].state.Completed?
  }

  /** Every id added is still pending or completed for good; only added ids are ever completed. */
  ghost predicate Inv(s: Session) {
    && |s.pending| <= BATCH
    && Distinct(s.added)
    && (forall i :: 0 <= i < |s.pending| ==> s.pending[i].id in s.added)
    && (forall id :: id in s.added ==> id in Ids(s.pending) || IsCompleted(s, id))
    && (forall id :: IsCompleted(s, id) ==> id in s.added)
    && (forall late: seq<Response>, i :: late in s.late && 0 <= i < |late| ==> late[i].id in s.added)
    && (forall id :: id in s.added ==> id in s.commands)
  }

  lemma {:induction false} CompleteMeaning(commands: map<string, Command>, responses: seq<Response>, id: string)
    ensures id in Complete(commands, responses) <==> id in commands || id in Ids(responses)
    ensures id in commands && id !in Ids(responses) ==> Complete(commands, responses)[id] == commands[id]
    ensures id in Ids(responses) ==> Complete(commands, responses)[id]
                                     == if id in commands then commands[id].(state := Completed)
                                        else Command("", Completed, 0)
  {
    if responses != [] {
      CompleteMeaning(commands, responses[..|responses| - 1], id);
      assert Ids(responses) == Ids(responses[..|responses| - 1]) + [responses[|responses| - 1].id];
    }
  }

  /** The ids handed out are ids of the batch, each once. */
  lemma {:induction false} HandOutIds(commands: map<string, Command>, batch: seq<string>, now: int)
    requires Distinct(batch)
    ensures var out := HandOut(commands, batch, now);
            && |out| <= |batch|
            && (forall i :: 0 <= i < |out| ==> out[i].id in batch)
            && (forall i, j :: 0 <= i < j < |out| ==> out[i].id != out[j].id)
  {
    if batch != [] {
      HandOutIds(commands, batch[..|batch| - 1], now);
    }
  }

  lemma {:induction false} AnswersIds(commands: seq<Delivered>, now: int)
    requires forall i, j :: 0 <= i < j < |commands| ==> commands[i].id != commands[j].id
    ensures var answers := Answers(commands, now);
            && |answers| <= |commands|
            && Distinct(Ids(answers))
            && (forall i :: 0 <= i < |answers| ==> exists k :: 0 <= k < |commands| && commands[k].id == answers[i].id)
  {
    if commands != [] {
      var front := commands[..|commands| - 1];
      AnswersIds(front, now);
      var answers := Answers(commands, now);
      forall i | 0 <= i < |answers| ensures exists k :: 0 <= k < |commands| && commands[k].id == answers[i].id {
        if i < |Answers(front, now)| {
          var k :| 0 <= k < |front| && front[k].id == Answers(front, now)[i].id;
          assert commands[k].id == answers[i].id;
        }
      }
    }
  }

  /** What one exchange adds was queued in the batch, each id once. */
  lemma AddedByExchange(s: Session, batch: seq<string>, relayNow: int, agentNow: int)
    requires QueuedBatch(Complete(s.commands, Sent(s)), batch)
    ensures var news := Answers(HandOut(Complete(s.commands, Sent(s)), batch, relayNow), agentNow);
            && |news| <= BATCH && Distinct(Ids(news))
            && forall i :: 0 <= i < |news| ==> news[i].id in batch
  {
    var out := HandOut(Complete(s.commands, Sent(s)), batch, relayNow);
    HandOutIds(Complete(s.commands, Sent(s)), batch, relayNow);
    AnswersIds(out, agentNow);
  }

  /** A completion at the relay, whenever it arrives, concerns ids added before. */
  lemma CompletionKeepsInv(s: Session, responses: seq<Response>, batch: seq<string>, now: int)
    requires Inv(s) && QueuedBatch(Complete(s.commands, responses), batch)
    requires forall i :: 0 <= i < |responses| ==> responses[i].id in s.added
    ensures Inv(s.(commands := Expire(Complete(s.commands, responses), batch, now)))
  {
    hide Expire, Complete, QueuedBatch;
    var t := s.(commands := Expire(Complete(s.commands, responses), batch, now));
    forall id ensures (IsCompleted(t, id) <==> IsCompleted(s, id) || id in Ids(responses))
      ensures id in s.commands ==> id in t.commands
    {
      CompletionEffect(s, responses, batch, now, id);
    }
  }

  lemma CompletionEffect(s: Session, responses: seq<Response>, batch: seq<string>, now: int, id: string)
    requires QueuedBatch(Complete(s.commands, responses), batch)
    ensures var t := s.(commands := Expire(Complete(s.commands, responses), batch, now));
            && (IsCompleted(t, id) <==> IsCompleted(s, id) || id in Ids(responses))
            && (id in s.commands ==> id in t.commands)
  {
    CompleteMeaning(s.commands, responses, id);
  }

  /** Once everything added is completed, ids from a batch of queued ones are new. */
  lemma NewIdsKeepInv(s: Session, news: seq<Response>, batch: seq<string>)
    requires Inv(s) && |news| <= BATCH && Distinct(Ids(news))
    requires forall id :: id in s.added ==> IsCompleted(s, id) && id !in batch
    requires forall i :: 0 <= i < |news| ==> news[i].id in batch && news[i].id in s.commands
    ensures Inv(s.(pending := news, added := s.added + Ids(news)))
  {
  }

  /** The exchange completes all that was pending, and hands out nothing that was added before. */
  lemma ExchangeSettles(s: Session, batch: seq<string>, relayNow: int, id: string)
    requires Inv(s) && QueuedBatch(Complete(s.commands, s.pending), batch)
    ensures id in s.added ==>
              IsCompleted(s.(commands := Expire(Complete(s.commands, s.pending), batch, relayNow)), id) && id !in batch
    ensures id in batch ==> id in Expire(Complete(s.commands, s.pending), batch, relayNow)
  {
    CompleteMeaning(s.commands, s.pending, id);
  }

  lemma ExchangeKeepsInv(s: Session, batch: seq<string>, relayNow: int, agentNow: int)
    requires Inv(s) && Enabled(s, Exchange(batch, relayNow, agentNow))
    ensures Inv(Apply(s, Exchange(batch, relayNow, agentNow)))
  {
    hide Complete, Expire, HandOut, Answers, QueuedBatch;
    var mid := s.(commands := Expire(Complete(s.commands, s.pending), batch, relayNow));
    CompletionKeepsInv(s, s.pending, batch, relayNow);
    AddedByExchange(s, batch, relayNow, agentNow);
    forall id ensures id in s.added ==> IsCompleted(mid, id) && id !in batch
      ensures id in batch ==> id in mid.commands
    {
      ExchangeSettles(s, batch, relayNow, id);
    }
    NewIdsKeepInv(mid, Answers(HandOut(Complete(s.commands, s.pending), batch, relayNow), agentNow), batch);
  }

  lemma {:induction false} HandOutMeaning(commands: map<string, Command>, batch: seq<string>, now: int, c: Delivered)
    ensures c in HandOut(commands, batch, now) <==>
              c.id in batch && c.id in commands && c.kind == commands[c.id].kind && c.kind != ""
              && c.expiresAt == commands[c.id].expiresAt && now < c.expiresAt
  {
    if batch != [] {
      HandOutMeaning(commands, batch[..|batch| - 1], now, c);
      assert batch == batch[..|batch| - 1] + [batch[|batch| - 1]];
    }
  }

  lemma {:induction false} AnswersMeaning(commands: seq<Delivered>, now: int, r: Response)
    ensures r in Answers(commands, now) <==>
              exists c :: c in commands && WellFormedId(c.id) && now <= c.expiresAt
                          && r == if c.kind == "ping" then Response(c.id, "ok", "pong")
                                  else Response(c.id, "unsupported", "")
  {
    if commands != [] {
      AnswersMeaning(commands[..|commands| - 1], now, r);
      assert commands == commands[..|commands| - 1] + [commands[|commands| - 1]];
    }
  }

  /** What an exchange makes of a command in its batch: past its time it is marked expired and not handed
      out; otherwise it stays queued, and the Agent answers it if it is well formed and still in time when
      it arrives, a ping with a pong. */
  lemma BatchIsAnswered(s: Session, batch: seq<string>, relayNow: int, agentNow: int, id: string)
    requires Enabled(s, Exchange(batch, relayNow, agentNow)) && id in batch
    ensures var t, c := Apply(s, Exchange(batch, relayNow, agentNow)), Complete(s.commands, Sent(s))[id];
            && t.commands[id].state == (if c.expiresAt <= relayNow then Expired else Queued)
            && (Response(id, "ok", "pong") in t.pending <==>
                  c.kind == "ping" && relayNow < c.expiresAt && agentNow <= c.expiresAt && WellFormedId(id))
            && (Response(id, "unsupported", "") in t.pending <==>
                  c.kind != "ping" && c.kind != "" && relayNow < c.expiresAt && agentNow <= c.expiresAt
                  && WellFormedId(id))
  {
    var commands := Complete(s.commands, Sent(s));
    var out, c := HandOut(commands, batch, relayNow), commands[id];
    assert c.state.Queued?;
    hide Complete, HandOut, Answers, WellFormedId;
    AnswersMeaning(out, agentNow, Response(id, "ok", "pong"));
    AnswersMeaning(out, agentNow, Response(id, "unsupported", ""));
    forall d ensures d in out && d.id == id <==> d == Delivered(id, c.kind, c.expiresAt) && c.kind != ""
                                                 && relayNow < c.expiresAt {
      HandOutMeaning(commands, batch, relayNow, d);
    }
  }

  lemma StepKeepsInv(s: Session, step: Step)
    requires Inv(s) && Enabled(s, step) && !step.RestartAgent?
    ensures Inv(Apply(s, step))
  {
    match step
    case QueuePing(id, _) =>
    case Exchange(batch, relayNow, agentNow) => ExchangeKeepsInv(s, batch, relayNow, agentNow);
    case LoseReply(batch, relayNow) => CompletionKeepsInv(s, s.pending, batch, relayNow);
    case LoseRequest =>
    case ArriveLate(responses, batch, relayNow) => CompletionKeepsInv(s, responses, batch, relayNow);
  }

  predicate NoRestart(steps: seq<Step>) {
    forall i :: 0 <= i < |steps| ==> !steps[i].RestartAgent?
  }

  lemma {:induction false} RunKeepsInv(s: Session, steps: seq<Step>)
    requires Inv(s) && Possible(s, steps) && NoRestart(steps)
    ensures Inv(After(s, steps))
    decreases |steps|
  {
    if steps != [] {
      StepKeepsInv(s, steps[0]);
      RunKeepsInv(Apply(s, steps[0]), steps[1..]);
    }
  }

  const EMPTY: Session := Session(map[], [], [], {})

  /** Over every run without a restart, with requests and replies lost and requests processed late: each
      command id is put on the pending list at most once, the list never exceeds one exchange, only
      answered commands are completed, and an answered one is completed or its answer is pending. */
  lemma AnsweredOnce(steps: seq<Step>)
    requires Possible(EMPTY, steps) && NoRestart(steps)
    ensures var t := After(EMPTY, steps);
            && |t.pending| <= BATCH && Sent(t) == t.pending
            && Distinct(t.added)
            && (forall id :: IsCompleted(t, id) ==> id in t.added)
            && (forall id :: id in t.added && !IsCompleted(t, id) ==> id in Ids(t.pending))
  {
    RunKeepsInv(EMPTY, steps);
  }

  /** A request may be given up at any time, and then arrives late or never: after any further steps the
      relay can still process it, and completes what it answers. */
  lemma GivenUpMayArrive(s: Session, steps: seq<Step>, now: int)
    ensures Enabled(s, LoseRequest)
    ensures var t, late := After(Apply(s, LoseRequest), steps), ArriveLate(Sent(s), [], now);
            && Enabled(t, late)
            && forall r :: r in Sent(s) ==> IsCompleted(Apply(t, late), r.id)
  {
    var given := Apply(s, LoseRequest);
    LateStays(given, steps, Sent(s));
    var t := After(given, steps);
    forall r | r in Sent(s) ensures IsCompleted(Apply(t, ArriveLate(Sent(s), [], now)), r.id) {
      var i :| 0 <= i < |Sent(s)| && Sent(s)[i] == r;
      assert Ids(Sent(s))[i] == r.id;
      CompleteMeaning(t.commands, Sent(s), r.id);
    }
  }

  lemma {:induction false} LateStays(s: Session, steps: seq<Step>, late: seq<Response>)
    requires late in s.late
    ensures late in After(s, steps).late
    decreases |steps|
  {
    if steps != [] {
      LateStays(Apply(s, steps[0]), steps[1..], late);
    }
  }

  /** What a restart leaves intact: pending, late and completed ids have been added. */
  ghost predicate Safe(s: Session) {
    && |s.pending| <= BATCH
    && (forall i :: 0 <= i < |s.pending| ==> s.pending[i].id in s.added)
    && (forall id :: IsCompleted(s, id) ==> id in s.added)
    && (forall late: seq<Response>, i :: late in s.late && 0 <= i < |late| ==> late[i].id in s.added)
  }

  lemma CompletionKeepsSafe(s: Session, responses: seq<Response>, batch: seq<string>, now: int)
    requires Safe(s) && QueuedBatch(Complete(s.commands, responses), batch)
    requires forall i :: 0 <= i < |responses| ==> responses[i].id in s.added
    ensures Safe(s.(commands := Expire(Complete(s.commands, responses), batch, now)))
  {
    hide Expire, Complete, QueuedBatch;
    var t := s.(commands := Expire(Complete(s.commands, responses), batch, now));
    forall id | IsCompleted(t, id) ensures id in t.added {
      CompletionEffect(s, responses, batch, now, id);
    }
  }

  lemma StepKeepsSafe(s: Session, step: Step)
    requires Safe(s) && Enabled(s, step)
    ensures Safe(Apply(s, step))
  {
    hide Complete, Expire, HandOut, Answers, QueuedBatch;
    match step
    case Exchange(batch, relayNow, agentNow) =>
      var mid := s.(commands := Expire(Complete(s.commands, s.pending), batch, relayNow));
      CompletionKeepsSafe(s, s.pending, batch, relayNow);
      AddedByExchange(s, batch, relayNow, agentNow);
      var news := Answers(HandOut(Complete(s.commands, s.pending), batch, relayNow), agentNow);
      var t := mid.(pending := news, added := s.added + Ids(news));
      forall i | 0 <= i < |news| ensures news[i].id in t.added {
        assert t.added[|s.added| + i] == news[i].id;
      }
    case LoseReply(batch, relayNow) => CompletionKeepsSafe(s, s.pending, batch, relayNow);
    case ArriveLate(responses, batch, relayNow) => CompletionKeepsSafe(s, responses, batch, relayNow);
    case _ =>
  }

  lemma {:induction false} RunKeepsSafe(s: Session, steps: seq<Step>)
    requires Safe(s) && Possible(s, steps)
    ensures Safe(After(s, steps))
    decreases |steps|
  {
    if steps != [] {
      StepKeepsSafe(s, steps[0]);
      RunKeepsSafe(Apply(s, steps[0]), steps[1..]);
    }
  }

  /** Over all runs, restarts included, a command is completed only after the Agent answered it. */
  lemma CompletedMeansAnswered(steps: seq<Step>, id: string)
    requires Possible(EMPTY, steps)
    ensures IsCompleted(After(EMPTY, steps), id) ==> id in After(EMPTY, steps).added
    ensures |After(EMPTY, steps).pending| <= BATCH
  {
    RunKeepsSafe(EMPTY, steps);
  }

  /** The first exchange after a restart repeats an answer exactly if it hands out, in time, a command
      whose answer was pending: the restart forgot it, and the relay still has it queued. */
  lemma RestartRepeatsIff(s: Session, batch: seq<string>, relayNow: int, agentNow: int)
    requires Inv(s) && Enabled(Apply(s, RestartAgent), Exchange(batch, relayNow, agentNow))
    ensures var news := Answers(HandOut(s.commands, batch, relayNow), agentNow);
            var t := Apply(Apply(s, RestartAgent), Exchange(batch, relayNow, agentNow));
            t.pending == news
            && (Distinct(t.added) <==> forall i :: 0 <= i < |news| ==> news[i].id !in Ids(s.pending))
  {
    hide Expire, HandOut, Answers;
    assert Complete(s.commands, []) == s.commands;
    AddedByExchange(Apply(s, RestartAgent), batch, relayNow, agentNow);
    var news := Answers(HandOut(s.commands, batch, relayNow), agentNow);
    assert QueuedBatch(s.commands, batch);
    hide Complete, Apply, Enabled;
    QueuedAreForgotten(s, batch, news);
    AppendDistinctIff(s.added, Ids(news));
    assert forall i :: 0 <= i < |news| ==> Ids(news)[i] == news[i].id;
  }

  /** Of the commands still queued those answered before are those whose answers are pending. */
  lemma QueuedAreForgotten(s: Session, batch: seq<string>, news: seq<Response>)
    requires Inv(s) && QueuedBatch(s.commands, batch) && forall i :: 0 <= i < |news| ==> news[i].id in batch
    ensures forall i :: 0 <= i < |news| ==> (news[i].id in s.added <==> news[i].id in Ids(s.pending))
  {
    forall i | 0 <= i < |news| ensures news[i].id in s.added <==> news[i].id in Ids(s.pending) {
      var k :| 0 <= k < |batch| && batch[k] == news[i].id;
      assert !IsCompleted(s, news[i].id);
      if news[i].id in Ids(s.pending) {
        var p :| 0 <= p < |s.pending| && Ids(s.pending)[p] == news[i].id;
        assert s.pending[p].id in s.added;
      }
    }
  }

  lemma AppendDistinctIff(a: seq<string>, b: seq<string>)
    requires Distinct(a) && Distinct(b)
    ensures Distinct(a + b) <==> forall i :: 0 <= i < |b| ==> b[i] !in a
  {
    if exists i :: 0 <= i < |b| && b[i] in a {
      var i :| 0 <= i < |b| && b[i] in a;
      var k :| 0 <= k < |a| && a[k] == b[i];
      assert (a + b)[k] == (a + b)[|a| + i];
    }
  }

  /** A ping handed out, a restart of the Agent, and another exchange: the answer is given twice. */
  function RestartBetween(): seq<Step> {
    [QueuePing("p", 100), Exchange(["p"], 0, 0), RestartAgent, Exchange(["p"], 1, 1)]
  }

  const PONG: Response := Response("p", "ok", "pong")
  const PINGED: Session := Session(map["p" := Command("ping", Queued, 100)], [], [], {})
  const ANSWERED: Session := PINGED.(pending := [PONG], added := ["p"])
  const RESTARTED: Session := PINGED.(added := ["p"])
  const REPEATED: Session := PINGED.(pending := [PONG], added := ["p", "p"])

  lemma RestartRepeats()
    ensures Possible(EMPTY, RestartBetween()) && After(EMPTY, RestartBetween()) == REPEATED
  {
    hide Apply, Enabled;
    OtherSteps();
    PingIsAnswered(PINGED, 0);
    PingIsAnswered(RESTARTED, 1);
    RunIs(EMPTY, RestartBetween(), [EMPTY, PINGED, ANSWERED, RESTARTED, REPEATED]);
  }

  lemma OtherSteps()
    ensures Enabled(EMPTY, QueuePing("p", 100)) && Apply(EMPTY, QueuePing("p", 100)) == PINGED
    ensures Enabled(ANSWERED, RestartAgent) && Apply(ANSWERED, RestartAgent) == RESTARTED
    ensures PINGED.added + ["p"] == ANSWERED.added && RESTARTED.added + ["p"] == REPEATED.added
  {
    assert PINGED.commands == map[]["p" := Command("ping", Queued, 100)];
  }

  /** A run given by its intermediate states. */
  lemma {:induction false} RunIs(s: Session, steps: seq<Step>, states: seq<Session>)
    requires |states| == |steps| + 1 && states[0] == s
    requires forall i :: 0 <= i < |steps| ==>
               Enabled(states[i], steps[i]) && Apply(states[i], steps[i]) == states[i + 1]
    ensures Possible(s, steps) && After(s, steps) == states[|steps|]
    decreases |steps|
  {
    if steps != [] {
      RunIs(states[1], steps[1..], states[1..]);
    }
  }

  lemma OneIsHandedOut(commands: map<string, Command>, id: string, now: int)
    requires id in commands && commands[id].expiresAt > now && commands[id].kind != ""
    ensures HandOut(commands, [id], now) == [Delivered(id, commands[id].kind, commands[id].expiresAt)]
  {
    var batch, none: seq<Delivered> := [id], [];
    assert batch[..0] == [];
    assert HandOut(commands, batch[..0], now) == none;
  }

  lemma OneIsAnswered(c: Delivered, now: int)
    requires Accepts(c, now)
    ensures Answers([c], now) == [Answer(c)]
  {
    hide Accepts, Answer;
    var commands, none: seq<Response> := [c], [];
    assert commands[..0] == [];
    assert Answers(commands[..0], now) == none;
  }

  lemma PingIsAnswered(s: Session, now: int)
    requires s.commands == map["p" := Command("ping", Queued, 100)] && s.pending == [] && now < 100
    ensures Enabled(s, Exchange(["p"], now, now))
    ensures Apply(s, Exchange(["p"], now, now))
         == s.(pending := [PONG], added := s.added + ["p"])
  {
    var batch := ["p"];
    assert Complete(s.commands, []) == s.commands && Expire(s.commands, batch, now) == s.commands;
    hide Complete, Expire, HandOut, Answers;
    OneIsHandedOut(s.commands, "p", now);
    OneIsAnswered(Delivered("p", "ping", 100), now);
    assert Ids([PONG]) == ["p"];
  }
}
