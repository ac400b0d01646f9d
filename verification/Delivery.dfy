/**
  The delivery protocol between any number of Agents and the relay
  (pbxsense_agent/relay.py with `publish_event` of push_relay/app.py), as a step system.

  An Agent crashes at any point and restarts from its file; requests and responses get lost; the
  Agent gives up waiting and sends again while the relay still works on the first request.  In the
  relay, creating the idempotency record, sending the multicast and rolling back are separate steps.
 */
module Delivery {
  import opened Common
  import opened AgentOutbox

  /** Event records live under a site, so ids of different sites never meet. */
  datatype Key = Key(site: string, eventId: string)

  datatype Request = Request(site: string, item: Item) {
    function EventKey(): Key
      requires item.Event?
    {
      Key(site, item.eventId)
    }
  }

  // ---------------------------------------------------------------- one Agent process

  datatype Process = Process(mem: Agent, disk: Agent, awaiting: Option<nat>)

  datatype Act =
    | PruneTo(active: set<string>)
    | OfferOne(signal: Signal)
    | Register(token: string, profile: string)
    | SaveFile
    | SendHead(id: nat)
    | Receive(reply: Reply)
    | GiveUp
    | Crash

  predicate CanAct(p: Process, act: Act) {
    match act
    case SendHead(_) => p.awaiting.None? && p.mem.outbox != []
    case Receive(_) => p.awaiting.Some? && p.mem.outbox != []
    case GiveUp => p.awaiting.Some?
    case Crash => true
    case _ => p.awaiting.None?
  }

  /** Change memory and write the file in the same step, as `_queue` and `_flush` do. */
  function Saved(a: Agent): Process {
    Process(a, a, None)
  }

  function Do(p: Process, act: Act): Process
    requires CanAct(p, act)
  {
    match act
    case PruneTo(active) => p.(mem := Prune(p.mem, active))
    case OfferOne(signal) =>
      var mem := Offer(p.mem, signal);
      if Fresh(p.mem.delivered, signal) then Saved(mem) else p.(mem := mem)
    case Register(token, profile) => Saved(Enqueue(p.mem, Device(token, profile)))
    case SaveFile => Saved(p.mem)
    case SendHead(id) => p.(awaiting := Some(id))
    case Receive(reply) => if Final(reply) then Saved(SettleHead(p.mem, reply)) else p.(awaiting := None)
    case GiveUp => p.(awaiting := None)
    case Crash => Process(p.disk, p.disk, None)
  }

  /** Memory and file are sound; memory may have forgotten departed Signals, and seen Signals that
      change nothing, since the last save. */
  ghost predicate Durable(p: Process) {
    && Sound(p.mem) && Sound(p.disk)
    && p.disk == p.mem.(delivered := p.disk.delivered, rounds := p.disk.rounds)
    && forall id :: id in p.mem.delivered ==> Get(p.disk.delivered, id) == Some(p.mem.delivered[id])
  }

  lemma ActKeepsDurable(p: Process, act: Act)
    requires Durable(p) && CanAct(p, act)
    ensures Durable(Do(p, act))
  {
    match act
    case PruneTo(active) => PruneKeepsSound(p.mem, active);
    case OfferOne(signal) => OfferKeepsSound(p.mem, signal);
    case Register(token, profile) => EnqueueDeviceKeepsSound(p.mem, Device(token, profile));
    case Receive(reply) =>
      if Final(reply) {
        SettleHeadKeepsSound(p.mem, reply);
      }
    case _ =>
  }

  /** A fingerprint gets into the file, or changes there, only in the save that queues its event. */
  lemma SavedWithItsEvent(p: Process, act: Act, id: string)
    requires Durable(p) && CanAct(p, act)
    requires id in Do(p, act).disk.delivered && Get(p.disk.delivered, id) != Get(Do(p, act).disk.delivered, id)
    ensures act.OfferOne? && act.signal.id == id && Do(p, act).disk.delivered[id] == Fingerprint(act.signal)
    ensures Do(p, act).disk.queued == p.disk.queued + [EventOf(act.signal)]
  {
  }

  // ---------------------------------------------------------------- the relay

  /** One `publish_event` that created its record and has not finished; `failed` after FCM raised. */
  datatype Handler = Handler(key: Key, failed: bool)

  /** `multicasts` counts successful sends; `silent` holds the keys accepted with no recipient,
      `ignored` the tips, and `orphaned` those whose handler died or could not delete its record. */
  datatype Relay = Relay(
    handlers: map<nat, Handler>, records: set<Key>, multicasts: multiset<Key>,
    silent: set<Key>, ignored: set<Key>, orphaned: set<Key>)

  datatype Work =
    | Refuse(status: int)
    | AcceptDevice
    | IgnoreTip
    | Create
    | NoRecipients
    | SendSucceeds(thenError: bool)
    | SendFails
    | Rollback
    | RollbackFails
    | Die

  /** The first four answer a request that has just arrived, the others continue a handler. */
  predicate Starts(work: Work) {
    work.Refuse? || work.AcceptDevice? || work.IgnoreTip? || work.Create?
  }

  predicate CanWork(r: Relay, id: nat, request: Request, work: Work) {
    match work
    case Refuse(status) => status >= 400
    case AcceptDevice => request.item.Device?
    case IgnoreTip => IsTip(request.item)
    case Create => request.item.Event? && !IsTip(request.item)
    case NoRecipients => id in r.handlers && !r.handlers[id].failed
    case SendSucceeds(_) => id in r.handlers && !r.handlers[id].failed
    case SendFails => id in r.handlers && !r.handlers[id].failed
    case Rollback => id in r.handlers && r.handlers[id].failed
    case RollbackFails => id in r.handlers && r.handlers[id].failed
    case Die => id in r.handlers
  }

  function Perform(r: Relay, id: nat, request: Request, work: Work): Relay
    requires CanWork(r, id, request, work)
  {
    match work
    case Refuse(_) => r
    case AcceptDevice => r
    case IgnoreTip => r.(ignored := r.ignored + {request.EventKey()})
    case Create =>
      var key := request.EventKey();
      if key in r.records then r
      else r.(records := r.records + {key}, handlers := r.handlers[id := Handler(key, false)])
    case NoRecipients => r.(handlers := r.handlers - {id}, silent := r.silent + {r.handlers[id].key})
    case SendSucceeds(_) =>
      r.(handlers := r.handlers - {id}, multicasts := r.multicasts + multiset{r.handlers[id].key})
    case SendFails => r.(handlers := r.handlers[id := r.handlers[id].(failed := true)])
    case Rollback => r.(handlers := r.handlers - {id}, records := r.records - {r.handlers[id].key})
    case RollbackFails => r.(handlers := r.handlers - {id}, orphaned := r.orphaned + {r.handlers[id].key})
    case Die => r.(handlers := r.handlers - {id}, orphaned := r.orphaned + {r.handlers[id].key})
  }

  function Response(r: Relay, request: Request, work: Work): Option<Reply>
    requires work.Create? ==> request.item.Event?
  {
    match work
    case Refuse(status) => Some(Rejected(status))
    case AcceptDevice => Some(Accepted)
    case IgnoreTip => Some(Accepted)
    case Create => if request.EventKey() in r.records then Some(Accepted) else None
    case NoRecipients => Some(Accepted)
    case SendSucceeds(thenError) => Some(if thenError then Rejected(500) else Accepted)
    case SendFails => None
    case Rollback => Some(Rejected(500))
    case RollbackFails => Some(Rejected(500))
    case Die => None
  }

  predicate Done(r: Relay, key: Key) {
    key in r.multicasts || key in r.silent
  }

  ghost predicate Owned(r: Relay, key: Key) {
    exists id :: id in r.handlers && r.handlers[id].key == key
  }

  /** Per record one unfinished handler, or one successful multicast, or no handler ever again. */
  ghost predicate Exclusive(r: Relay) {
    && (forall id :: id in r.handlers ==>
          var key := r.handlers[id].key;
          key in r.records && key !in r.multicasts && key !in r.silent && key !in r.orphaned)
    && (forall key :: key in r.orphaned ==> key in r.records && key !in r.multicasts && key !in r.silent)
    && (forall i, j :: i in r.handlers && j in r.handlers && r.handlers[i].key == r.handlers[j].key ==> i == j)
    && (forall key :: r.multicasts[key] <= 1)
    && (forall key :: key in r.multicasts || key in r.silent ==> key in r.records)
  }

  /** A record stands for an event that is done, being sent, or orphaned. */
  ghost predicate Honest(r: Relay) {
    forall key :: key in r.records ==> Done(r, key) || Owned(r, key) || key in r.orphaned
  }

  /** The relay neither dies between create and send nor fails to delete a record. */
  predicate Survives(work: Work) {
    !work.Die? && !work.RollbackFails?
  }

  lemma CreateKeepsExclusive(r: Relay, id: nat, key: Key)
    requires Exclusive(r) && id !in r.handlers && key !in r.records
    ensures Exclusive(r.(records := r.records + {key}, handlers := r.handlers[id := Handler(key, false)]))
  {
  }

  /** A handler ends: its record goes, or stays with at most one of the two outcomes. */
  lemma FinishKeepsExclusive(r: Relay, id: nat)
    requires Exclusive(r) && id in r.handlers
    ensures var key, t := r.handlers[id].key, r.(handlers := r.handlers - {id});
            && Exclusive(t.(orphaned := t.orphaned + {key}))
            && Exclusive(t.(records := t.records - {key}))
            && Exclusive(t.(silent := t.silent + {key}))
            && Exclusive(t.(multicasts := t.multicasts + multiset{key}))
  {
    var key, t := r.handlers[id].key, r.(handlers := r.handlers - {id});
    assert forall i :: i in t.handlers ==> t.handlers[i].key != key;
  }

  lemma WorkKeepsExclusive(r: Relay, id: nat, request: Request, work: Work)
    requires Exclusive(r) && CanWork(r, id, request, work)
    requires Starts(work) ==> id !in r.handlers
    ensures Exclusive(Perform(r, id, request, work))
  {
    match work
    case Create =>
      if request.EventKey() !in r.records {
        CreateKeepsExclusive(r, id, request.EventKey());
      }
    case NoRecipients => FinishKeepsExclusive(r, id);
    case SendSucceeds(_) => FinishKeepsExclusive(r, id);
    case Rollback => FinishKeepsExclusive(r, id);
    case RollbackFails => FinishKeepsExclusive(r, id);
    case Die => FinishKeepsExclusive(r, id);
    case _ =>
  }

  lemma WorkKeepsHonest(r: Relay, id: nat, request: Request, work: Work)
    requires Exclusive(r) && Honest(r) && CanWork(r, id, request, work)
    requires Starts(work) ==> id !in r.handlers
    ensures Honest(Perform(r, id, request, work))
  {
    var t := Perform(r, id, request, work);
    forall key | key in t.records ensures Done(t, key) || Owned(t, key) || key in t.orphaned {
      if key !in r.records {
        assert t.handlers[id].key == key;
      } else if !Done(r, key) && key !in r.orphaned {
        var i :| i in r.handlers && r.handlers[i].key == key;
        if i != id || work.SendFails? {
          assert i in t.handlers && t.handlers[i].key == key;
        }
      }
    }
  }

  // ---------------------------------------------------------------- the whole system

  /** `sent` remembers every request by its number. */
  datatype System = System(
    processes: map<string, Process>, relay: Relay,
    sent: map<nat, Request>, network: set<nat>, replies: map<nat, Reply>)

  datatype Step =
    | AgentStep(site: string, act: Act)
    | RelayStep(id: nat, work: Work)
    | LoseRequest(id: nat)
    | LoseReply(id: nat)

  predicate Enabled(s: System, step: Step) {
    match step
    case AgentStep(site, act) =>
      && site in s.processes
      && CanAct(s.processes[site], act)
      && (act.SendHead? ==> act.id !in s.sent)
      && (act.Receive? ==> Get(s.replies, s.processes[site].awaiting.value) == Some(act.reply))
    case RelayStep(id, work) =>
      && id in s.sent
      && CanWork(s.relay, id, s.sent[id], work)
      && (Starts(work) ==> id in s.network)
    case LoseRequest(id) => id in s.network
    case LoseReply(id) => id in s.replies
  }

  function Apply(s: System, step: Step): System
    requires Enabled(s, step)
  {
    match step
    case AgentStep(site, act) =>
      var p := s.processes[site];
      var s' := s.(processes := s.processes[site := Do(p, act)]);
      if act.SendHead? then
        s'.(sent := s.sent[act.id := Request(site, p.mem.outbox[0])], network := s.network + {act.id})
      else if act.Receive? then
        s'.(replies := s.replies - {p.awaiting.value})
      else s'
    case RelayStep(id, work) =>
      var s' := s.(relay := Perform(s.relay, id, s.sent[id], work), network := s.network - {id});
      (match Response(s.relay, s.sent[id], work)
       case Some(reply) => s'.(replies := s.replies[id := reply])
       case None => s')
    case LoseRequest(id) => s.(network := s.network - {id})
    case LoseReply(id) => s.(replies := s.replies - {id})
  }

  const NEW_AGENT := Agent(map[], [], [], [], [], [])
  const NEW_RELAY := Relay(map[], {}, multiset{}, {}, {}, {})

  /** Any number of Agents that never queued anything, and an empty relay. */
  predicate Initial(s: System) {
    && (forall site :: site in s.processes ==> s.processes[site] == Saved(NEW_AGENT))
    && s.relay == NEW_RELAY && s.sent == map[] && s.network == {} && s.replies == map[]
  }

  /** `steps` can be taken one after the other from s. */
  predicate Possible(s: System, steps: seq<Step>)
    decreases |steps|
  {
    steps == [] || (Enabled(s, steps[0]) && Possible(Apply(s, steps[0]), steps[1..]))
  }

  function After(s: System, steps: seq<Step>): System
    requires Possible(s, steps)
    decreases |steps|
  {
    if steps == [] then s else After(Apply(s, steps[0]), steps[1..])
  }

  /** An Agent waits for an answer about its own head item. */
  ghost predicate AwaitsHead(s: System, site: string)
    requires site in s.processes
  {
    var p := s.processes[site];
    p.awaiting.Some? ==>
      p.awaiting.value in s.sent && p.mem.outbox != []
      && s.sent[p.awaiting.value] == Request(site, p.mem.outbox[0])
  }

  /** Requests, handlers and responses belong to the request numbers they carry. */
  ghost predicate Linked(s: System) {
    && (forall site :: site in s.processes ==> AwaitsHead(s, site))
    && (forall id :: id in s.relay.handlers ==>
          id in s.sent && s.sent[id].item.Event? && s.sent[id].EventKey() == s.relay.handlers[id].key)
    && (forall id :: id in s.network ==> id in s.sent && id !in s.relay.handlers)
    && (forall id :: id in s.replies ==> id in s.sent)
  }

  /** Tips are never sent, so the relay has none to ignore. */
  ghost predicate NoTips(s: System) {
    s.relay.ignored == {} && forall id :: id in s.sent ==> !IsTip(s.sent[id].item)
  }

  ghost predicate Inv(s: System) {
    && Linked(s)
    && Exclusive(s.relay) && Honest(s.relay) && NoTips(s)
    && (forall site :: site in s.processes ==> Durable(s.processes[site]))
  }

  lemma AgentStepKeepsLinked(s: System, step: Step)
    requires Linked(s) && Enabled(s, step) && step.AgentStep?
    ensures Linked(Apply(s, step))
  {
    var t := Apply(s, step);
    forall site | site in t.processes ensures AwaitsHead(t, site) {
      assert AwaitsHead(s, site);
    }
  }

  /** A handler was there before with the same key, or has just been created for its request. */
  lemma HandlersAfter(r: Relay, id: nat, request: Request, work: Work, i: nat)
    requires CanWork(r, id, request, work) && i in Perform(r, id, request, work).handlers
    ensures (i in r.handlers && r.handlers[i].key == Perform(r, id, request, work).handlers[i].key)
         || (i == id && work.Create? && Perform(r, id, request, work).handlers[i].key == request.EventKey())
  {
  }

  lemma RelayStepKeepsLinked(s: System, step: Step)
    requires Linked(s) && Enabled(s, step) && step.RelayStep?
    ensures Linked(Apply(s, step))
  {
    var t := Apply(s, step);
    assert t.sent == s.sent && t.network == s.network - {step.id} && t.processes == s.processes;
    forall site | site in t.processes ensures AwaitsHead(t, site) {
      assert AwaitsHead(s, site);
    }
    forall i | i in t.relay.handlers
      ensures i in t.sent && t.sent[i].item.Event? && t.sent[i].EventKey() == t.relay.handlers[i].key
      ensures i !in t.network
    {
      HandlersAfter(s.relay, step.id, s.sent[step.id], step.work, i);
    }
  }

  lemma LossKeepsLinked(s: System, step: Step)
    requires Linked(s) && Enabled(s, step) && (step.LoseRequest? || step.LoseReply?)
    ensures Linked(Apply(s, step))
  {
  }

  lemma AgentStepKeepsNoTips(s: System, step: Step)
    requires NoTips(s) && Enabled(s, step) && step.AgentStep? && Durable(s.processes[step.site])
    ensures NoTips(Apply(s, step))
  {
    OutboxHasNoTips(s.processes[step.site].mem);
    hide Durable, Do, Sound;
  }

  lemma AgentStepKeepsInv(s: System, step: Step)
    requires Inv(s) && Enabled(s, step) && step.AgentStep?
    ensures Inv(Apply(s, step))
  {
    hide Durable, Linked, Exclusive, Honest, NoTips, Do;
    var t, p := Apply(s, step), s.processes[step.site];
    assert t.relay == s.relay && t.processes == s.processes[step.site := Do(p, step.act)];
    hide Apply;
    AgentStepKeepsNoTips(s, step);
    AgentStepKeepsLinked(s, step);
    ActKeepsDurable(p, step.act);
  }

  lemma RelayStepKeepsNoTips(s: System, step: Step)
    requires NoTips(s) && Enabled(s, step) && step.RelayStep?
    ensures NoTips(Apply(s, step))
  {
  }

  lemma RelayStepKeepsInv(s: System, step: Step)
    requires Inv(s) && Enabled(s, step) && step.RelayStep?
    ensures Inv(Apply(s, step))
  {
    hide Durable, Exclusive, Honest, NoTips, Perform;
    RelayStepKeepsNoTips(s, step);
    RelayStepKeepsLinked(s, step);
    WorkKeepsHonest(s.relay, step.id, s.sent[step.id], step.work);
    WorkKeepsExclusive(s.relay, step.id, s.sent[step.id], step.work);
    assert Apply(s, step).processes == s.processes;
  }

  lemma StepKeepsInv(s: System, step: Step)
    requires Inv(s) && Enabled(s, step)
    ensures Inv(Apply(s, step))
  {
    if step.AgentStep? {
      AgentStepKeepsInv(s, step);
    } else if step.RelayStep? {
      RelayStepKeepsInv(s, step);
    } else {
      LossKeepsLinked(s, step);
    }
  }

  lemma InitialInv(s: System)
    requires Initial(s)
    ensures Inv(s)
  {
    assert Items(NEW_AGENT.settled) == [];
    forall token ensures NewestDeviceKept(NEW_AGENT, token) {
    }
  }

  lemma {:induction false} RunKeepsInv(s: System, steps: seq<Step>)
    requires Inv(s) && Possible(s, steps)
    ensures Inv(After(s, steps))
    decreases |steps|
  {
    if steps != [] {
      StepKeepsInv(s, steps[0]);
      RunKeepsInv(Apply(s, steps[0]), steps[1..]);
    }
  }

  // ---------------------------------------------------------------- main results

  /** At-most-once push, over every interleaving. */
  lemma AtMostOnce(s: System, steps: seq<Step>, key: Key)
    requires Initial(s) && Possible(s, steps)
    ensures After(s, steps).relay.multicasts[key] <= 1
  {
    InitialInv(s);
    RunKeepsInv(s, steps);
  }

  /** An occurrence token carries more than the Signal's id. */
  predicate ProperToken(s: Signal) {
    s.notificationId != Some(s.id)
  }

  /** A request about a later outage starts a handler, and so a push, exactly if its key has no record.
      Two outages of one Signal share their key exactly if their tokens are equal or both absent; then
      the later one is acknowledged without any push once the first was multicast. */
  lemma LaterOutageIsPushedIff(s: System, steps: seq<Step>, site: string, first: Signal, later: Signal, id: nat)
    requires Initial(s) && Possible(s, steps)
    requires first.id == later.id && ProperToken(first) && ProperToken(later)
    requires Key(site, EventOf(first).eventId) in After(s, steps).relay.multicasts
    requires Get(After(s, steps).sent, id) == Some(Request(site, EventOf(later)))
    requires Enabled(After(s, steps), RelayStep(id, Create))
    ensures var r, t := After(s, steps).relay, Apply(After(s, steps), RelayStep(id, Create));
            var key, firstKey := Key(site, EventOf(later).eventId), Key(site, EventOf(first).eventId);
            && (id in t.relay.handlers <==> key !in r.records)
            && (key == firstKey <==> first.notificationId == later.notificationId)
            && (key == firstKey ==> t.relay == r && Get(t.replies, id) == Some(Accepted))
  {
    InitialInv(s);
    RunKeepsInv(s, steps);
  }

  /** Some step of the run handled a request with this key; `sent` says what each request was. */
  ghost predicate Handled(steps: seq<Step>, sent: map<nat, Request>, key: Key) {
    exists i :: 0 <= i < |steps| && Creates(steps[i], sent, key)
  }

  predicate Creates(step: Step, sent: map<nat, Request>, key: Key) {
    step.RelayStep? && step.work.Create? && step.id in sent && sent[step.id].item.Event?
    && sent[step.id].EventKey() == key
  }

  lemma {:induction false} SentStays(s: System, steps: seq<Step>, id: nat)
    requires Possible(s, steps) && id in s.sent
    ensures Get(After(s, steps).sent, id) == Some(s.sent[id])
    decreases |steps|
  {
    if steps != [] {
      assert Get(Apply(s, steps[0]).sent, id) == Some(s.sent[id]);
      SentStays(Apply(s, steps[0]), steps[1..], id);
    }
  }

  /** Only handling a request makes a record. */
  lemma {:induction false} RecordsAreHandled(s: System, steps: seq<Step>, key: Key)
    requires Possible(s, steps) && key !in s.relay.records && key in After(s, steps).relay.records
    ensures Handled(steps, After(s, steps).sent, key)
    decreases |steps|
  {
    var next, rest := Apply(s, steps[0]), steps[1..];
    var sent := After(s, steps).sent;
    if key in next.relay.records {
      assert Creates(steps[0], s.sent, key);
      SentStays(s, steps, steps[0].id);
      assert Creates(steps[0], sent, key);
    } else {
      RecordsAreHandled(next, rest, key);
      var i :| 0 <= i < |rest| && Creates(rest[i], sent, key);
      assert Creates(steps[i + 1], sent, key);
    }
  }

  /** Nothing is lost at an Agent, also across crashes: its file always accounts for every queued event,
      in queue order, and the events queued and the fingerprints recorded are exactly those that the
      rounds of Signals in the file call for. */
  lemma NoSilentLoss(s: System, steps: seq<Step>, site: string)
    requires Initial(s) && Possible(s, steps) && site in After(s, steps).processes
    ensures var p := After(s, steps).processes[site];
            && Events(Items(p.disk.settled)) + Events(p.disk.outbox) == Events(p.disk.queued)
            && p.disk.queued == p.mem.queued
            && (forall token :: NewestDeviceKept(p.disk, token))
            && p.disk.rejected == LastTwenty(Rejections(p.disk.settled)) && |p.disk.rejected| <= 20
            && Events(p.disk.queued) == Announcements(p.disk.rounds)
            && p.disk.delivered == DeliveredAfter(p.disk.rounds)
  {
    InitialInv(s);
    RunKeepsInv(s, steps);
    LastTwentyMeaning(Rejections(After(s, steps).processes[site].disk.settled));
  }

  /** The relay refuses only with 408, 425, 429 or a server error. */
  predicate Patient(step: Step) {
    step.RelayStep? && step.work.Refuse? ==> step.work.status in {408, 425, 429} || step.work.status >= 500
  }

  predicate AllAccepted(settled: seq<Settlement>) {
    forall x :: x in settled ==> x.reply.Accepted?
  }

  /** Replies on their way accept or ask to try later, and only acceptances have been settled. */
  ghost predicate NoneRefused(s: System) {
    && (forall id :: id in s.replies ==> s.replies[id].Accepted? || TryLater(s.replies[id]))
    && (forall site :: site in s.processes ==>
          AllAccepted(s.processes[site].mem.settled) && AllAccepted(s.processes[site].disk.settled))
  }

  lemma StepKeepsNoneRefused(s: System, step: Step)
    requires NoneRefused(s) && Enabled(s, step) && Patient(step)
    ensures NoneRefused(Apply(s, step))
  {
    if step.AgentStep? {
      var p := s.processes[step.site];
      ActKeepsAccepted(p, step.act);
      assert step.act.Receive? ==> p.awaiting.value in s.replies;
    }
  }

  lemma ActKeepsAccepted(p: Process, act: Act)
    requires CanAct(p, act) && AllAccepted(p.mem.settled) && AllAccepted(p.disk.settled)
    requires act.Receive? ==> act.reply.Accepted? || TryLater(act.reply)
    ensures AllAccepted(Do(p, act).mem.settled) && AllAccepted(Do(p, act).disk.settled)
  {
  }

  lemma {:induction false} RunKeepsNoneRefused(s: System, steps: seq<Step>)
    requires NoneRefused(s) && Possible(s, steps) && forall i :: 0 <= i < |steps| ==> Patient(steps[i])
    ensures NoneRefused(After(s, steps))
    decreases |steps|
  {
    if steps != [] {
      StepKeepsNoneRefused(s, steps[0]);
      RunKeepsNoneRefused(Apply(s, steps[0]), steps[1..]);
    }
  }

  lemma {:induction false} AcceptedAreNotRejected(settled: seq<Settlement>)
    requires AllAccepted(settled)
    ensures Rejections(settled) == []
  {
    if settled != [] {
      AcceptedAreNotRejected(settled[..|settled| - 1]);
    }
  }

  /** While the relay refuses only with 408, 425, 429 or server errors, nothing is ever quarantined: every
      event queued is accepted or still in the outbox, in memory and in the file, in queue order. */
  lemma PatientRunLosesNothing(s: System, steps: seq<Step>, site: string, e: Item)
    requires Initial(s) && Possible(s, steps) && forall i :: 0 <= i < |steps| ==> Patient(steps[i])
    requires site in After(s, steps).processes
    ensures var p := After(s, steps).processes[site];
            && p.mem.rejected == [] && p.disk.rejected == []
            && (e in p.mem.queued && e.Event? ==> e in p.mem.outbox || Settlement(e, Accepted) in p.mem.settled)
            && (e in p.disk.queued && e.Event? ==> e in p.disk.outbox || Settlement(e, Accepted) in p.disk.settled)
  {
    InitialInv(s);
    RunKeepsInv(s, steps);
    RunKeepsNoneRefused(s, steps);
    var p := After(s, steps).processes[site];
    AcceptedOrWaiting(p.mem, e);
    AcceptedOrWaiting(p.disk, e);
  }

  lemma AcceptedOrWaiting(a: Agent, e: Item)
    requires Sound(a) && AllAccepted(a.settled)
    ensures a.rejected == []
    ensures e in a.queued && e.Event? ==> e in a.outbox || Settlement(e, Accepted) in a.settled
  {
    AcceptedAreNotRejected(a.settled);
    FilterMembers(IsEvent(), a.queued);
    FilterMembers(IsEvent(), a.outbox);
    FilterMembers(IsEvent(), Items(a.settled));
    if e in a.queued && e.Event? {
      assert e in Events(Items(a.settled)) + Events(a.outbox);
      if e in Items(a.settled) {
        var i :| 0 <= i < |a.settled| && Items(a.settled)[i] == e;
        assert a.settled[i] == Settlement(e, Accepted);
      }
    }
  }

  /** Any other refusal moves the head out of the outbox for good, exactly as an acceptance does; with these
      it stays. */
  lemma RefusedLeavesIff(p: Process, status: int)
    requires CanAct(p, Receive(Rejected(status)))
    ensures var q := Do(p, Receive(Rejected(status)));
            && (q.mem.outbox == p.mem.outbox[1..] <==> status < 500 && status !in {408, 425, 429})
            && (q.mem.outbox == p.mem.outbox <==> status >= 500 || status in {408, 425, 429})
            && q.awaiting.None?
            && q.disk.outbox == (if status >= 500 || status in {408, 425, 429} then p.disk.outbox else p.mem.outbox[1..])
  {
    assert |p.mem.outbox[1..]| != |p.mem.outbox|;
  }

  // ---------------------------------------------------------------- truthful answers

  /** The step does not answer "duplicate" about an event that another request is still sending, or
      whose handler is gone without having sent it. */
  ghost predicate Careful(s: System, step: Step)
    requires Enabled(s, step)
  {
    step.RelayStep? && step.work.Create? && s.sent[step.id].EventKey() in s.relay.records ==>
      !Owned(s.relay, s.sent[step.id].EventKey()) && s.sent[step.id].EventKey() !in s.relay.orphaned
  }

  ghost predicate CarefulRun(s: System, steps: seq<Step>)
    requires Possible(s, steps)
    decreases |steps|
  {
    steps == [] || (Careful(s, steps[0]) && CarefulRun(Apply(s, steps[0]), steps[1..]))
  }

  /** The Agent was told "accepted", or is about to be, only about events that are done. */
  ghost predicate Truthful(s: System) {
    && (forall id :: id in s.replies && id in s.sent ==> TruthfulReply(s.relay, s.sent[id], s.replies[id]))
    && (forall site :: site in s.processes ==> TruthfulAgent(s.relay, site, s.processes[site].mem))
  }

  predicate TruthfulReply(r: Relay, request: Request, reply: Reply) {
    reply.Accepted? && request.item.Event? ==> Done(r, request.EventKey())
  }

  ghost predicate TruthfulAgent(r: Relay, site: string, a: Agent) {
    forall x :: x in a.settled ==> TruthfulReply(r, Request(site, x.item), x.reply)
  }

  /** Only a final reply to the head adds to what an Agent counts as settled. */
  lemma SettledByAct(p: Process, act: Act, x: Settlement)
    requires Durable(p) && CanAct(p, act) && x in Do(p, act).mem.settled && x !in p.mem.settled
    ensures act.Receive? && x == Settlement(p.mem.outbox[0], act.reply)
  {
  }

  lemma AgentStepKeepsTruthful(s: System, step: Step)
    requires Inv(s) && Truthful(s) && Enabled(s, step) && step.AgentStep?
    ensures Truthful(Apply(s, step))
  {
    var t, p := Apply(s, step), s.processes[step.site];
    assert AwaitsHead(s, step.site) && t.relay == s.relay;
    forall id | id in t.replies && id in t.sent ensures TruthfulReply(t.relay, t.sent[id], t.replies[id]) {
      assert id in s.replies && s.sent[id] == t.sent[id];
    }
    forall x | x in t.processes[step.site].mem.settled
      ensures TruthfulReply(t.relay, Request(step.site, x.item), x.reply)
    {
      assert TruthfulAgent(s.relay, step.site, p.mem);
      if x !in p.mem.settled {
        SettledByAct(p, step.act, x);
        assert TruthfulReply(s.relay, s.sent[p.awaiting.value], s.replies[p.awaiting.value]);
      }
    }
    forall site | site in t.processes ensures TruthfulAgent(t.relay, site, t.processes[site].mem) {
      assert site != step.site ==> t.processes[site] == s.processes[site];
    }
  }

  lemma DoneStays(r: Relay, id: nat, request: Request, work: Work)
    requires CanWork(r, id, request, work)
    ensures forall key :: Done(r, key) ==> Done(Perform(r, id, request, work), key)
  {
  }

  lemma RelayStepKeepsTruthful(s: System, step: Step)
    requires Inv(s) && Truthful(s) && Enabled(s, step) && Careful(s, step)
    requires step.RelayStep?
    ensures Truthful(Apply(s, step))
  {
    var t := Apply(s, step);
    DoneStays(s.relay, step.id, s.sent[step.id], step.work);
    forall id | id in t.replies && id in t.sent ensures TruthfulReply(t.relay, t.sent[id], t.replies[id]) {
      if id in s.replies && t.replies[id] == s.replies[id] {
        assert TruthfulReply(s.relay, s.sent[id], s.replies[id]);
      }
    }
    forall site | site in t.processes ensures TruthfulAgent(t.relay, site, t.processes[site].mem) {
      assert TruthfulAgent(s.relay, site, s.processes[site].mem);
    }
  }

  lemma {:induction false} CarefulRunIsTruthful(s: System, steps: seq<Step>)
    requires Inv(s) && Truthful(s) && Possible(s, steps) && CarefulRun(s, steps)
    ensures Truthful(After(s, steps))
    decreases |steps|
  {
    if steps != [] {
      var step := steps[0];
      StepKeepsInv(s, step);
      match step {
        case AgentStep(_, _) => AgentStepKeepsTruthful(s, step);
        case RelayStep(_, _) => RelayStepKeepsTruthful(s, step);
        case _ =>
      }
      CarefulRunIsTruthful(Apply(s, step), steps[1..]);
    }
  }

  /** On runs where "duplicate" is answered only about finished sends, every event the Agent counts as
      accepted was multicast exactly once or had no recipient; the relay may die at any time. */
  lemma AcceptedMeansDelivered(s: System, steps: seq<Step>, site: string, x: Settlement)
    requires Initial(s) && Possible(s, steps) && CarefulRun(s, steps)
    requires site in After(s, steps).processes && x in After(s, steps).processes[site].mem.settled
    requires x.item.Event? && x.reply.Accepted?
    ensures var r, key := After(s, steps).relay, Key(site, x.item.eventId);
            r.multicasts[key] == 1 || key in r.silent
  {
    InitialInv(s);
    CarefulRunIsTruthful(s, steps);
    AtMostOnce(s, steps, Key(site, x.item.eventId));
    assert TruthfulAgent(After(s, steps).relay, site, After(s, steps).processes[site].mem);
    assert TruthfulReply(After(s, steps).relay, Request(site, x.item), x.reply);
  }

  /** "Duplicate" tells the Agent the truth exactly if no other request is still working on the same
      event and the handler that created its record is not gone without sending. */
  lemma DuplicateIsTruthfulIff(s: System, steps: seq<Step>, key: Key)
    requires Initial(s) && Possible(s, steps)
    requires key in After(s, steps).relay.records
    ensures var r := After(s, steps).relay;
            Done(r, key) <==> !Owned(r, key) && key !in r.orphaned
  {
    InitialInv(s);
    RunKeepsInv(s, steps);
  }

  lemma StaysOrphaned(s: System, step: Step, key: Key)
    requires Enabled(s, step) && key in s.relay.orphaned
    ensures key in Apply(s, step).relay.orphaned
  {
  }

  /** An orphaned event is never pushed again, whatever is sent. */
  lemma {:induction false} OrphanedForever(s: System, steps: seq<Step>, key: Key)
    requires Inv(s) && Possible(s, steps) && key in s.relay.orphaned
    ensures var r := After(s, steps).relay;
            key in r.orphaned && key in r.records && r.multicasts[key] == 0 && key !in r.silent
    decreases |steps|
  {
    if steps == [] {
      assert Exclusive(s.relay);
    } else {
      StepKeepsInv(s, steps[0]);
      StaysOrphaned(s, steps[0], key);
      hide Inv, Apply, Enabled;
      OrphanedForever(Apply(s, steps[0]), steps[1..], key);
    }
  }

  /** One run after another. */
  lemma {:induction false} RunsCompose(s: System, a: seq<Step>, b: seq<Step>)
    requires Possible(s, a) && Possible(After(s, a), b)
    ensures Possible(s, a + b) && After(s, a + b) == After(After(s, a), b)
    decreases |a|
  {
    if a == [] {
      assert a + b == b;
    } else {
      RunsCompose(Apply(s, a[0]), a[1..], b);
      assert (a + b)[0] == a[0] && (a + b)[1..] == a[1..] + b;
    }
  }

  /** A run given by its intermediate states. */
  lemma {:induction false} RunIs(s: System, steps: seq<Step>, states: seq<System>)
    requires |states| == |steps| + 1 && states[0] == s
    requires forall i :: 0 <= i < |steps| ==>
               Enabled(states[i], steps[i]) && Apply(states[i], steps[i]) == states[i + 1]
    ensures Possible(s, steps) && After(s, steps) == states[|steps|]
    decreases |steps|
  {
    if steps != [] {
      RunIs(states[1], steps[1..], states[1..]);
    }
  }

  // ---------------------------------------------------------------- three runs that lose an event

  predicate Leads(s: System, steps: seq<Step>, t: System) {
    Possible(s, steps) && After(s, steps) == t
  }

  const SAMPLE: Signal := Signal("a", None, "active", "activity", "feed", "k", "t")
  const SAMPLE_EVENT: Item := Event("a", "a", "t", "activity", "feed")
  const SAMPLE_KEY: Key := Key("s", "a")
  const SAMPLE_REQUEST: Request := Request("s", SAMPLE_EVENT)
  const ACCEPTANCE: Settlement := Settlement(SAMPLE_EVENT, Accepted)
  const SAMPLE_ROUND: Round := Round({}, [SAMPLE])

  const QUEUED: Agent := Agent(map["a" := SAMPLE], [SAMPLE_EVENT], [], [SAMPLE_EVENT], [], [SAMPLE_ROUND])
  const ACCEPTED: Agent := Agent(map["a" := SAMPLE], [], [], [SAMPLE_EVENT], [ACCEPTANCE], [SAMPLE_ROUND])
  const QUEUED_AGAIN: Agent :=
    Agent(map["a" := SAMPLE], [SAMPLE_EVENT], [], [SAMPLE_EVENT, SAMPLE_EVENT], [ACCEPTANCE],
          [SAMPLE_ROUND, SAMPLE_ROUND])
  const ACCEPTED_AGAIN: Agent :=
    Agent(map["a" := SAMPLE], [], [], [SAMPLE_EVENT, SAMPLE_EVENT], [ACCEPTANCE, ACCEPTANCE],
          [SAMPLE_ROUND, SAMPLE_ROUND])

  const SENDING: Relay := NEW_RELAY.(records := {SAMPLE_KEY}, handlers := map[1 := Handler(SAMPLE_KEY, false)])
  const SENT: Relay := NEW_RELAY.(records := {SAMPLE_KEY}, multicasts := multiset{SAMPLE_KEY})
  const DEAD: Relay := NEW_RELAY.(records := {SAMPLE_KEY}, orphaned := {SAMPLE_KEY})

  /** One Agent "s", which has sent request 1, and perhaps request 2, about the sample event. */
  function One(p: Process, relay: Relay, twice: bool, network: set<nat>, replies: map<nat, Reply>): System {
    var sent := if twice then map[1 := SAMPLE_REQUEST, 2 := SAMPLE_REQUEST] else map[1 := SAMPLE_REQUEST];
    System(map["s" := p], relay, sent, network, replies)
  }

  const OPENED: System := One(Process(QUEUED, QUEUED, Some(1)), SENDING, false, {}, map[])

  /** The sample is queued, sent as request 1, and recorded by the relay. */
  function Opening(): seq<Step> {
    [AgentStep("s", OfferOne(SAMPLE)), AgentStep("s", SendHead(1)), RelayStep(1, Create)]
  }

  lemma OpeningLeads(s: System)
    requires s == System(map["s" := Saved(NEW_AGENT)], NEW_RELAY, map[], {}, map[])
    ensures Leads(s, Opening(), OPENED)
  {
    assert Note(map[], SAMPLE) == map["a" := SAMPLE] && Offer(NEW_AGENT, SAMPLE) == QUEUED;
    var sent: map<nat, Request> := map[][1 := SAMPLE_REQUEST];
    assert sent == map[1 := SAMPLE_REQUEST] && {} + {1} == {1} && {1} - {1} == {};
    assert Perform(NEW_RELAY, 1, SAMPLE_REQUEST, Create) == SENDING;
    RunIs(s, Opening(), [
      s,
      System(map["s" := Saved(QUEUED)], NEW_RELAY, map[], {}, map[]),
      One(Process(QUEUED, QUEUED, Some(1)), NEW_RELAY, false, {1}, map[]),
      OPENED]);
  }

  /** The head is sent again as request 2, answered "duplicate", and so settled. */
  function Duplicate(): seq<Step> {
    [AgentStep("s", SendHead(2)), RelayStep(2, Create), AgentStep("s", Receive(Accepted))]
  }

  lemma DuplicateLeads(a: Agent, b: Agent, relay: Relay)
    requires a.outbox == [SAMPLE_EVENT] && b == SettleHead(a, Accepted)
    requires SAMPLE_KEY in relay.records
    ensures Leads(One(Saved(a), relay, false, {}, map[]), Duplicate(), One(Saved(b), relay, true, {}, map[]))
  {
    var waiting, answered := Process(a, a, Some(2)), map[2 := Accepted];
    assert map[1 := SAMPLE_REQUEST][2 := SAMPLE_REQUEST] == map[1 := SAMPLE_REQUEST, 2 := SAMPLE_REQUEST];
    assert {} + {2} == {2} && {2} - {2} == {} && answered - {2} == map[];
    RunIs(One(Saved(a), relay, false, {}, map[]), Duplicate(), [
      One(Saved(a), relay, false, {}, map[]),
      One(waiting, relay, true, {2}, map[]),
      One(waiting, relay, true, {}, answered),
      One(Saved(b), relay, true, {}, map[])]);
  }

  lemma SampleIsAccepted()
    ensures SettleHead(QUEUED, Accepted) == ACCEPTED
    ensures SettleHead(QUEUED_AGAIN, Accepted) == ACCEPTED_AGAIN
  {
  }

  lemma LeadsOn(s: System, a: seq<Step>, t: System, b: seq<Step>, u: System)
    requires Leads(s, a, t) && Leads(t, b, u)
    ensures Leads(s, a + b, u)
  {
    RunsCompose(s, a, b);
  }

  predicate AllSurvive(steps: seq<Step>) {
    forall i :: 0 <= i < |steps| && steps[i].RelayStep? ==> Survives(steps[i].work)
  }

  /** The Agent gives up waiting for request 1 while the relay is still sending. */
  lemma GiveUpLeads()
    ensures Leads(OPENED, [AgentStep("s", GiveUp)],
                  One(Saved(QUEUED), SENDING, false, {}, map[]))
  {
    RunIs(OPENED, [AgentStep("s", GiveUp)], [
      OPENED,
      One(Saved(QUEUED), SENDING, false, {}, map[])]);
  }

  /** The send of request 1 fails after all and its record is deleted. */
  lemma RollbackLeads()
    ensures Leads(One(Saved(ACCEPTED), SENDING, true, {}, map[]), [RelayStep(1, SendFails), RelayStep(1, Rollback)],
                  One(Saved(ACCEPTED), NEW_RELAY, true, {}, map[1 := Rejected(500)]))
  {
    var failing := SENDING.(handlers := map[1 := Handler(SAMPLE_KEY, true)]);
    assert SENDING.handlers[1 := Handler(SAMPLE_KEY, true)] == failing.handlers && failing.handlers - {1} == map[];
    assert {SAMPLE_KEY} - {SAMPLE_KEY} == {};
    RunIs(One(Saved(ACCEPTED), SENDING, true, {}, map[]), [RelayStep(1, SendFails), RelayStep(1, Rollback)], [
      One(Saved(ACCEPTED), SENDING, true, {}, map[]),
      One(Saved(ACCEPTED), failing, true, {}, map[]),
      One(Saved(ACCEPTED), NEW_RELAY, true, {}, map[1 := Rejected(500)])]);
  }

  /** The promise that the outbox retries through an FCM outage fails although the relay survives: a
      duplicate overtakes the send, the event is accepted, and the rollback leaves no trace of it. */
  lemma EarlyDuplicateLosesEvent(s: System)
    requires s == System(map["s" := Saved(NEW_AGENT)], NEW_RELAY, map[], {}, map[])
    ensures Initial(s)
    ensures exists steps :: Possible(s, steps) && AllSurvive(steps)
                            && After(s, steps) == One(Saved(ACCEPTED), NEW_RELAY, true, {}, map[1 := Rejected(500)])
  {
    hide Leads, Possible, After;
    var lost := One(Saved(ACCEPTED), NEW_RELAY, true, {}, map[1 := Rejected(500)]);
    var end := [RelayStep(1, SendFails), RelayStep(1, Rollback)];
    OpeningLeads(s);
    GiveUpLeads();
    SampleIsAccepted();
    DuplicateLeads(QUEUED, ACCEPTED, SENDING);
    RollbackLeads();
    LeadsOn(s, Opening(), OPENED, [AgentStep("s", GiveUp)], One(Saved(QUEUED), SENDING, false, {}, map[]));
    LeadsOn(s, Opening() + [AgentStep("s", GiveUp)], One(Saved(QUEUED), SENDING, false, {}, map[]),
            Duplicate(), One(Saved(ACCEPTED), SENDING, true, {}, map[]));
    LeadsOn(s, Opening() + [AgentStep("s", GiveUp)] + Duplicate(), One(Saved(ACCEPTED), SENDING, true, {}, map[]),
            end, lost);
    LeadsMeans(s, Opening() + [AgentStep("s", GiveUp)] + Duplicate() + end, lost);
  }

  lemma LeadsMeans(s: System, steps: seq<Step>, t: System)
    requires Leads(s, steps, t)
    ensures Possible(s, steps) && After(s, steps) == t
  {
  }

  lemma DeathLeads()
    ensures Leads(OPENED,
                  [RelayStep(1, Die), AgentStep("s", GiveUp)], One(Saved(QUEUED), DEAD, false, {}, map[]))
  {
    assert SENDING.handlers - {1} == map[] && {} + {SAMPLE_KEY} == {SAMPLE_KEY};
    RunIs(OPENED,
          [RelayStep(1, Die), AgentStep("s", GiveUp)], [
      OPENED,
      One(Process(QUEUED, QUEUED, Some(1)), DEAD, false, {}, map[]),
      One(Saved(QUEUED), DEAD, false, {}, map[])]);
  }

  /** The handler dies between its record and the send: the retry is answered "duplicate", and by
      `OrphanedForever` the event is never pushed. */
  lemma DeadHandlerLosesEvent(s: System)
    requires s == System(map["s" := Saved(NEW_AGENT)], NEW_RELAY, map[], {}, map[])
    ensures Initial(s)
    ensures exists steps :: Possible(s, steps) && After(s, steps) == One(Saved(ACCEPTED), DEAD, true, {}, map[])
  {
    hide Leads, Possible, After;
    var end := [RelayStep(1, Die), AgentStep("s", GiveUp)];
    OpeningLeads(s);
    DeathLeads();
    SampleIsAccepted();
    DuplicateLeads(QUEUED, ACCEPTED, DEAD);
    LeadsOn(s, Opening(), OPENED, end, One(Saved(QUEUED), DEAD, false, {}, map[]));
    LeadsOn(s, Opening() + end, One(Saved(QUEUED), DEAD, false, {}, map[]),
            Duplicate(), One(Saved(ACCEPTED), DEAD, true, {}, map[]));
    LeadsMeans(s, Opening() + end + Duplicate(), One(Saved(ACCEPTED), DEAD, true, {}, map[]));
  }

  /** The send succeeds and is acknowledged. */
  function Push(): seq<Step> {
    [RelayStep(1, SendSucceeds(false)), AgentStep("s", Receive(Accepted))]
  }

  lemma PushLeads()
    ensures Leads(OPENED, Push(), One(Saved(ACCEPTED), SENT, false, {}, map[]))
  {
    SampleIsAccepted();
    assert SENDING.handlers - {1} == map[] && multiset{} + multiset{SAMPLE_KEY} == multiset{SAMPLE_KEY};
    assert map[1 := Accepted] - {1} == map[];
    RunIs(OPENED, Push(), [
      OPENED,
      One(Process(QUEUED, QUEUED, Some(1)), SENT, false, {}, map[1 := Accepted]),
      One(Saved(ACCEPTED), SENT, false, {}, map[])]);
  }

  /** The Signal leaves the active set and comes back. */
  function Return(): seq<Step> {
    [AgentStep("s", PruneTo({})), AgentStep("s", OfferOne(SAMPLE))]
  }

  lemma SampleReturns()
    ensures Offer(Prune(ACCEPTED, {}), SAMPLE) == QUEUED_AGAIN && Fresh(Prune(ACCEPTED, {}).delivered, SAMPLE)
    ensures Prune(ACCEPTED, {}).outbox == []
  {
    assert Retain(ACCEPTED.delivered, {}) == map[] && Note(map[], SAMPLE) == map["a" := SAMPLE];
    assert Prune(ACCEPTED, {}).rounds == [SAMPLE_ROUND, Round({}, [])];
    var rounds, none: seq<Signal> := [SAMPLE_ROUND, Round({}, [])], [];
    assert rounds[..1] == [SAMPLE_ROUND] && none + [SAMPLE] == [SAMPLE];
    assert Extend(rounds, SAMPLE) == [SAMPLE_ROUND, SAMPLE_ROUND];
  }

  lemma ReturnLeads()
    ensures Leads(One(Saved(ACCEPTED), SENT, false, {}, map[]), Return(),
                  One(Saved(QUEUED_AGAIN), SENT, false, {}, map[]))
  {
    SampleReturns();
    var pruned := Prune(ACCEPTED, {});
    hide Prune, Offer;
    RunIs(One(Saved(ACCEPTED), SENT, false, {}, map[]), Return(), [
      One(Saved(ACCEPTED), SENT, false, {}, map[]),
      One(Process(pruned, ACCEPTED, None), SENT, false, {}, map[]),
      One(Saved(QUEUED_AGAIN), SENT, false, {}, map[])]);
  }

  /** A Signal without a token, such as a trunk outage, that ends and comes back: both events are
      accepted, and only the first is pushed. */
  lemma LaterOutageIsSwallowed(s: System)
    requires s == System(map["s" := Saved(NEW_AGENT)], NEW_RELAY, map[], {}, map[])
    ensures Initial(s) && SAMPLE.notificationId.None?
    ensures exists steps :: Possible(s, steps) && After(s, steps) == One(Saved(ACCEPTED_AGAIN), SENT, true, {}, map[])
  {
    hide Leads, Possible, After;
    OpeningLeads(s);
    PushLeads();
    ReturnLeads();
    SampleIsAccepted();
    DuplicateLeads(QUEUED_AGAIN, ACCEPTED_AGAIN, SENT);
    var steps := Opening() + Push();
    LeadsOn(s, Opening(), OPENED, Push(), One(Saved(ACCEPTED), SENT, false, {}, map[]));
    LeadsOn(s, steps, One(Saved(ACCEPTED), SENT, false, {}, map[]),
            Return(), One(Saved(QUEUED_AGAIN), SENT, false, {}, map[]));
    LeadsOn(s, steps + Return(), One(Saved(QUEUED_AGAIN), SENT, false, {}, map[]),
            Duplicate(), One(Saved(ACCEPTED_AGAIN), SENT, true, {}, map[]));
    LeadsMeans(s, steps + Return() + Duplicate(), One(Saved(ACCEPTED_AGAIN), SENT, true, {}, map[]));
  }

  // ---------------------------------------------------------------- progress

  /** What the relay does with a request it has taken: it answers it, unless a handler still works on it or
      has died; and "accepted" means a registration, a known event, no recipient, or a sent push. */
  lemma TakenIsAnswered(s: System, id: nat, work: Work)
    requires Enabled(s, RelayStep(id, work)) && Linked(s)
    ensures var t := Apply(s, RelayStep(id, work));
            && id !in t.network
            && (id in t.replies && id !in s.replies <==>
                  id !in s.replies && id !in t.relay.handlers && !work.Die?)
            && (Get(t.replies, id) != Get(s.replies, id) ==>
                  (t.replies[id].Accepted? <==>
                     work.AcceptDevice? || work.IgnoreTip? || work.Create? || work.NoRecipients?
                     || work == SendSucceeds(false)))
  {
  }

  /** What the relay can do next about a request: refuse, take or recognise it on arrival; later send once,
      or find nobody to send to, and only after a failed send roll back; or die. */
  lemma RelayChoices(s: System, id: nat, work: Work)
    requires Linked(s) && id in s.sent && !IsTip(s.sent[id].item)
    ensures Enabled(s, RelayStep(id, work)) <==>
              if id in s.network
              then (work.Refuse? && 400 <= work.status) || work == (if s.sent[id].item.Event? then Create else AcceptDevice)
              else if id !in s.relay.handlers then false
              else if s.relay.handlers[id].failed then work in {Rollback, RollbackFails, Die}
              else work in {NoRecipients, SendSucceeds(false), SendSucceeds(true), SendFails, Die}
  {
  }

  lemma FreshId(sent: map<nat, Request>) returns (id: nat)
    ensures id !in sent
  {
    id := 0;
    var todo := sent.Keys;
    while todo != {}
      invariant forall k :: k in sent && k !in todo ==> k < id
    {
      var k :| k in todo;
      todo := todo - {k};
      id := if k < id then id else k + 1;
    }
  }

  lemma OneStep(s: System, step: Step)
    requires Enabled(s, step)
    ensures Leads(s, [step], Apply(s, step))
  {
    assert [step][1..] == [];
  }

  /** A request that the relay has not seen can be accepted at once: a registration, an event known already,
      or a new event, which is pushed. */
  lemma CanBeAccepted(s: System, id: nat) returns (steps: seq<Step>, t: System)
    requires id in s.sent && id in s.network && id !in s.relay.handlers && !IsTip(s.sent[id].item)
    ensures Leads(s, steps, t)
    ensures t.processes == s.processes && t.sent == s.sent && Get(t.replies, id) == Some(Accepted)
  {
    hide Leads;
    var request := s.sent[id];
    if request.item.Device? {
      steps, t := [RelayStep(id, AcceptDevice)], Apply(s, RelayStep(id, AcceptDevice));
      OneStep(s, RelayStep(id, AcceptDevice));
    } else if request.EventKey() in s.relay.records {
      steps, t := [RelayStep(id, Create)], Apply(s, RelayStep(id, Create));
      OneStep(s, RelayStep(id, Create));
    } else {
      var created := Apply(s, RelayStep(id, Create));
      t := Apply(created, RelayStep(id, SendSucceeds(false)));
      OneStep(s, RelayStep(id, Create));
      OneStep(created, RelayStep(id, SendSucceeds(false)));
      steps := [RelayStep(id, Create)] + [RelayStep(id, SendSucceeds(false))];
      LeadsOn(s, [RelayStep(id, Create)], created, [RelayStep(id, SendSucceeds(false))], t);
    }
  }

  lemma CanSend(s: System, site: string, id: nat)
    requires Inv(s) && site in s.processes && s.processes[site].awaiting.None? && s.processes[site].mem.outbox != []
    requires id !in s.sent
    ensures var send, p := AgentStep(site, SendHead(id)), s.processes[site];
            && Enabled(s, send) && Apply(s, send).processes == s.processes[site := p.(awaiting := Some(id))]
            && id in Apply(s, send).sent && id in Apply(s, send).network && id !in Apply(s, send).relay.handlers
            && !IsTip(Apply(s, send).sent[id].item)
  {
    HeadIsNoTip(s, site);
    assert id !in s.relay.handlers;
    var send, p := AgentStep(site, SendHead(id)), s.processes[site];
    assert CanAct(p, send.act) && Do(p, send.act) == p.(awaiting := Some(id));
    hide Inv, IsTip, CanAct, Do, CanWork, Perform, Response;
  }

  lemma HeadIsNoTip(s: System, site: string)
    requires Inv(s) && site in s.processes && s.processes[site].mem.outbox != []
    ensures !IsTip(s.processes[site].mem.outbox[0])
  {
    OutboxHasNoTips(s.processes[site].mem);
    hide Sound, Exclusive, Honest, Linked, NoTips;
  }

  lemma CanReceive(s: System, site: string, id: nat, a: Agent)
    requires site in s.processes && s.processes[site].mem == a && s.processes[site].awaiting == Some(id)
    requires a.outbox != [] && Get(s.replies, id) == Some(Accepted)
    ensures var receive := AgentStep(site, Receive(Accepted));
            && Enabled(s, receive)
            && Apply(s, receive).processes == s.processes[site := Saved(SettleHead(a, Accepted))]
  {
    hide SettleHead;
  }

  /** The Agent sends its head, the relay accepts it, and the Agent hears of it. */
  lemma HeadCanBeSettled(s: System, site: string) returns (steps: seq<Step>, t: System)
    requires Inv(s) && site in s.processes && s.processes[site].awaiting.None? && s.processes[site].mem.outbox != []
    ensures Leads(s, steps, t)
    ensures t.processes == s.processes[site := Saved(SettleHead(s.processes[site].mem, Accepted))]
  {
    hide Leads, Inv, Apply, Enabled, SettleHead, IsTip;
    var id := FreshId(s.sent);
    var send, receive := AgentStep(site, SendHead(id)), AgentStep(site, Receive(Accepted));
    CanSend(s, site, id);
    var sent := Apply(s, send);
    var taking, answered := CanBeAccepted(sent, id);
    CanReceive(answered, site, id, s.processes[site].mem);
    t := Apply(answered, receive);
    OneStep(s, send);
    OneStep(answered, receive);
    LeadsOn(s, [send], sent, taking, answered);
    LeadsOn(s, [send] + taking, answered, [receive], t);
    steps := [send] + taking + [receive];
  }

  function Acceptances(items: seq<Item>): seq<Settlement> {
    seq(|items|, i requires 0 <= i < |items| => Settlement(items[i], Accepted))
  }

  /** Everything that waited has been accepted, in order. */
  predicate Drained(before: Agent, after: Agent) {
    && after.outbox == [] && after.queued == before.queued
    && after.settled == before.settled + Acceptances(before.outbox)
  }

  lemma HeadThenRest(a: Agent, b: Agent)
    requires a.outbox != [] && Drained(SettleHead(a, Accepted), b)
    ensures Drained(a, b)
  {
    assert Acceptances(a.outbox) == [Settlement(a.outbox[0], Accepted)] + Acceptances(a.outbox[1..]);
  }

  lemma LeadsKeepsInv(s: System, steps: seq<Step>, t: System)
    requires Inv(s) && Leads(s, steps, t)
    ensures Inv(t)
  {
    RunKeepsInv(s, steps);
  }

  lemma CanGiveUp(s: System, site: string)
    requires site in s.processes && s.processes[site].awaiting.Some?
    ensures var step := AgentStep(site, GiveUp);
            && Enabled(s, step)
            && Apply(s, step).processes == s.processes[site := s.processes[site].(awaiting := None)]
  {
  }

  /** From every reachable state the outbox of every Agent can still be emptied, everything in it accepted in
      order, whatever has been lost, has crashed or is being worked on. */
  lemma {:induction false} OutboxCanDrain(s: System, site: string) returns (steps: seq<Step>, t: System)
    requires Inv(s) && site in s.processes
    ensures Leads(s, steps, t)
    ensures site in t.processes && Drained(s.processes[site].mem, t.processes[site].mem)
    decreases |s.processes[site].mem.outbox|, s.processes[site].awaiting.Some?
  {
    hide Leads, Inv, Apply, Enabled;
    var p := s.processes[site];
    if p.awaiting.Some? {
      var step := AgentStep(site, GiveUp);
      CanGiveUp(s, site);
      OneStep(s, step);
      LeadsKeepsInv(s, [step], Apply(s, step));
      steps, t := OutboxCanDrain(Apply(s, step), site);
      LeadsOn(s, [step], Apply(s, step), steps, t);
      steps := [step] + steps;
    } else if p.mem.outbox != [] {
      var first, next := HeadCanBeSettled(s, site);
      LeadsKeepsInv(s, first, next);
      steps, t := OutboxCanDrain(next, site);
      LeadsOn(s, first, next, steps, t);
      HeadThenRest(p.mem, t.processes[site].mem);
      steps := first + steps;
    } else {
      steps, t := [], s;
      NoSteps(s);
    }
  }

  lemma NoSteps(s: System)
    ensures Leads(s, [], s)
  {
  }

  /** In particular after every run of the system. */
  lemma EveryOutboxCanDrain(s: System, steps: seq<Step>, site: string) returns (more: seq<Step>, t: System)
    requires Initial(s) && Possible(s, steps) && site in After(s, steps).processes
    ensures Leads(After(s, steps), more, t)
    ensures site in t.processes && Drained(After(s, steps).processes[site].mem, t.processes[site].mem)
  {
    InitialInv(s);
    RunKeepsInv(s, steps);
    more, t := OutboxCanDrain(After(s, steps), site);
  }

  // ---------------------------------------------------------------- losses

  /** A request is on its way, or being worked on, or answered: one at most. */
  ghost predicate OneStage(s: System) {
    && (forall id :: id in s.network ==> id in s.sent && id !in s.relay.handlers && id !in s.replies)
    && (forall id :: id in s.relay.handlers ==> id in s.sent && id !in s.replies)
    && (forall id :: id in s.replies ==> id in s.sent)
  }

  /** It was sent and is none of these any more. */
  predicate Gone(s: System, id: nat) {
    id in s.sent && id !in s.network && id !in s.relay.handlers && id !in s.replies
  }

  lemma StepKeepsStages(s: System, step: Step, id: nat)
    requires OneStage(s) && Enabled(s, step)
    ensures OneStage(Apply(s, step))
    ensures Gone(s, id) ==> Gone(Apply(s, step), id)
    ensures step == LoseRequest(id) || step == LoseReply(id) ==> Gone(Apply(s, step), id)
  {
    if step.RelayStep? {
      var t := Apply(s, step);
      forall i | i in t.relay.handlers ensures i in s.relay.handlers || (i == step.id && step.work.Create?) {
        HandlersAfter(s.relay, step.id, s.sent[step.id], step.work, i);
      }
      assert step.id in t.relay.handlers ==> t.replies == s.replies;
    }
  }

  lemma {:induction false} RunKeepsStages(s: System, steps: seq<Step>, id: nat)
    requires OneStage(s) && Possible(s, steps)
    ensures OneStage(After(s, steps)) && (Gone(s, id) ==> Gone(After(s, steps), id))
    decreases |steps|
  {
    if steps != [] {
      StepKeepsStages(s, steps[0], id);
      RunKeepsStages(Apply(s, steps[0]), steps[1..], id);
    }
  }

  /** What is lost stays lost: a lost request is never worked on or answered, and a lost answer is never
      given again. */
  lemma LostForGood(s: System, steps: seq<Step>, lost: Step, more: seq<Step>, id: nat)
    requires Initial(s) && Possible(s, steps) && (lost == LoseRequest(id) || lost == LoseReply(id))
    requires Enabled(After(s, steps), lost) && Possible(Apply(After(s, steps), lost), more)
    ensures var t := After(Apply(After(s, steps), lost), more);
            id in t.sent && id !in t.network && id !in t.relay.handlers && id !in t.replies
  {
    RunKeepsStages(s, steps, id);
    StepKeepsStages(After(s, steps), lost, id);
    RunKeepsStages(Apply(After(s, steps), lost), more, id);
  }

  // ---------------------------------------------------------------- a restart

  const REMEMBERED: Agent := ACCEPTED.(rounds := [Round({}, [SAMPLE, SAMPLE])])

  /** The Signal leaves the active set, the process stops before it saves, and the Signal comes back. */
  function Restart(): seq<Step> {
    [AgentStep("s", PruneTo({})), AgentStep("s", Crash), AgentStep("s", OfferOne(SAMPLE))]
  }

  lemma SampleIsRemembered()
    ensures Offer(ACCEPTED, SAMPLE) == REMEMBERED && !Fresh(ACCEPTED.delivered, SAMPLE)
  {
    assert [SAMPLE] + [SAMPLE] == [SAMPLE, SAMPLE];
    assert Extend([SAMPLE_ROUND], SAMPLE) == [Round({}, [SAMPLE, SAMPLE])];
  }

  lemma RestartLeads()
    ensures Leads(One(Saved(ACCEPTED), SENT, false, {}, map[]), Restart(),
                  One(Process(REMEMBERED, ACCEPTED, None), SENT, false, {}, map[]))
  {
    SampleIsRemembered();
    var pruned := Prune(ACCEPTED, {});
    hide Prune, Offer;
    RunIs(One(Saved(ACCEPTED), SENT, false, {}, map[]), Restart(), [
      One(Saved(ACCEPTED), SENT, false, {}, map[]),
      One(Process(pruned, ACCEPTED, None), SENT, false, {}, map[]),
      One(Saved(ACCEPTED), SENT, false, {}, map[]),
      One(Process(REMEMBERED, ACCEPTED, None), SENT, false, {}, map[])]);
  }

  /** A restart goes back to the file: a Signal pruned in memory only is not queued again when it comes
      back, where without the crash it is (`ReturnLeads`). */
  lemma RestartForgetsPruning(s: System)
    requires s == System(map["s" := Saved(NEW_AGENT)], NEW_RELAY, map[], {}, map[])
    ensures exists steps ::
              Possible(s, steps) && AgentStep("s", Crash) in steps
              && After(s, steps) == One(Process(REMEMBERED, ACCEPTED, None), SENT, false, {}, map[])
    ensures REMEMBERED.queued == [SAMPLE_EVENT] && REMEMBERED.outbox == []
  {
    hide Leads, Possible, After;
    OpeningLeads(s);
    PushLeads();
    RestartLeads();
    var end := One(Process(REMEMBERED, ACCEPTED, None), SENT, false, {}, map[]);
    LeadsOn(s, Opening(), OPENED, Push(), One(Saved(ACCEPTED), SENT, false, {}, map[]));
    LeadsOn(s, Opening() + Push(), One(Saved(ACCEPTED), SENT, false, {}, map[]), Restart(), end);
    LeadsMeans(s, Opening() + Push() + Restart(), end);
    assert Restart()[1] == AgentStep("s", Crash);
  }
}
