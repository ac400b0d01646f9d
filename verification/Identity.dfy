/**
  Activation and enrollment (`_activation_locked`, `_ensure_enrolled` and `_adopt_claimed_activation`
  of pbxsense_agent/relay.py with the activation handlers of push_relay/app.py): how an
  Agent with a lasting key gets, and keeps, its identity at the relay.

  Everybody may ask for activations of any key and try to claim any activation; one Agent is followed.
 */
module Identity {
  import opened Common

  datatype Mode = Open | ByTicket | Closed

  datatype Ticket = Ticket(id: string, expiresAt: int)

  datatype RelayAgent = RelayAgent(key: string, revoked: bool)

  /** Claimed once it names an Agent. */
  datatype Activation = Activation(
    secret: string, key: string, expiresAt: int, ticket: Option<Ticket>, agentId: Option<string>)

  /** `enrolled` lists the Agents created by ticket, with their tickets. */
  datatype Relay = Relay(
    agents: map<string, RelayAgent>, activations: map<string, Activation>,
    usedTickets: set<string>, enrolled: seq<(string, string)>)

  /** The capability shown in the Agent's QR code. */
  datatype Capability = Capability(id: string, secret: string, expiresAt: int)

  /** The Agent's file, which every change reaches at once; a restart changes nothing. */
  datatype Agent = Agent(key: string, agentId: Option<string>, capability: Option<Capability>)

  datatype System = System(relay: Relay, agent: Agent, mode: Mode, requireSigned: bool)

  /** `found` is what the query for an Agent with the key returned. */
  datatype Step =
    | Create(now: int, key: string, signed: bool, ticket: Option<Ticket>, id: string, secret: string,
             found: Option<string>)
    | Claim(now: int, id: string, secret: string, found: Option<string>, newId: string)
    | Revoke(agentId: string)
    | CheckStatus(now: int)
    | DropStale(now: int)
    | Refresh(now: int, ticket: Option<Ticket>, id: string, secret: string, found: Option<string>, replyLost: bool)

  /** A query by public key returns an Agent with that key if there is one. */
  ghost predicate Answers(r: Relay, key: string, found: Option<string>) {
    match found
    case Some(a) => a in r.agents && r.agents[a].key == key
    case None => forall a :: a in r.agents ==> r.agents[a].key != key
  }

  /** Whether `create_activation` lets the request through. */
  predicate Admits(mode: Mode, requireSigned: bool, existing: bool, signed: bool, ticket: Option<Ticket>, now: int) {
    if existing && requireSigned then signed
    else match mode
      case Open => true
      case Closed => false
      case ByTicket => ticket.Some? && ticket.value.expiresAt > now
  }

  /** `create_activation`; document ids are created only if absent. */
  function CreateActivation(s: System, now: int, key: string, signed: bool, ticket: Option<Ticket>,
                            id: string, secret: string, existing: bool): (Relay, bool)
  {
    var kept := if s.mode == ByTicket && !(existing && s.requireSigned) then ticket else None;
    if !Admits(s.mode, s.requireSigned, existing, signed, ticket, now) || id in s.relay.activations
    then (s.relay, false)
    else (s.relay.(activations := s.relay.activations[id := Activation(secret, key, now + 600, kept, None)]), true)
  }

  predicate Claimable(r: Relay, now: int, id: string, secret: string) {
    && id in r.activations
    && r.activations[id].secret == secret
    && r.activations[id].agentId.None?
    && r.activations[id].expiresAt >= now
  }

  predicate TicketUsable(r: Relay, ticket: Option<Ticket>, now: int) {
    ticket.Some? && ticket.value.expiresAt >= now && ticket.value.id !in r.usedTickets
  }

  function ClaimActivation(s: System, now: int, id: string, secret: string, found: Option<string>,
                           newId: string): Relay
  {
    var r := s.relay;
    if !Claimable(r, now, id, secret) then r
    else
      var a := r.activations[id];
      match found
      case Some(existing) =>
        if existing in r.agents && r.agents[existing].revoked then r
        else r.(activations := r.activations[id := a.(agentId := Some(existing))])
      case None =>
        if newId in r.agents || (s.mode == ByTicket && !TicketUsable(r, a.ticket, now)) then r
        else
          var created := r.(agents := r.agents[newId := RelayAgent(a.key, false)],
                            activations := r.activations[id := a.(agentId := Some(newId))]);
          if s.mode == ByTicket
          then created.(usedTickets := r.usedTickets + {a.ticket.value.id},
                        enrolled := r.enrolled + [(a.ticket.value.id, newId)])
          else created
  }

  /** The answer of `activation_status`. */
  datatype Status = Status(agentId: Option<string>, expired: bool)

  function StatusOf(a: Activation, now: int): Status {
    Status(a.agentId, a.expiresAt < now)
  }

  /** What the Agent makes of it. */
  function Adopt(agent: Agent, status: Status): Agent {
    if status.agentId.Some? then agent.(agentId := status.agentId, capability := None)
    else if status.expired then agent.(capability := None)
    else agent
  }

  /** The relay knows the capability. */
  predicate Known(r: Relay, c: Capability) {
    c.id in r.activations && r.activations[c.id].secret == c.secret
  }

  ghost predicate Enabled(s: System, step: Step) {
    match step
    case Create(_, key, _, _, _, _, found) => Answers(s.relay, key, found)
    case Claim(_, id, _, found, _) =>
      id in s.relay.activations ==> Answers(s.relay, s.relay.activations[id].key, found)
    case Revoke(agentId) => agentId in s.relay.agents
    case CheckStatus(_) => s.agent.capability.Some?
    case DropStale(now) => s.agent.capability.Some? && s.agent.capability.value.expiresAt <= now + 30
    case Refresh(_, _, _, _, found, _) => s.agent.capability.None? && Answers(s.relay, s.agent.key, found)
  }

  function Apply(s: System, step: Step): System {
    match step
    case Create(now, key, signed, ticket, id, secret, found) =>
      s.(relay := CreateActivation(s, now, key, signed, ticket, id, secret, found.Some?).0)
    case Claim(now, id, secret, found, newId) =>
      s.(relay := ClaimActivation(s, now, id, secret, found, newId))
    case Revoke(agentId) =>
      if agentId in s.relay.agents
      then s.(relay := s.relay.(agents := s.relay.agents[agentId := s.relay.agents[agentId].(revoked := true)]))
      else s
    case CheckStatus(now) =>
      if s.agent.capability.Some? && Known(s.relay, s.agent.capability.value)
      then s.(agent := Adopt(s.agent, StatusOf(s.relay.activations[s.agent.capability.value.id], now)))
      else s
    case DropStale(_) => s.(agent := s.agent.(capability := None))
    case Refresh(now, ticket, id, secret, found, replyLost) =>
      var offered := if s.agent.agentId.None? then ticket else None;
      var (relay, ok) := CreateActivation(s, now, s.agent.key, true, offered, id, secret, found.Some?);
      s.(relay := relay,
         agent := if ok && !replyLost then s.agent.(capability := Some(Capability(id, secret, now + 600))) else s.agent)
  }

  ghost predicate Possible(s: System, steps: seq<Step>)
    decreases |steps|
  {
    steps == [] || (Enabled(s, steps[0]) && Possible(Apply(s, steps[0]), steps[1..]))
  }

  function After(s: System, steps: seq<Step>): System
    decreases |steps|
  {
    if steps == [] then s else After(Apply(s, steps[0]), steps[1..])
  }

  // ---------------------------------------------------------------- invariant

  ghost predicate DistinctKeys(r: Relay) {
    forall a, b :: a in r.agents && b in r.agents && r.agents[a].key == r.agents[b].key ==> a == b
  }

  /** A claimed activation names an Agent with the activation's key. */
  ghost predicate ClaimsMatch(r: Relay) {
    forall id :: id in r.activations && r.activations[id].agentId.Some? ==>
      var a := r.activations[id].agentId.value;
      a in r.agents && r.agents[a].key == r.activations[id].key
  }

  /** The Agents created by ticket are Agents of the relay, each listed once, with tickets used up. */
  ghost predicate TicketsSpentOnce(r: Relay) {
    && (forall i :: 0 <= i < |r.enrolled| ==> r.enrolled[i].1 in r.agents)
    && (forall i, j :: 0 <= i < j < |r.enrolled| ==> r.enrolled[i].1 != r.enrolled[j].1)
    && (forall i :: 0 <= i < |r.enrolled| ==> r.enrolled[i].0 in r.usedTickets)
    && (forall i, j :: 0 <= i < j < |r.enrolled| ==> r.enrolled[i].0 != r.enrolled[j].0)
  }

  function TicketOf(enrolled: seq<(string, string)>, a: string): Option<string> {
    if enrolled == [] then None
    else if enrolled[|enrolled| - 1].1 == a then Some(enrolled[|enrolled| - 1].0)
    else TicketOf(enrolled[..|enrolled| - 1], a)
  }

  /** In ticket mode every Agent was created by a ticket. */
  ghost predicate AllByTicket(s: System) {
    s.mode == ByTicket ==> forall a :: a in s.relay.agents ==> TicketOf(s.relay.enrolled, a).Some?
  }

  /** The Agent's identity and capability belong to its own key, and the capability is the relay's. */
  ghost predicate OwnIdentity(s: System) {
    && (s.agent.agentId.Some? ==>
          s.agent.agentId.value in s.relay.agents && s.relay.agents[s.agent.agentId.value].key == s.agent.key)
    && (s.agent.capability.Some? ==>
          var c := s.agent.capability.value;
          && c.id in s.relay.activations && s.relay.activations[c.id].key == s.agent.key
          && s.relay.activations[c.id].secret == c.secret && s.relay.activations[c.id].expiresAt == c.expiresAt)
  }

  ghost predicate RelayInv(r: Relay) {
    DistinctKeys(r) && ClaimsMatch(r) && TicketsSpentOnce(r)
  }

  ghost predicate Inv(s: System) {
    RelayInv(s.relay) && OwnIdentity(s)
  }

  /** The relay only grows: Agents keep their keys, activations what they were created with and, once
      claimed, their Agent. */
  ghost predicate Grows(r: Relay, r': Relay) {
    && (forall a :: a in r.agents ==> a in r'.agents && r'.agents[a].key == r.agents[a].key)
    && (forall id :: id in r.activations ==>
          && id in r'.activations && r'.activations[id].(agentId := None) == r.activations[id].(agentId := None)
          && (r.activations[id].agentId.Some? ==> r'.activations[id].agentId == r.activations[id].agentId))
  }

  lemma CreateKeepsRelayInv(s: System, now: int, key: string, signed: bool, ticket: Option<Ticket>,
                            id: string, secret: string, existing: bool)
    requires RelayInv(s.relay)
    ensures var r := CreateActivation(s, now, key, signed, ticket, id, secret, existing).0;
            RelayInv(r) && Grows(s.relay, r)
  {
  }

  lemma ClaimKeepsTickets(s: System, now: int, id: string, secret: string, found: Option<string>, newId: string)
    requires TicketsSpentOnce(s.relay)
    ensures TicketsSpentOnce(ClaimActivation(s, now, id, secret, found, newId))
  {
  }

  lemma ClaimKeepsRelayInv(s: System, now: int, id: string, secret: string, found: Option<string>, newId: string)
    requires RelayInv(s.relay)
    requires id in s.relay.activations ==> Answers(s.relay, s.relay.activations[id].key, found)
    ensures var r := ClaimActivation(s, now, id, secret, found, newId);
            RelayInv(r) && Grows(s.relay, r)
  {
    hide TicketsSpentOnce;
    ClaimKeepsTickets(s, now, id, secret, found, newId);
  }

  lemma GrowthKeepsOwnIdentity(s: System, r: Relay)
    requires OwnIdentity(s) && Grows(s.relay, r)
    ensures OwnIdentity(s.(relay := r))
  {
  }

  lemma StepKeepsInv(s: System, step: Step)
    requires Inv(s) && Enabled(s, step)
    ensures Inv(Apply(s, step)) && Grows(s.relay, Apply(s, step).relay)
  {
    var r := Apply(s, step).relay;
    match step
    case Create(now, key, signed, ticket, id, secret, found) =>
      CreateKeepsRelayInv(s, now, key, signed, ticket, id, secret, found.Some?);
      GrowthKeepsOwnIdentity(s, r);
    case Claim(now, id, secret, found, newId) =>
      ClaimKeepsRelayInv(s, now, id, secret, found, newId);
      GrowthKeepsOwnIdentity(s, r);
    case Refresh(now, ticket, id, secret, found, _) =>
      var offered := if s.agent.agentId.None? then ticket else None;
      CreateKeepsRelayInv(s, now, s.agent.key, true, offered, id, secret, found.Some?);
      GrowthKeepsOwnIdentity(s, r);
    case _ =>
  }

  /** Once set, the Agent's identity is not changed by any step. */
  lemma StepKeepsIdentity(s: System, step: Step)
    requires Inv(s) && Enabled(s, step) && s.agent.agentId.Some?
    ensures Apply(s, step).agent.agentId == s.agent.agentId
  {
    if step.CheckStatus? && s.agent.capability.value.id in s.relay.activations {
      var claimed := s.relay.activations[s.agent.capability.value.id].agentId;
      if claimed.Some? {
        assert s.relay.agents[claimed.value].key == s.relay.agents[s.agent.agentId.value].key;
      }
    }
  }

  /** An empty relay and an Agent that has only its key. */
  predicate Initial(s: System) {
    s.relay == Relay(map[], map[], {}, []) && s.agent.agentId.None? && s.agent.capability.None?
  }

  lemma SameSettings(s: System, step: Step)
    ensures Apply(s, step).agent.key == s.agent.key && Apply(s, step).mode == s.mode
  {
  }

  lemma {:induction false} RunKeepsInv(s: System, steps: seq<Step>)
    requires Inv(s) && Possible(s, steps)
    ensures Inv(After(s, steps)) && Grows(s.relay, After(s, steps).relay)
    ensures s.agent.agentId.Some? ==> After(s, steps).agent.agentId == s.agent.agentId
    ensures After(s, steps).agent.key == s.agent.key && After(s, steps).mode == s.mode
    decreases |steps|
  {
    if steps != [] {
      hide Inv, Apply, Enabled;
      StepKeepsInv(s, steps[0]);
      SameSettings(s, steps[0]);
      if s.agent.agentId.Some? {
        StepKeepsIdentity(s, steps[0]);
      }
      RunKeepsInv(Apply(s, steps[0]), steps[1..]);
    }
  }

  // ---------------------------------------------------------------- main results

  lemma {:induction false} RunsCompose(s: System, a: seq<Step>, b: seq<Step>)
    requires Possible(s, a + b)
    ensures Possible(s, a) && Possible(After(s, a), b) && After(After(s, a), b) == After(s, a + b)
    decreases |a|
  {
    if a == [] {
      assert a + b == b;
    } else {
      assert (a + b)[0] == a[0] && (a + b)[1..] == a[1..] + b;
      RunsCompose(Apply(s, a[0]), a[1..], b);
    }
  }

  /** Across every sequence of QR refreshes, claims by anybody, expiries, revocations and lost replies,
      the identity the Agent first adopts is the one it keeps, and the only one with its key. */
  lemma StableIdentity(s: System, steps: seq<Step>, more: seq<Step>)
    requires Initial(s) && Possible(s, steps + more)
    requires After(s, steps).agent.agentId.Some?
    ensures var id, t := After(s, steps).agent.agentId, After(s, steps + more);
            && t.agent.agentId == id && id.value in t.relay.agents
            && (forall a :: a in t.relay.agents && t.relay.agents[a].key == s.agent.key ==> a == id.value)
  {
    RunsCompose(s, steps, more);
    RunKeepsInv(s, steps);
    RunKeepsInv(After(s, steps), more);
  }

  /** Once claimed, an activation names the same Agent, with the activation's key, after every further
      sequence of steps, and no claim of it has any effect. */
  lemma ClaimedOnce(s: System, steps: seq<Step>, more: seq<Step>, id: string)
    requires Initial(s) && Possible(s, steps + more)
    requires id in After(s, steps).relay.activations && After(s, steps).relay.activations[id].agentId.Some?
    ensures var before, after := After(s, steps).relay, After(s, steps + more).relay;
            && id in after.activations && after.activations[id].agentId == before.activations[id].agentId
            && after.activations[id].agentId.value in after.agents
            && after.agents[after.activations[id].agentId.value].key == before.activations[id].key
    ensures forall claim: Step :: claim.Claim? && claim.id == id ==>
              Apply(After(s, steps + more), claim) == After(s, steps + more)
  {
    RunsCompose(s, steps, more);
    RunKeepsInv(s, steps);
    RunKeepsInv(After(s, steps), more);
  }

  /** The claimer may become the Agent it found, unless that is revoked, or a new one: in ticket mode
      only with a ticket that has neither expired nor been used. */
  predicate MayEnroll(s: System, ticket: Option<Ticket>, claim: Step)
    requires claim.Claim?
  {
    match claim.found
    case Some(a) => a in s.relay.agents && !s.relay.agents[a].revoked
    case None =>
      && claim.newId !in s.relay.agents
      && (s.mode == ByTicket ==>
            ticket.Some? && claim.now <= ticket.value.expiresAt && ticket.value.id !in s.relay.usedTickets)
  }

  function Claimed(claim: Step): Option<string>
    requires claim.Claim?
  {
    if claim.found.Some? then claim.found else Some(claim.newId)
  }

  /** An unclaimed activation is claimed exactly by its secret, in time, by somebody who may enroll; any
      other claim changes nothing. */
  lemma ClaimEffect(s: System, claim: Step)
    requires claim.Claim? && claim.id in s.relay.activations && s.relay.activations[claim.id].agentId.None?
    requires Enabled(s, claim)
    ensures var a, t := s.relay.activations[claim.id], Apply(s, claim);
            var ok := claim.secret == a.secret && claim.now <= a.expiresAt && MayEnroll(s, a.ticket, claim);
            && t.relay.activations == s.relay.activations[claim.id := a.(agentId := if ok then Claimed(claim) else None)]
            && t.relay.agents == (if ok && claim.found.None? then s.relay.agents[claim.newId := RelayAgent(a.key, false)]
                                  else s.relay.agents)
            && t.agent == s.agent && (!ok ==> t == s)
  {
    var a := s.relay.activations[claim.id];
    assert s.relay.activations[claim.id := a.(agentId := None)] == s.relay.activations;
  }

  lemma CreationStores(s: System, create: Step)
    requires create.Create? && create.id !in s.relay.activations && create.id in Apply(s, create).relay.activations
    ensures var a := Apply(s, create).relay.activations[create.id];
            && a.secret == create.secret && a.key == create.key && a.expiresAt == create.now + 600
            && (s.mode == ByTicket && create.found.None? ==> a.ticket == create.ticket)
            && (s.mode != ByTicket || (create.found.Some? && s.requireSigned) ==> a.ticket.None?)
  {
  }

  /** Whatever happened since its creation, an unclaimed activation is claimed exactly by the secret it was
      created with, within ten minutes, by somebody who may enroll with the ticket shown at creation. */
  lemma ClaimSucceedsIff(s: System, before: seq<Step>, create: Step, between: seq<Step>, claim: Step)
    requires Initial(s) && Possible(s, before + [create] + between) && create.Create? && claim.Claim?
    requires claim.id == create.id && create.id !in After(s, before).relay.activations
    requires create.id in After(s, before + [create]).relay.activations
    requires Enabled(After(s, before + [create] + between), claim)
    ensures var t := After(s, before + [create] + between);
            var u := Apply(t, claim);
            var ok := claim.secret == create.secret && claim.now <= create.now + 600
                      && MayEnroll(t, create.ticket, claim);
            && create.id in t.relay.activations
            && (t.relay.activations[create.id].agentId.None? ==>
                  && u.relay.activations[create.id].agentId == (if ok then Claimed(claim) else None)
                  && (ok && claim.found.None? ==>
                        u.relay.agents == t.relay.agents[claim.newId := RelayAgent(create.key, false)])
                  && (!ok ==> u == t))
  {
    var r, t := After(s, before), After(s, before + [create] + between);
    RunThrough(s, before, create, between);
    CreationStores(r, create);
    hide Inv, Possible, After, Apply, Enabled;
    KeyStaysKnown(r, create, t, claim);
    if t.relay.activations[create.id].agentId.None? {
      ClaimEffect(t, claim);
    }
  }

  /** A step in the middle of a run. */
  lemma RunThrough(s: System, before: seq<Step>, step: Step, between: seq<Step>)
    requires Initial(s) && Possible(s, before + [step] + between)
    ensures var r, t := After(s, before), After(s, before + [step] + between);
            && Enabled(r, step) && After(s, before + [step]) == Apply(r, step) && r.mode == t.mode
            && Grows(r.relay, Apply(r, step).relay) && Grows(Apply(r, step).relay, t.relay)
  {
    var r := After(s, before);
    RunsCompose(s, before + [step], between);
    RunsCompose(s, before, [step]);
    hide Apply, Enabled;
    assert Enabled(r, [step][0]) && [step][1..] == [];
    RunKeepsInv(s, before);
    hide Inv;
    StepKeepsInv(r, step);
    SameSettings(r, step);
    RunKeepsInv(Apply(r, step), between);
  }

  /** A key that had an Agent when the activation was created has one when it is claimed. */
  lemma KeyStaysKnown(r: System, create: Step, t: System, claim: Step)
    requires create.Create? && claim.Claim? && Enabled(r, create) && Enabled(t, claim)
    requires Grows(r.relay, Apply(r, create).relay) && Grows(Apply(r, create).relay, t.relay)
    requires claim.id in t.relay.activations && t.relay.activations[claim.id].key == create.key
    ensures create.found.Some? ==> claim.found.Some?
  {
    if create.found.Some? {
      assert create.found.value in Apply(r, create).relay.agents;
      assert create.found.value in t.relay.agents;
    }
  }

  /** What claiming the code an Agent shows leads to: whoever claims it with the shown secret, before the
      time shown and allowed to enroll, gives the Agent its identity at its next look; after that time
      the Agent drops the code. */
  lemma ShownCodeEnrolls(s: System, steps: seq<Step>, claim: Step, now: int)
    requires Initial(s) && Possible(s, steps) && claim.Claim?
    requires var t := After(s, steps);
             t.agent.capability.Some?
             && claim.id == t.agent.capability.value.id && claim.secret == t.agent.capability.value.secret
    requires Enabled(After(s, steps), claim)
    ensures var t := After(s, steps);
            var c := t.agent.capability.value;
            && c.id in t.relay.activations
            && (t.relay.activations[c.id].agentId.None? ==>
                  Apply(Apply(t, claim), CheckStatus(now)).agent
                  == if claim.now <= c.expiresAt && MayEnroll(t, t.relay.activations[c.id].ticket, claim)
                     then Agent(s.agent.key, Claimed(claim), None)
                     else if now <= c.expiresAt then t.agent else t.agent.(capability := None))
  {
    RunKeepsInv(s, steps);
    var t := After(s, steps);
    if t.relay.activations[claim.id].agentId.None? {
      hide MayEnroll, Possible, After;
      ClaimEffect(t, claim);
    }
  }

  /** A code, a claim of it, and the Agent's next look. */
  lemma FirstEnrollment(s: System)
    requires Initial(s) && s.mode == Open
    ensures var steps := [Refresh(0, None, "q", "pw", None, false), Claim(10, "q", "pw", None, "a"), CheckStatus(20)];
            Possible(s, steps) && After(s, steps).agent == Agent(s.agent.key, Some("a"), None)
  {
    var refresh, claim, check := Refresh(0, None, "q", "pw", None, false), Claim(10, "q", "pw", None, "a"),
                                 CheckStatus(20);
    TwoSteps(s, refresh, claim);
    var t := Apply(Apply(s, refresh), claim);
    OneStep(t, check);
    assert [refresh, claim, check][1..] == [claim, check] && [claim, check][1..] == [check] && [check][1..] == [];
  }

  /** Which request for an activation is granted: with an Agent already at that key, where such requests
      must be signed, a signed one; else any in open mode, and in ticket mode one with a ticket in time. */
  lemma CreationIff(s: System, create: Step)
    requires create.Create? && Enabled(s, create) && create.id !in s.relay.activations
    ensures create.id in Apply(s, create).relay.activations
       <==> if s.requireSigned && exists a :: a in s.relay.agents && s.relay.agents[a].key == create.key
            then create.signed
            else s.mode == Open || (s.mode == ByTicket && create.ticket.Some? && create.now < create.ticket.value.expiresAt)
    ensures create.id !in Apply(s, create).relay.activations ==> Apply(s, create) == s
  {
  }

  /** The Agent's own request is signed, so once its key is known and signatures are required it gets a new
      code in every mode; else a closed relay gives none, and in ticket mode only an Agent without an
      identity, by showing a ticket in time. */
  lemma RefreshIff(s: System, step: Step)
    requires step.Refresh? && Enabled(s, step) && step.id !in s.relay.activations
    ensures var granted := (s.requireSigned && exists a :: a in s.relay.agents && s.relay.agents[a].key == s.agent.key)
                           || s.mode == Open
                           || (s.mode == ByTicket && s.agent.agentId.None? && step.ticket.Some?
                               && step.now < step.ticket.value.expiresAt);
            && (step.id in Apply(s, step).relay.activations <==> granted)
            && Apply(s, step).agent.capability
               == if granted && !step.replyLost then Some(Capability(step.id, step.secret, step.now + 600)) else None
  {
  }

  lemma StepKeepsRevoked(s: System, step: Step, agentId: string)
    requires agentId in s.relay.agents && s.relay.agents[agentId].revoked
    ensures var r := Apply(s, step).relay; agentId in r.agents && r.agents[agentId] == s.relay.agents[agentId]
  {
  }

  lemma {:induction false} RunKeepsRevoked(s: System, steps: seq<Step>, agentId: string)
    requires agentId in s.relay.agents && s.relay.agents[agentId].revoked
    ensures var r := After(s, steps).relay; agentId in r.agents && r.agents[agentId] == s.relay.agents[agentId]
    decreases |steps|
  {
    if steps != [] {
      StepKeepsRevoked(s, steps[0], agentId);
      RunKeepsRevoked(Apply(s, steps[0]), steps[1..], agentId);
    }
  }

  /** A revoked Agent stays revoked, and no activation of its key is ever claimed again. */
  lemma RevokedForever(s: System, before: seq<Step>, agentId: string, more: seq<Step>, claim: Step)
    requires Initial(s) && Possible(s, before + [Revoke(agentId)] + more)
    requires var t := After(s, before + [Revoke(agentId)] + more);
             claim.Claim? && Enabled(t, claim) && claim.id in t.relay.activations
    ensures var t := After(s, before + [Revoke(agentId)] + more);
            && agentId in t.relay.agents && t.relay.agents[agentId].revoked
            && (t.relay.activations[claim.id].key == t.relay.agents[agentId].key ==> Apply(t, claim) == t)
  {
    var t := After(s, before + [Revoke(agentId)] + more);
    RunThrough(s, before, Revoke(agentId), more);
    RunsCompose(s, before + [Revoke(agentId)], more);
    RunKeepsInv(s, before + [Revoke(agentId)] + more);
    assert Apply(After(s, before), Revoke(agentId)).relay.agents[agentId].revoked;
    RunKeepsRevoked(After(s, before + [Revoke(agentId)]), more, agentId);
    hide Possible, After, Grows, OwnIdentity;
    if t.relay.activations[claim.id].key == t.relay.agents[agentId].key {
      assert claim.found == Some(agentId);
    }
  }

  /** A closed relay stays empty. */
  lemma {:induction false} ClosedEnrollsNobody(s: System, steps: seq<Step>)
    requires s.mode == Closed && s.relay == Relay(map[], map[], {}, []) && Possible(s, steps)
    ensures After(s, steps).relay == s.relay
    decreases |steps|
  {
    if steps != [] {
      ClosedEnrollsNobody(Apply(s, steps[0]), steps[1..]);
    }
  }

  lemma {:induction false} TicketOfMeaning(enrolled: seq<(string, string)>, a: string)
    ensures TicketOf(enrolled, a).Some? ==>
              exists i :: 0 <= i < |enrolled| && enrolled[i] == (TicketOf(enrolled, a).value, a)
    ensures TicketOf(enrolled, a).None? ==> forall i :: 0 <= i < |enrolled| ==> enrolled[i].1 != a
  {
    if enrolled != [] && enrolled[|enrolled| - 1].1 != a {
      TicketOfMeaning(enrolled[..|enrolled| - 1], a);
    }
  }

  lemma StepKeepsByTicket(s: System, step: Step)
    requires AllByTicket(s)
    ensures AllByTicket(Apply(s, step))
  {
    var r, r' := s.relay, Apply(s, step).relay;
    if r'.enrolled != r.enrolled {
      assert r'.enrolled[..|r.enrolled|] == r.enrolled;
    }
  }

  lemma {:induction false} RunKeepsByTicket(s: System, steps: seq<Step>)
    requires AllByTicket(s)
    ensures AllByTicket(After(s, steps))
    decreases |steps|
  {
    if steps != [] {
      StepKeepsByTicket(s, steps[0]);
      RunKeepsByTicket(Apply(s, steps[0]), steps[1..]);
    }
  }

  /** In ticket mode the relay's Agents map injectively to used tickets: each ticket creates at most one
      Agent, and no Agent exists without one. */
  lemma TicketEnrollsOnce(s: System, steps: seq<Step>)
    requires Initial(s) && Possible(s, steps) && s.mode == ByTicket
    ensures var r := After(s, steps).relay;
            && (forall a :: a in r.agents ==>
                  TicketOf(r.enrolled, a).Some? && TicketOf(r.enrolled, a).value in r.usedTickets)
            && (forall a, b :: a in r.agents && b in r.agents && a != b ==>
                  TicketOf(r.enrolled, a) != TicketOf(r.enrolled, b))
  {
    RunKeepsInv(s, steps);
    RunKeepsByTicket(s, steps);
    var r := After(s, steps).relay;
    forall a | a in r.agents
      ensures exists i :: 0 <= i < |r.enrolled| && r.enrolled[i] == (TicketOf(r.enrolled, a).GetOr(""), a)
    {
      TicketOfMeaning(r.enrolled, a);
    }
    forall a, b | a in r.agents && b in r.agents && a != b
      ensures TicketOf(r.enrolled, a) != TicketOf(r.enrolled, b)
    {
      var i :| 0 <= i < |r.enrolled| && r.enrolled[i] == (TicketOf(r.enrolled, a).GetOr(""), a);
      var j :| 0 <= j < |r.enrolled| && r.enrolled[j] == (TicketOf(r.enrolled, b).GetOr(""), b);
      assert r.enrolled[i].0 in r.usedTickets;
    }
  }

  /** In ticket mode a new Agent appears exactly by a ticket that was not used before; a claim with a
      used ticket changes nothing at all. */
  lemma NewAgentNeedsFreshTicket(s: System, step: Step)
    requires step.Claim? && s.mode == ByTicket && step.id in s.relay.activations
    requires var a := s.relay.activations[step.id];
             a.secret == step.secret && a.agentId.None? && step.now <= a.expiresAt
    requires step.found.None? && step.newId !in s.relay.agents
    ensures var ticket := s.relay.activations[step.id].ticket;
            var usable := ticket.Some? && step.now <= ticket.value.expiresAt && ticket.value.id !in s.relay.usedTickets;
            && (Apply(s, step) == s <==> !usable)
            && (step.newId in Apply(s, step).relay.agents <==> usable)
            && (usable ==> Apply(s, step).relay.usedTickets == s.relay.usedTickets + {ticket.value.id})
  {
  }

  // ---------------------------------------------------------------- the Agent's methods

  /** The Agent once it has looked at the capability it has. */
  function Checked(agent: Agent, status: Option<Status>, now: int): Agent {
    if agent.capability.None? then agent
    else if agent.capability.value.expiresAt <= now + 30 then agent.(capability := None)
    else if status.None? then agent
    else Adopt(agent, status.value)
  }

  /** The identity fields of the Agent's file.  Each method is matched by steps of the system, whatever
      the replies; a failed or lost request, and an unknown activation, is `None`. */
  class AgentEnrollment {
    const key: string
    var agentId: Option<string>
    var capability: Option<Capability>

    constructor Load(agent: Agent)
      ensures View() == agent
    {
      key, agentId, capability := agent.key, agent.agentId, agent.capability;
    }

    ghost function View(): Agent
      reads this
    {
      Agent(key, agentId, capability)
    }

    /** The status is what the relay of `s` answers. */
    ghost predicate Told(s: System, status: Option<Status>, now: int)
      reads this
    {
      s.agent == View()
      && (status.Some? ==>
            && capability.Some? && Known(s.relay, capability.value)
            && status.value == StatusOf(s.relay.activations[capability.value.id], now))
    }

    /** `steps` lead from s to a system with this Agent, and with the identity it already had. */
    ghost predicate Follows(s: System, steps: seq<Step>)
      reads this
    {
      && Possible(s, steps) && After(s, steps).agent == View()
      && (Inv(s) && s.agent.agentId.Some? ==> agentId == s.agent.agentId)
    }

    method AdoptStatus(status: Status) returns (adopted: bool)
      modifies this
      ensures View() == Adopt(old(View()), status) && adopted == status.agentId.Some?
    {
      adopted := status.agentId.Some?;
      if adopted {
        agentId, capability := status.agentId, None;
      } else if status.expired {
        capability := None;
      }
    }

    method EnsureEnrolled(now: int, status: Option<Status>, ghost s: System)
      returns (enrolled: bool, ghost steps: seq<Step>)
      requires Told(s, status, now)
      modifies this
      ensures Follows(s, steps) && enrolled == agentId.Some?
      ensures View() == if s.agent.agentId.Some? || status.None? then s.agent else Adopt(s.agent, status.value)
    {
      steps := [];
      enrolled := agentId.Some?;
      if !enrolled && capability.Some? && status.Some? {
        enrolled := AdoptStatus(status.value);
        steps := [CheckStatus(now)];
        OneStep(s, CheckStatus(now));
      }
    }

    /** A valid capability is kept while the relay does not say otherwise; else a new one is asked for. */
    method Activate(now: int, status: Option<Status>, ticket: Option<Ticket>, created: Option<(string, string)>,
                    ghost s: System, ghost found: Option<string>)
      returns (shown: Option<Capability>, ghost steps: seq<Step>)
      requires Told(s, status, now)
      requires created.Some? ==>
                 var t := s.(agent := Checked(s.agent, status, now));
                 && Answers(s.relay, key, found)
                 && CreateActivation(t, now, key, true, if t.agent.agentId.None? then ticket else None,
                                     created.value.0, created.value.1, found.Some?).1
      modifies this
      ensures Follows(s, steps)
      ensures var checked := Checked(s.agent, status, now);
              View() == if checked.capability.Some? || created.None? then checked
                        else checked.(capability := Some(Capability(created.value.0, created.value.1, now + 600)))
      ensures shown == capability && (shown.Some? ==> now + 30 < shown.value.expiresAt)
      ensures (s.agent.capability.Some? && now + 30 < s.agent.capability.value.expiresAt
               && (status.None? || status.value == Status(None, false))) ==> shown == s.agent.capability
    {
      steps := [];
      if capability.Some? {
        if capability.value.expiresAt <= now + 30 {
          capability := None;
          steps := [DropStale(now)];
        } else if status.None? {
          return capability, [];
        } else {
          var adopted := AdoptStatus(status.value);
          steps := [CheckStatus(now)];
        }
        OneStep(s, steps[0]);
        if capability.Some? {
          return capability, steps;
        }
      }
      if created.None? {
        return None, steps;
      }
      ghost var refresh := Refresh(now, ticket, created.value.0, created.value.1, found, false);
      ghost var t := After(s, steps);
      OneStep(t, refresh);
      capability := Some(Capability(created.value.0, created.value.1, now + 600));
      if steps == [] {
        steps := [refresh];
      } else {
        TwoSteps(s, steps[0], refresh);
        steps := [steps[0], refresh];
      }
      return capability, steps;
    }
  }

  lemma OneStep(s: System, step: Step)
    requires Enabled(s, step)
    ensures Possible(s, [step]) && After(s, [step]) == Apply(s, step)
    ensures Inv(s) && s.agent.agentId.Some? ==> Apply(s, step).agent.agentId == s.agent.agentId
    ensures Inv(s) ==> Inv(Apply(s, step))
  {
    assert [step][1..] == [];
    if Inv(s) {
      StepKeepsInv(s, step);
      if s.agent.agentId.Some? {
        StepKeepsIdentity(s, step);
      }
    }
  }

  lemma TwoSteps(s: System, a: Step, b: Step)
    requires Enabled(s, a) && Enabled(Apply(s, a), b)
    ensures Possible(s, [a, b]) && After(s, [a, b]) == Apply(Apply(s, a), b)
  {
    OneStep(Apply(s, a), b);
    assert [a, b][0] == a && [a, b][1..] == [b];
  }
}
