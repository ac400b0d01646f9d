/**
  Sequence numbers of encrypted snapshots (`publish_secure_snapshot` of pbxsense_agent/relay.py with
  `publish_secure_snapshots` of push_relay/app.py).  Encryption is left out: an envelope is a
  device and a sequence number.
 */
module SnapshotSequence {
  import opened Common

  const MAX_ENVELOPES: nat := 20

  /** An entry of the device list; devices without an encryption key get no snapshot. */
  datatype Device = Device(id: string, key: string)

  datatype Envelope = Envelope(deviceId: string, sequence: nat)

  /** What the SHA-256 of the snapshot and the sorted recipient list identifies. */
  datatype Fingerprint = Fingerprint(projection: string, recipients: multiset<Device>)

  function HasKey(): Device -> bool { (d: Device) => d.key != "" }

  function Recipients(devices: seq<Device>): seq<Device> {
    Filter(HasKey(), devices)
  }

  function FingerprintOf(projection: string, devices: seq<Device>): Fingerprint {
    Fingerprint(projection, multiset(Recipients(devices)))
  }

  function Envelopes(devices: seq<Device>, sequence: nat): (envelopes: seq<Envelope>)
    ensures |envelopes| == |Recipients(devices)|
    ensures forall i :: 0 <= i < |envelopes| ==> envelopes[i] == Envelope(Recipients(devices)[i].id, sequence)
  {
    var r := Recipients(devices);
    seq(|r|, i requires 0 <= i < |r| => Envelope(r[i].id, sequence))
  }

  lemma {:induction false} RecipientCount(devices: seq<Device>, d: Device)
    ensures multiset(Recipients(devices))[d] == if d.key != "" then multiset(devices)[d] else 0
  {
    if devices != [] {
      var front := devices[..|devices| - 1];
      RecipientCount(front, d);
      assert devices == front + [devices[|devices| - 1]];
    }
  }

  /** The order of the device list does not matter. */
  lemma FingerprintIgnoresOrder(projection: string, a: seq<Device>, b: seq<Device>)
    requires multiset(a) == multiset(b)
    ensures FingerprintOf(projection, a) == FingerprintOf(projection, b)
  {
    forall d ensures multiset(Recipients(a))[d] == multiset(Recipients(b))[d] {
      RecipientCount(a, d);
      RecipientCount(b, d);
    }
  }

  // ---------------------------------------------------------------- the relay

  /** The devices that exist, and the sequence of the snapshot stored for each device id. */
  datatype Relay = Relay(devices: set<string>, latest: map<string, nat>)

  /** The first n envelopes are stored, each if its device exists. */
  function Store(r: Relay, envelopes: seq<Envelope>, n: nat): Relay
    requires n <= |envelopes|
  {
    if n == 0 then r
    else
      var before, e := Store(r, envelopes, n - 1), envelopes[n - 1];
      if e.deviceId in r.devices then before.(latest := before.latest[e.deviceId := e.sequence]) else before
  }

  function Exists(r: Relay): Envelope -> bool { (e: Envelope) => e.deviceId in r.devices }

  function StoredCount(r: Relay, envelopes: seq<Envelope>): nat {
    |Filter(Exists(r), envelopes)|
  }

  /** One of the first n envelopes is for this device. */
  ghost predicate Addressed(envelopes: seq<Envelope>, n: nat, id: string) {
    exists i :: 0 <= i < n && i < |envelopes| && envelopes[i].deviceId == id
  }

  /** Exactly the existing devices the envelopes address get their number. */
  lemma {:induction false} StoreMeaning(r: Relay, envelopes: seq<Envelope>, n: nat, sequence: nat)
    requires n <= |envelopes| && forall i :: 0 <= i < n ==> envelopes[i].sequence == sequence
    ensures Store(r, envelopes, n).devices == r.devices
    ensures forall id :: Get(Store(r, envelopes, n).latest, id)
                         == if id in r.devices && Addressed(envelopes, n, id) then Some(sequence) else Get(r.latest, id)
  {
    if n != 0 {
      StoreMeaning(r, envelopes, n - 1, sequence);
      forall id ensures Addressed(envelopes, n, id)
                   <==> Addressed(envelopes, n - 1, id) || envelopes[n - 1].deviceId == id {
      }
    }
  }

  ghost predicate NeverBack(r: Relay, r': Relay) {
    forall id :: id in r.latest ==> id in r'.latest && r'.latest[id] >= r.latest[id]
  }

  /** A request that the relay processes out of order makes no stored number go back exactly if its
      own number is not below the one stored for an existing device it addresses. */
  lemma LateRequestIsHarmlessIff(r: Relay, envelopes: seq<Envelope>, sequence: nat)
    requires forall i :: 0 <= i < |envelopes| ==> envelopes[i].sequence == sequence
    ensures NeverBack(r, Store(r, envelopes, |envelopes|))
       <==> forall i :: 0 <= i < |envelopes| && envelopes[i].deviceId in r.devices ==>
              Get(r.latest, envelopes[i].deviceId).GetOr(0) <= sequence
  {
    var t := Store(r, envelopes, |envelopes|);
    StoreMeaning(r, envelopes, |envelopes|, sequence);
    if NeverBack(r, t) {
      forall i | 0 <= i < |envelopes| && envelopes[i].deviceId in r.devices
        ensures Get(r.latest, envelopes[i].deviceId).GetOr(0) <= sequence
      {
        assert Addressed(envelopes, |envelopes|, envelopes[i].deviceId);
        assert Get(t.latest, envelopes[i].deviceId) == Some(sequence);
      }
    } else {
      var id :| id in r.latest && !(id in t.latest && t.latest[id] >= r.latest[id]);
      assert Get(t.latest, id) == Some(sequence);
    }
  }

  // ---------------------------------------------------------------- the session

  /** What happens to one request: lost; stored up to some envelope and then failed; stored with the
      reply lost; stored and acknowledged. */
  datatype Fate = RequestLost | FailsAfter(n: nat) | ReplyLost | Acknowledged

  /** The Agent's part is in its file: a restart changes nothing of it. */
  datatype Session = Session(sequence: nat, fingerprint: Option<Fingerprint>, relay: Relay)

  datatype Step =
    | Publish(projection: string, devices: seq<Device>, fate: Fate)
    | AddDevice(id: string)
    | RemoveDevice(id: string)
    | Restart

  /** The envelopes of one call, none if there is nothing new to send. */
  function Request(s: Session, projection: string, devices: seq<Device>): seq<Envelope> {
    if s.fingerprint == Some(FingerprintOf(projection, devices)) then []
    else Envelopes(devices, s.sequence + 1)
  }

  predicate Enabled(s: Session, step: Step) {
    step.Publish? && step.fate.FailsAfter? ==> step.fate.n <= |Request(s, step.projection, step.devices)|
  }

  /** The relay refuses more than 20 envelopes before storing any. */
  function Reached(envelopes: seq<Envelope>, fate: Fate): nat {
    match fate
    case RequestLost => 0
    case FailsAfter(n) => if |envelopes| > MAX_ENVELOPES then 0 else n
    case _ => if |envelopes| > MAX_ENVELOPES then 0 else |envelopes|
  }

  /** The publish came back as stored at least once. */
  predicate Counts(s: Session, step: Step) {
    && step.Publish? && step.fate.Acknowledged?
    && var envelopes := Request(s, step.projection, step.devices);
       |envelopes| <= MAX_ENVELOPES && StoredCount(s.relay, envelopes) > 0
  }

  function Apply(s: Session, step: Step): Session
    requires Enabled(s, step)
  {
    match step
    case Publish(projection, devices, fate) =>
      var envelopes := Request(s, projection, devices);
      var n := Reached(envelopes, fate);
      var relay := if n <= |envelopes| then Store(s.relay, envelopes, n) else s.relay;
      if Counts(s, step) then Session(s.sequence + 1, Some(FingerprintOf(projection, devices)), relay)
      else s.(relay := relay)
    case AddDevice(id) => s.(relay := s.relay.(devices := s.relay.devices + {id}))
    case RemoveDevice(id) => s.(relay := s.relay.(devices := s.relay.devices - {id}))
    case Restart => s
  }

  /** Something is stored exactly if one of the recipients exists at the relay. */
  lemma StoredIff(r: Relay, devices: seq<Device>, sequence: nat)
    ensures StoredCount(r, Envelopes(devices, sequence)) > 0
       <==> exists d :: d in devices && d.key != "" && d.id in r.devices
  {
    var recipients, envelopes := Recipients(devices), Envelopes(devices, sequence);
    FilterMembers(HasKey(), devices);
    FilterMembers(Exists(r), envelopes);
    hide Filter, Envelopes;
    if d :| d in devices && d.key != "" && d.id in r.devices {
      assert d in recipients;
      var i :| 0 <= i < |recipients| && recipients[i] == d;
      assert envelopes[i] in Filter(Exists(r), envelopes);
    }
    if StoredCount(r, envelopes) > 0 {
      var e := Filter(Exists(r), envelopes)[0];
      assert e in envelopes;
      var i :| 0 <= i < |envelopes| && envelopes[i] == e;
      assert recipients[i] in recipients;
    }
  }

  /** Which publishes count: those of something new that are acknowledged, with at most 20 recipients of
      which the relay has at least one. */
  lemma CountsIff(s: Session, projection: string, devices: seq<Device>, fate: Fate)
    requires Enabled(s, Publish(projection, devices, fate))
    ensures var t := Apply(s, Publish(projection, devices, fate));
            var counts := fate.Acknowledged? && |Recipients(devices)| <= 20
                          && s.fingerprint != Some(FingerprintOf(projection, devices))
                          && exists d :: d in devices && d.key != "" && d.id in s.relay.devices;
            && t.sequence == (if counts then s.sequence + 1 else s.sequence)
            && t.fingerprint == (if counts then Some(FingerprintOf(projection, devices)) else s.fingerprint)
  {
    hide Filter, Recipients, FingerprintOf, Store, Reached;
    StoredIff(s.relay, devices, s.sequence + 1);
    NoEnvelopes(s.relay);
  }

  lemma NoEnvelopes(r: Relay)
    ensures StoredCount(r, []) == 0
  {
  }

  /** What a publish leaves stored for a device: its number exactly if it is something new for at most 20
      recipients, the request got as far as this one, and the device exists. */
  lemma PublishStores(s: Session, projection: string, devices: seq<Device>, fate: Fate, id: string)
    requires Enabled(s, Publish(projection, devices, fate))
    ensures var r, t := Recipients(devices), Apply(s, Publish(projection, devices, fate));
            var n := if fate.RequestLost? then 0 else if fate.FailsAfter? then fate.n else |r|;
            var stored := && s.fingerprint != Some(FingerprintOf(projection, devices)) && |r| <= 20
                          && id in s.relay.devices && exists i :: 0 <= i < n && i < |r| && r[i].id == id;
            && Get(t.relay.latest, id) == (if stored then Some(s.sequence + 1) else Get(s.relay.latest, id))
            && t.relay.devices == s.relay.devices
  {
    hide Recipients, FingerprintOf, StoredCount;
    var envelopes := Request(s, projection, devices);
    StoreMeaning(s.relay, envelopes, Reached(envelopes, fate), s.sequence + 1);
  }

  /** A device gets the next acknowledged publish once it has been added, and not once it has been removed. */
  lemma MembershipDecides(s: Session, projection: string, d: Device)
    requires d.key != "" && s.fingerprint != Some(FingerprintOf(projection, [d]))
    ensures var publish := Publish(projection, [d], Acknowledged);
            var added, removed := Apply(s, AddDevice(d.id)), Apply(s, RemoveDevice(d.id));
            && Get(Apply(added, publish).relay.latest, d.id) == Some(s.sequence + 1)
            && Apply(added, publish).sequence == s.sequence + 1
            && Apply(removed, publish) == removed
  {
    var publish := Publish(projection, [d], Acknowledged);
    var added, removed := Apply(s, AddDevice(d.id)), Apply(s, RemoveDevice(d.id));
    assert Recipients([d]) == [d] by {
      assert [d][..0] == [] && Filter(HasKey(), []) == [];
    }
    hide Filter, Recipients, FingerprintOf, StoredCount, Store;
    PublishStores(added, projection, [d], Acknowledged, d.id);
    CountsIff(added, projection, [d], Acknowledged);
    CountsIff(removed, projection, [d], Acknowledged);
    NothingIsStored(removed.relay, Envelopes([d], s.sequence + 1), 1);
    assert [d][0] == d;
  }

  lemma {:induction false} NothingIsStored(r: Relay, envelopes: seq<Envelope>, n: nat)
    requires n <= |envelopes| && forall i :: 0 <= i < n ==> envelopes[i].deviceId !in r.devices
    ensures Store(r, envelopes, n) == r
  {
    if n > 0 {
      NothingIsStored(r, envelopes, n - 1);
    }
  }

  /** No stored sequence is ahead of the Agent's file by more than one. */
  ghost predicate Bounded(s: Session) {
    forall id :: id in s.relay.latest ==> s.relay.latest[id] <= s.sequence + 1
  }

  lemma StepKeepsBound(s: Session, step: Step)
    requires Bounded(s) && Enabled(s, step)
    ensures Bounded(Apply(s, step)) && NeverBack(s.relay, Apply(s, step).relay)
    ensures s.sequence <= Apply(s, step).sequence
    ensures Counts(s, step) ==> Apply(s, step).sequence == s.sequence + 1
  {
    if step.Publish? {
      var envelopes := Request(s, step.projection, step.devices);
      StoreMeaning(s.relay, envelopes, Reached(envelopes, step.fate), s.sequence + 1);
      var r := Store(s.relay, envelopes, Reached(envelopes, step.fate));
      forall id | id in r.latest
        ensures r.latest[id] == s.sequence + 1 || Get(s.relay.latest, id) == Some(r.latest[id])
      {
        assert Get(r.latest, id) == Some(r.latest[id]);
      }
      forall id | id in s.relay.latest ensures id in r.latest {
        assert Get(r.latest, id).Some?;
      }
    }
  }

  predicate Possible(s: Session, steps: seq<Step>)
    decreases |steps|
  {
    steps == [] || (Enabled(s, steps[0]) && Possible(Apply(s, steps[0]), steps[1..]))
  }

  function After(s: Session, steps: seq<Step>): Session
    requires Possible(s, steps)
    decreases |steps|
  {
    if steps == [] then s else After(Apply(s, steps[0]), steps[1..])
  }

  /** The sequence stored for a device never goes back and stays within one of the Agent's saved one;
      the saved one never goes back. */
  lemma {:induction false} SequencesAreSafe(s: Session, steps: seq<Step>)
    requires Bounded(s) && Possible(s, steps)
    ensures Bounded(After(s, steps)) && NeverBack(s.relay, After(s, steps).relay)
    ensures s.sequence <= After(s, steps).sequence
    decreases |steps|
  {
    if steps != [] {
      StepKeepsBound(s, steps[0]);
      SequencesAreSafe(Apply(s, steps[0]), steps[1..]);
    }
  }

  predicate NoneCounts(s: Session, steps: seq<Step>)
    requires Possible(s, steps)
    decreases |steps|
  {
    steps == [] || (!Counts(s, steps[0]) && NoneCounts(Apply(s, steps[0]), steps[1..]))
  }

  lemma {:induction false} FingerprintStays(s: Session, steps: seq<Step>)
    requires Possible(s, steps) && NoneCounts(s, steps)
    ensures After(s, steps).fingerprint == s.fingerprint && After(s, steps).sequence == s.sequence
    decreases |steps|
  {
    if steps != [] {
      FingerprintStays(Apply(s, steps[0]), steps[1..]);
    }
  }

  /** After an acknowledged publish the same snapshot for the same recipients sends nothing, in
      whatever order they are listed, until another publish is acknowledged; anything else is sent. */
  lemma UnchangedSendsNothing(s: Session, step: Step, steps: seq<Step>, projection: string, devices: seq<Device>)
    requires Enabled(s, step) && Counts(s, step)
    requires Possible(Apply(s, step), steps) && NoneCounts(Apply(s, step), steps)
    ensures var t := After(Apply(s, step), steps);
            var same := projection == step.projection
                        && multiset(Recipients(devices)) == multiset(Recipients(step.devices));
            Request(t, projection, devices) == if same then [] else Envelopes(devices, s.sequence + 2)
    ensures multiset(devices) == multiset(step.devices) ==>
              Request(After(Apply(s, step), steps), step.projection, devices) == []
  {
    hide Filter;
    FingerprintStays(Apply(s, step), steps);
    if multiset(devices) == multiset(step.devices) {
      FingerprintIgnoresOrder(step.projection, devices, step.devices);
    }
  }

  /** A publish whose reply is lost gives its numbers away again: the next, different snapshot goes
      out in the very same envelopes. */
  lemma LostReplyReusesNumbers(s: Session, projection: string, next: string, devices: seq<Device>)
    requires s.fingerprint != Some(FingerprintOf(projection, devices))
    requires s.fingerprint != Some(FingerprintOf(next, devices))
    ensures var t := Apply(s, Publish(projection, devices, ReplyLost));
            Request(t, next, devices) == Request(s, projection, devices) == Envelopes(devices, s.sequence + 1)
  {
    hide Filter, Store, StoredCount, FingerprintOf, Envelopes, Reached;
  }

  predicate TooMany(step: Step) {
    step.Publish? && |Recipients(step.devices)| > MAX_ENVELOPES
  }

  /** More than 20 recipients get no snapshot at all, however often it is published: the Agent puts all
      envelopes into one request, which the relay refuses. */
  lemma {:induction false} TooManyRecipientsGetNothing(s: Session, steps: seq<Step>)
    requires Possible(s, steps) && forall i :: 0 <= i < |steps| && steps[i].Publish? ==> TooMany(steps[i])
    ensures var t := After(s, steps);
            t.sequence == s.sequence && t.fingerprint == s.fingerprint && t.relay.latest == s.relay.latest
    decreases |steps|
  {
    if steps != [] {
      assert steps[0].Publish? ==> TooMany(steps[0]);
      TooManyRecipientsGetNothing(Apply(s, steps[0]), steps[1..]);
    }
  }

  const PHONE: seq<Device> := [Device("d", "k")]

  /** A request that is given up, two publishes that are acknowledged, and the first request arriving
      then: the stored number goes back from 2 to 1. */
  lemma LateRequestGoesBack(s: Session)
    requires s == Session(0, None, Relay({"d"}, map[]))
    ensures var steps := [Publish("x", PHONE, RequestLost), Publish("y", PHONE, Acknowledged),
                          Publish("z", PHONE, Acknowledged)];
            && Possible(s, steps) && After(s, steps).relay.latest == map["d" := 2]
            && Request(s, "x", PHONE) == [Envelope("d", 1)]
            && Store(After(s, steps).relay, Request(s, "x", PHONE), 1).latest == map["d" := 1]
  {
    var t := Session(1, Some(FingerprintOf("y", PHONE)), Relay({"d"}, map["d" := 1]));
    var u := Session(2, Some(FingerprintOf("z", PHONE)), Relay({"d"}, map["d" := 2]));
    hide Apply, Enabled, Request, FingerprintOf, Store, StoredCount, Envelopes, Recipients, Filter;
    PhoneIsServed(s, "y", t);
    PhoneIsServed(t, "z", u);
    LostRequest(s, u);
    RunIs(s, [Publish("x", PHONE, RequestLost), Publish("y", PHONE, Acknowledged), Publish("z", PHONE, Acknowledged)],
          [s, s, t, u]);
  }

  lemma LostRequest(s: Session, u: Session)
    requires s == Session(0, None, Relay({"d"}, map[])) && u.relay == Relay({"d"}, map["d" := 2])
    ensures Enabled(s, Publish("x", PHONE, RequestLost)) && Apply(s, Publish("x", PHONE, RequestLost)) == s
    ensures Request(s, "x", PHONE) == [Envelope("d", 1)]
    ensures Store(u.relay, [Envelope("d", 1)], 1).latest == map["d" := 1]
  {
    hide StoredCount, FingerprintOf, Envelopes, Recipients, Filter;
    PhoneIsRecipient();
    OneIsStored(u.relay, 1);
    assert Request(s, "x", PHONE) == [Envelope("d", 1)];
    assert Store(s.relay, [Envelope("d", 1)], 0) == s.relay;
  }

  /** A run given by its intermediate states. */
  lemma {:induction false} RunIs(s: Session, steps: seq<Step>, states: seq<Session>)
    requires |states| == |steps| + 1 && states[0] == s
    requires forall i :: 0 <= i < |steps| ==>
               Enabled(states[i], steps[i]) && Apply(states[i], steps[i]) == states[i + 1]
    ensures Possible(s, steps) && After(s, steps) == states[|steps|]
    decreases |steps|
  {
    if steps != [] {
      RunIs(states[1], steps[1..], states[1..]);
    }
  }

  lemma PhoneIsRecipient()
    ensures Recipients(PHONE) == PHONE && forall n: nat :: Envelopes(PHONE, n) == [Envelope("d", n)]
  {
    assert PHONE[..0] == [] && Filter(HasKey(), []) == [];
  }

  lemma OneIsStored(r: Relay, n: nat)
    requires r.devices == {"d"}
    ensures Store(r, [Envelope("d", n)], 1) == r.(latest := r.latest["d" := n])
    ensures StoredCount(r, [Envelope("d", n)]) == 1
  {
    var none: seq<Envelope> := [];
    FilterAppend(Exists(r), none, Envelope("d", n));
    assert none + [Envelope("d", n)] == [Envelope("d", n)];
    assert Store(r, [Envelope("d", n)], 0) == r;
  }

  lemma PhoneIsServed(s: Session, projection: string, t: Session)
    requires s.relay.devices == {"d"} && s.fingerprint != Some(FingerprintOf(projection, PHONE))
    requires t.sequence == s.sequence + 1 && t.fingerprint == Some(FingerprintOf(projection, PHONE))
    requires t.relay == s.relay.(latest := s.relay.latest["d" := s.sequence + 1])
    ensures Enabled(s, Publish(projection, PHONE, Acknowledged))
    ensures Apply(s, Publish(projection, PHONE, Acknowledged)) == t
  {
    hide Store, StoredCount, FingerprintOf, Envelopes;
    PhoneIsRecipient();
    OneIsStored(s.relay, s.sequence + 1);
    assert Request(s, projection, PHONE) == [Envelope("d", s.sequence + 1)];
  }

  // ---------------------------------------------------------------- the Agent's method

  /** The fields `publish_secure_snapshot` updates; `saved` is their copy in the file. */
  class SnapshotPublisher {
    var sequence: nat
    var fingerprint: Option<Fingerprint>
    ghost var saved: (nat, Option<Fingerprint>)

    constructor Load(sequence: nat, fingerprint: Option<Fingerprint>)
      ensures Valid() && this.sequence == sequence && this.fingerprint == fingerprint
    {
      this.sequence, this.fingerprint := sequence, fingerprint;
      saved := (sequence, fingerprint);
    }

    ghost predicate Valid()
      reads this
    {
      saved == (sequence, fingerprint)
    }

    ghost function View(relay: Relay): Session
      reads this
    {
      Session(sequence, fingerprint, relay)
    }

    /** `reply` is the number stored, if a reply came; the file follows the session step by step. */
    method Publish(projection: string, devices: seq<Device>, reply: Option<nat>, ghost relay: Relay)
      returns (envelopes: seq<Envelope>)
      requires Valid()
      requires reply.Some? ==> var request := Request(View(relay), projection, devices);
                               |request| <= MAX_ENVELOPES && reply.value == StoredCount(relay, request)
      modifies this
      ensures Valid() && envelopes == Request(old(View(relay)), projection, devices)
      ensures var fate := if reply.Some? then Acknowledged else ReplyLost;
              View(relay) == Apply(old(View(relay)), Step.Publish(projection, devices, fate)).(relay := relay)
    {
      var current := FingerprintOf(projection, devices);
      if fingerprint == Some(current) {
        return [];
      }
      envelopes := Envelopes(devices, sequence + 1);
      if envelopes == [] || reply.None? || reply.value == 0 {
        return;
      }
      sequence, fingerprint := sequence + 1, Some(current);
      saved := (sequence, fingerprint);
    }
  }
}
