/**
  The FCM-token ownership index of push_relay/app.py: device documents under their Agents, and for
  each token hash one pointer document naming the device that owns the token.

  `hash` stands for SHA-256 and is only assumed injective where that is said.
 */
module TokenIndex {
  import opened Common

  datatype Path = Path(agent: string, id: string)

  datatype Prefs = Prefs(meaningful: bool, activity: bool, expiresAt: int)

  /** `credential` stands for what a merge leaves alone: the access token hash and the encryption key. */
  datatype Device = Device(token: Option<string>, prefs: Prefs, credential: Option<string>)

  datatype Db = Db(devices: map<Path, Device>, pointers: map<string, Path>)

  datatype Outcome = Done | Refused(status: int)

  type Hash = string -> string

  ghost predicate Injective(hash: Hash) {
    forall a, b :: hash(a) == hash(b) ==> a == b
  }

  function Token(db: Db, path: Path): Option<string> {
    if path in db.devices then db.devices[path].token else None
  }

  // ---------------------------------------------------------------- database effects of the handlers

  function Merged(db: Db, path: Path, token: string, prefs: Prefs): Device {
    Device(Some(token), prefs, if path in db.devices then db.devices[path].credential else None)
  }

  /** Write the device, delete the token's previous device, move the pointer. */
  function Register(db: Db, hash: Hash, path: Path, token: string, prefs: Prefs): Db {
    var written := db.devices[path := Merged(db, path, token, prefs)];
    var previous := Get(db.pointers, hash(token));
    Db(if previous.Some? && previous.value != path then written - {previous.value} else written,
       db.pointers[hash(token) := path])
  }

  /** As `Register`, after releasing the pointer of the device's previous token. */
  function RegisterOwn(db: Db, hash: Hash, path: Path, token: string, prefs: Prefs): Db {
    var prior := Token(db, path);
    var stale := prior.Some? && prior.value != token && Get(db.pointers, hash(prior.value)) == Some(path);
    Register(if stale then db.(pointers := db.pointers - {hash(prior.value)}) else db, hash, path, token, prefs)
  }

  /** Delete a device and its token's pointer; `known` is an earlier reading of the device. */
  function Delete(db: Db, hash: Hash, path: Path, known: Option<Device>): Db {
    var token := if known.Some? then known.value.token else Token(db, path);
    var release := token.Some? && Get(db.pointers, hash(token.value)) == Some(path);
    Db(db.devices - {path}, if release then db.pointers - {hash(token.value)} else db.pointers)
  }

  function Create(db: Db, path: Path, credential: string, prefs: Prefs): Db {
    db.(devices := db.devices[path := Device(None, prefs, Some(credential))])
  }

  /** What POST revoke deletes by: the token cut to 120 characters. */
  function RevokedId(hash: Hash, token: string): string {
    hash(if |token| <= 120 then token else token[..120])
  }

  // ---------------------------------------------------------------- invariants

  /** A device that holds a token is the one the token's pointer names. */
  ghost predicate Owned(db: Db, hash: Hash) {
    forall p :: p in db.devices && db.devices[p].token.Some? ==>
      Get(db.pointers, hash(db.devices[p].token.value)) == Some(p)
  }

  /** Every pointer names an existing device that holds the token. */
  ghost predicate Exact(db: Db, hash: Hash) {
    forall key :: key in db.pointers ==>
      var token := Token(db, db.pointers[key]);
      token.Some? && hash(token.value) == key
  }

  function DeviceIds(db: Db, agent: string): set<string> {
    set p | p in db.devices && p.agent == agent :: p.id
  }

  ghost predicate WithinCapacity(db: Db, max: nat) {
    forall agent :: |DeviceIds(db, agent)| <= max
  }

  /** Hence no two devices, on any Agents, hold the same token. */
  lemma OneDevicePerToken(db: Db, hash: Hash, p: Path, q: Path)
    requires Owned(db, hash) && Token(db, p).Some? && Token(db, p) == Token(db, q)
    ensures p == q
  {
  }

  lemma RegisterKeepsOwned(db: Db, hash: Hash, path: Path, token: string, prefs: Prefs)
    requires Owned(db, hash)
    ensures Owned(Register(db, hash, path, token, prefs), hash)
  {
  }

  lemma RegisterOwnKeepsOwned(db: Db, hash: Hash, path: Path, token: string, prefs: Prefs)
    requires Injective(hash) && Owned(db, hash)
    ensures Owned(RegisterOwn(db, hash, path, token, prefs), hash)
  {
    var t := RegisterOwn(db, hash, path, token, prefs);
    forall p | p in t.devices && t.devices[p].token.Some?
      ensures Get(t.pointers, hash(t.devices[p].token.value)) == Some(p)
    {
      if p != path {
        assert t.devices[p] == db.devices[p];
        assert Get(db.pointers, hash(db.devices[p].token.value)) == Some(p);
      }
    }
  }

  /** Whatever earlier reading of the device the deletion works with. */
  lemma DeleteKeepsOwned(db: Db, hash: Hash, path: Path, known: Option<Device>)
    requires Owned(db, hash)
    ensures Owned(Delete(db, hash, path, known), hash)
  {
  }

  /** The Agent-side route keeps the index exact if and only if it does not rotate the device's token. */
  lemma RegisterKeepsExactIff(db: Db, hash: Hash, path: Path, token: string, prefs: Prefs)
    requires Injective(hash) && Owned(db, hash) && Exact(db, hash)
    ensures Exact(Register(db, hash, path, token, prefs), hash)
       <==> Token(db, path).None? || Token(db, path) == Some(token)
  {
    var t, prior := Register(db, hash, path, token, prefs), Token(db, path);
    if prior.Some? && prior.value != token {
      var key := hash(prior.value);
      assert Get(db.pointers, key) == Some(path);
      assert key in t.pointers && Token(t, t.pointers[key]) == Some(token);
    } else {
      RegisterIsExactUnlessRotated(db, hash, path, token, prefs);
    }
  }

  lemma RegisterIsExactUnlessRotated(db: Db, hash: Hash, path: Path, token: string, prefs: Prefs)
    requires Injective(hash)
    requires forall key :: key in db.pointers && key != hash(token) ==>
               Token(db, db.pointers[key]).Some? && hash(Token(db, db.pointers[key]).value) == key
               && db.pointers[key] != path
               && Get(db.pointers, hash(token)) != Some(db.pointers[key])
    ensures Exact(Register(db, hash, path, token, prefs), hash)
  {
  }

  /** The app-side route always does. */
  lemma RegisterOwnKeepsExact(db: Db, hash: Hash, path: Path, token: string, prefs: Prefs)
    requires Injective(hash) && Owned(db, hash) && Exact(db, hash)
    ensures Exact(RegisterOwn(db, hash, path, token, prefs), hash)
  {
    var prior := Token(db, path);
    if prior.Some? && prior.value != token {
      assert Get(db.pointers, hash(prior.value)) == Some(path);
      RegisterIsExactUnlessRotated(db.(pointers := db.pointers - {hash(prior.value)}), hash, path, token, prefs);
    } else {
      RegisterIsExactUnlessRotated(db, hash, path, token, prefs);
    }
  }

  /** Deletion keeps the index exact if and only if the reading it works with has the current token. */
  lemma DeleteKeepsExactIff(db: Db, hash: Hash, path: Path, known: Option<Device>)
    requires Injective(hash) && Owned(db, hash) && Exact(db, hash)
    ensures Exact(Delete(db, hash, path, known), hash)
       <==> known.None? || Token(db, path).None? || known.value.token == Token(db, path)
  {
    var t, current := Delete(db, hash, path, known), Token(db, path);
    if current.Some? {
      var key := hash(current.value);
      assert Get(db.pointers, key) == Some(path);
      if known.Some? && known.value.token != current {
        assert key in t.pointers && Token(t, t.pointers[key]).None?;
      }
    }
    if known.None? || current.None? || known.value.token == current {
      forall key | key in t.pointers
        ensures Token(t, t.pointers[key]).Some? && hash(Token(t, t.pointers[key]).value) == key
      {
        assert Token(db, db.pointers[key]).Some? && hash(Token(db, db.pointers[key]).value) == key;
      }
    }
  }

  /** While the index is exact, registering a token removes no device but the token's previous holder. */
  lemma RegisterRemovesOnlyHolder(db: Db, hash: Hash, path: Path, token: string, prefs: Prefs, q: Path)
    requires Injective(hash) && Exact(db, hash) && q in db.devices
    requires q !in Register(db, hash, path, token, prefs).devices
    ensures Token(db, q) == Some(token) && q != path
  {
  }

  /** After an Agent-side rotation it may: registering the old token elsewhere deletes the rotated
      device, which holds another token by then. */
  lemma RotationThenReuseDropsDevice(db: Db, hash: Hash, p: Path, q: Path, prior: string, token: string, prefs: Prefs)
    requires Injective(hash) && Owned(db, hash) && Token(db, p) == Some(prior) && prior != token && p != q
    ensures var rotated := Register(db, hash, p, token, prefs);
            Token(rotated, p) == Some(token)
            && p !in Register(rotated, hash, q, prior, prefs).devices
  {
  }

  // ---------------------------------------------------------------- capacity

  lemma RemovalKeepsCapacity(db: Db, db': Db, max: nat)
    requires WithinCapacity(db, max) && db'.devices.Keys <= db.devices.Keys
    ensures WithinCapacity(db', max)
  {
    forall agent ensures |DeviceIds(db', agent)| <= max {
      assert DeviceIds(db', agent) <= DeviceIds(db, agent);
      SmallerSet(DeviceIds(db', agent), DeviceIds(db, agent));
    }
  }

  lemma SmallerSet<T>(a: set<T>, b: set<T>)
    requires a <= b
    ensures |a| <= |b|
  {
    assert b == a + (b - a) && |b| == |a| + |b - a|;
  }

  lemma AdditionKeepsCapacity(db: Db, db': Db, path: Path, max: nat)
    requires WithinCapacity(db, max) && db'.devices.Keys <= db.devices.Keys + {path}
    requires path in db.devices || |DeviceIds(db, path.agent)| < max
    ensures WithinCapacity(db', max)
  {
    forall agent ensures |DeviceIds(db', agent)| <= max {
      var ids := if agent == path.agent then DeviceIds(db, agent) + {path.id} else DeviceIds(db, agent);
      assert DeviceIds(db', agent) <= ids;
      SmallerSet(DeviceIds(db', agent), ids);
      if path in db.devices {
        assert path.id in DeviceIds(db, path.agent);
        assert ids == DeviceIds(db, agent);
      }
    }
  }

  // ---------------------------------------------------------------- runs of handlers

  datatype Op =
    | RegisterByAgent(agent: string, requested: Option<string>, token: string, prefs: Prefs)
    | RegisterByApp(path: Path, token: string, prefs: Prefs)
    | CreateByClaim(path: Path, credential: string, prefs: Prefs)
    | RevokeByAgent(agent: string, requested: Option<string>, token: string)
    | RemoveByAgent(agent: string, token: string)
    | RemoveKnown(path: Path, known: Option<Device>)

  function Target(hash: Hash, op: Op): Path {
    match op
    case RegisterByAgent(agent, requested, token, _) => Path(agent, requested.GetOr(hash(token)))
    case RegisterByApp(path, _, _) => path
    case CreateByClaim(path, _, _) => path
    case RevokeByAgent(agent, requested, token) => Path(agent, requested.GetOr(RevokedId(hash, token)))
    case RemoveByAgent(agent, token) => Path(agent, hash(token))
    case RemoveKnown(path, _) => path
  }

  /** 409 when a new device would exceed the limit, 401 for an unknown device, 400 for a bad token, 500
      when a new device's identifier is taken. */
  function Verdict(db: Db, hash: Hash, max: nat, op: Op): Outcome {
    var path := Target(hash, op);
    var full := path !in db.devices && |DeviceIds(db, path.agent)| >= max;
    match op
    case RegisterByAgent(_, _, token, _) =>
      if token == "" || |token| > 4096 then Refused(400) else if full then Refused(409) else Done
    case RegisterByApp(_, token, _) =>
      if path !in db.devices then Refused(401)
      else if token == "" || |token| > 4096 then Refused(400) else Done
    case CreateByClaim(_, _, _) =>
      if |DeviceIds(db, path.agent)| >= max then Refused(409)
      else if path in db.devices then Refused(500) else Done
    case RevokeByAgent(_, requested, token) => if requested.None? && token == "" then Refused(400) else Done
    case RemoveByAgent(_, token) => if token == "" || |token| > 4096 then Refused(400) else Done
    case RemoveKnown(_, _) => Done
  }

  function Handle(db: Db, hash: Hash, max: nat, op: Op): Db {
    var path := Target(hash, op);
    if Verdict(db, hash, max, op).Refused? then db
    else match op
      case RegisterByAgent(_, _, token, prefs) => Register(db, hash, path, token, prefs)
      case RegisterByApp(_, token, prefs) => RegisterOwn(db, hash, path, token, prefs)
      case CreateByClaim(_, credential, prefs) => Create(db, path, credential, prefs)
      case RevokeByAgent(_, _, _) => Delete(db, hash, path, None)
      case RemoveByAgent(_, _) => Delete(db, hash, path, None)
      case RemoveKnown(_, known) => Delete(db, hash, path, known)
  }

  function HandleAll(db: Db, hash: Hash, max: nat, ops: seq<Op>): Db {
    if ops == [] then db
    else Handle(HandleAll(db, hash, max, ops[..|ops| - 1]), hash, max, ops[|ops| - 1])
  }

  lemma HandleKeepsOwned(db: Db, hash: Hash, max: nat, op: Op)
    requires Injective(hash) && Owned(db, hash)
    ensures Owned(Handle(db, hash, max, op), hash)
  {
    var path := Target(hash, op);
    match op
    case RegisterByAgent(_, _, token, prefs) => RegisterKeepsOwned(db, hash, path, token, prefs);
    case RegisterByApp(_, token, prefs) => RegisterOwnKeepsOwned(db, hash, path, token, prefs);
    case CreateByClaim(_, _, _) =>
    case RevokeByAgent(_, _, _) => DeleteKeepsOwned(db, hash, path, None);
    case RemoveByAgent(_, _) => DeleteKeepsOwned(db, hash, path, None);
    case RemoveKnown(_, known) => DeleteKeepsOwned(db, hash, path, known);
  }

  lemma HandleKeepsCapacity(db: Db, hash: Hash, max: nat, op: Op)
    requires WithinCapacity(db, max)
    ensures WithinCapacity(Handle(db, hash, max, op), max)
  {
    var path, t := Target(hash, op), Handle(db, hash, max, op);
    if Verdict(db, hash, max, op).Done? {
      match op
      case RegisterByAgent(_, _, _, _) => AdditionKeepsCapacity(db, t, path, max);
      case RegisterByApp(_, _, _) => AdditionKeepsCapacity(db, t, path, max);
      case CreateByClaim(_, _, _) => AdditionKeepsCapacity(db, t, path, max);
      case _ => RemovalKeepsCapacity(db, t, max);
    }
  }

  /** At every handler boundary: one owner per token, and no Agent above its limit. */
  lemma {:induction false} RunKeepsIndex(db: Db, hash: Hash, max: nat, ops: seq<Op>)
    requires Injective(hash) && Owned(db, hash) && WithinCapacity(db, max)
    ensures Owned(HandleAll(db, hash, max, ops), hash) && WithinCapacity(HandleAll(db, hash, max, ops), max)
  {
    if ops != [] {
      var front := ops[..|ops| - 1];
      RunKeepsIndex(db, hash, max, front);
      HandleKeepsOwned(HandleAll(db, hash, max, front), hash, max, ops[|ops| - 1]);
      HandleKeepsCapacity(HandleAll(db, hash, max, front), hash, max, ops[|ops| - 1]);
    }
  }

  /** The Agent's registration leaves the device with the token and preferences exactly if the token can be
      one, and the device exists or the Agent has room for another.  A device of a full Agent can thus
      always register again.  A refusal changes nothing. */
  lemma RegistrationTakesEffectIff(db: Db, hash: Hash, max: nat, agent: string, requested: Option<string>,
                                   token: string, prefs: Prefs)
    ensures var t := Handle(db, hash, max, RegisterByAgent(agent, requested, token, prefs));
            var path := Path(agent, requested.GetOr(hash(token)));
            var effective := 1 <= |token| <= 4096 && (path in db.devices || |DeviceIds(db, agent)| < max);
            && (effective ==>
                  && Token(t, path) == Some(token) && t.devices[path].prefs == prefs
                  && t.devices[path].credential == (if path in db.devices then db.devices[path].credential else None))
            && (!effective ==> t == db && Verdict(db, hash, max, RegisterByAgent(agent, requested, token, prefs))
                                          == Refused(if 1 <= |token| <= 4096 then 409 else 400))
  {
  }

  /** The app's own registration needs the device; there is no limit to check. */
  lemma OwnRegistrationTakesEffectIff(db: Db, hash: Hash, max: nat, path: Path, token: string, prefs: Prefs)
    ensures var t := Handle(db, hash, max, RegisterByApp(path, token, prefs));
            var effective := path in db.devices && 1 <= |token| <= 4096;
            && (effective ==> t.devices.Keys <= db.devices.Keys && Get(t.devices, path)
                              == Some(Device(Some(token), prefs, db.devices[path].credential)))
            && (!effective ==> t == db && Verdict(db, hash, max, RegisterByApp(path, token, prefs))
                                          == Refused(if path in db.devices then 400 else 401))
  {
  }

  /** A claim adds one device, with its credential and no token, exactly below the limit. */
  lemma ClaimAddsDeviceIff(db: Db, hash: Hash, max: nat, path: Path, credential: string, prefs: Prefs)
    ensures var t := Handle(db, hash, max, CreateByClaim(path, credential, prefs));
            t == if |DeviceIds(db, path.agent)| < max && path !in db.devices
                 then db.(devices := db.devices[path := Device(None, prefs, Some(credential))]) else db
    ensures Verdict(db, hash, max, CreateByClaim(path, credential, prefs))
         == if |DeviceIds(db, path.agent)| >= max then Refused(409)
            else if path in db.devices then Refused(500) else Done
  {
  }

  /** Revocation deletes the named device, or the one named by the first 120 characters of the token; DELETE
      the one named by the whole token.  No other device is touched; without a usable token the answer is
      400 and nothing changes. */
  lemma RemovalTakesEffectIff(db: Db, hash: Hash, max: nat, agent: string, requested: Option<string>, token: string)
    ensures var op := RevokeByAgent(agent, requested, token);
            var id := if requested.Some? then requested.value else hash(if |token| > 120 then token[..120] else token);
            if requested.Some? || token != ""
            then Handle(db, hash, max, op).devices == db.devices - {Path(agent, id)}
            else Handle(db, hash, max, op) == db && Verdict(db, hash, max, op) == Refused(400)
    ensures var op := RemoveByAgent(agent, token);
            if 1 <= |token| <= 4096
            then Handle(db, hash, max, op).devices == db.devices - {Path(agent, hash(token))}
            else Handle(db, hash, max, op) == db && Verdict(db, hash, max, op) == Refused(400)
  {
  }

  /** The device is there after every prefix of the run. */
  ghost predicate Stays(db: Db, hash: Hash, max: nat, ops: seq<Op>, path: Path) {
    forall n :: 0 <= n <= |ops| ==> path in HandleAll(db, hash, max, ops[..n]).devices
  }

  /** The credential a device got when it was created is its credential for as long as it exists. */
  lemma {:induction false} CredentialStays(db: Db, hash: Hash, max: nat, ops: seq<Op>, path: Path)
    requires Stays(db, hash, max, ops, path)
    ensures path in db.devices && path in HandleAll(db, hash, max, ops).devices
    ensures HandleAll(db, hash, max, ops).devices[path].credential == db.devices[path].credential
  {
    assert ops[..|ops|] == ops && ops[..0] == [];
    if ops != [] {
      var front := ops[..|ops| - 1];
      assert forall n :: 0 <= n <= |front| ==> front[..n] == ops[..n];
      CredentialStays(db, hash, max, front, path);
    }
  }

  /** The step neither rotates a token through the Agent-side route nor deletes by an outdated reading. */
  predicate Tidy(db: Db, hash: Hash, op: Op) {
    var current := Token(db, Target(hash, op));
    && (op.RegisterByAgent? ==> current.None? || current == Some(op.token))
    && (op.RemoveKnown? ==> op.known.None? || current.None? || op.known.value.token == current)
  }

  predicate TidyRun(db: Db, hash: Hash, max: nat, ops: seq<Op>) {
    ops == []
    || (TidyRun(db, hash, max, ops[..|ops| - 1])
        && Tidy(HandleAll(db, hash, max, ops[..|ops| - 1]), hash, ops[|ops| - 1]))
  }

  /** On such runs the index is a bijection between pointers and token-holding devices. */
  lemma {:induction false} TidyRunKeepsExact(db: Db, hash: Hash, max: nat, ops: seq<Op>)
    requires Injective(hash) && Owned(db, hash) && Exact(db, hash) && WithinCapacity(db, max)
    requires TidyRun(db, hash, max, ops)
    ensures Exact(HandleAll(db, hash, max, ops), hash)
  {
    if ops != [] {
      var front, op := ops[..|ops| - 1], ops[|ops| - 1];
      var mid := HandleAll(db, hash, max, front);
      TidyRunKeepsExact(db, hash, max, front);
      RunKeepsIndex(db, hash, max, front);
      var path := Target(hash, op);
      match op
      case RegisterByAgent(_, _, token, prefs) => RegisterKeepsExactIff(mid, hash, path, token, prefs);
      case RegisterByApp(_, token, prefs) => RegisterOwnKeepsExact(mid, hash, path, token, prefs);
      case CreateByClaim(_, _, _) =>
        assert forall key :: key in mid.pointers ==> Token(mid, mid.pointers[key]).Some?;
      case RevokeByAgent(_, _, _) => DeleteKeepsExactIff(mid, hash, path, None);
      case RemoveByAgent(_, _) => DeleteKeepsExactIff(mid, hash, path, None);
      case RemoveKnown(_, known) => DeleteKeepsExactIff(mid, hash, path, known);
    }
  }

  /** Registering by token and revoking by the same token removes the device exactly for tokens of at
      most 120 characters; the DELETE route always removes it. */
  lemma RevokeUndoesRegisterIff(db: Db, hash: Hash, max: nat, agent: string, token: string, prefs: Prefs)
    requires Injective(hash)
    requires Verdict(db, hash, max, RegisterByAgent(agent, None, token, prefs)).Done?
    ensures var registered := Handle(db, hash, max, RegisterByAgent(agent, None, token, prefs));
            var path := Path(agent, hash(token));
            && path in registered.devices
            && (path !in Handle(registered, hash, max, RevokeByAgent(agent, None, token)).devices <==> |token| <= 120)
            && path !in Handle(registered, hash, max, RemoveByAgent(agent, token)).devices
  {
    if |token| > 120 {
      assert |token[..120]| != |token|;
      assert RevokedId(hash, token) != hash(token);
    }
  }

  // ---------------------------------------------------------------- multicast lists

  /** A device document as it is streamed for sending. */
  datatype Record = Record(id: string, device: Device)

  function HasToken(): Record -> bool { (r: Record) => r.device.token.Some? }

  ghost predicate DistinctTokens(records: seq<Record>) {
    forall i, j :: 0 <= i < j < |records| && records[i].device.token.Some? ==>
      records[i].device.token != records[j].device.token
  }

  /** The last record with this token. */
  function LastWith(records: seq<Record>, token: string): Option<Record> {
    if records == [] then None
    else if records[|records| - 1].device.token == Some(token) then Some(records[|records| - 1])
    else LastWith(records[..|records| - 1], token)
  }

  predicate Wants(prefs: Prefs, category: string, importance: string) {
    prefs.meaningful
    && if category == "activity" then prefs.activity else importance == "attention" || importance == "important"
  }

  predicate Eligible(r: Record, category: string, importance: string, now: int) {
    Wants(r.device.prefs, category, importance) && r.device.prefs.expiresAt >= now && r.device.token.Some?
  }

  function EligibleFor(category: string, importance: string, now: int): Record -> bool {
    (r: Record) => Eligible(r, category, importance, now)
  }

  /** All the records of one Agent, in any order. */
  ghost predicate Streams(db: Db, agent: string, records: seq<Record>) {
    && (forall r :: r in records ==> Get(db.devices, Path(agent, r.id)) == Some(r.device))
    && (forall id :: Path(agent, id) in db.devices ==> Record(id, db.devices[Path(agent, id)]) in records)
    && (forall i, j :: 0 <= i < j < |records| ==> records[i].id != records[j].id)
  }

  /** With the index intact the list an Agent's event goes to has no repeated token to begin with. */
  lemma StreamedTokensAreDistinct(db: Db, hash: Hash, agent: string, records: seq<Record>)
    requires Owned(db, hash) && Streams(db, agent, records)
    ensures DistinctTokens(records)
  {
  }

  /** The tokens in the order in which they first occur. */
  function TokenOrder(records: seq<Record>): seq<string> {
    if records == [] then []
    else
      var before, token := TokenOrder(records[..|records| - 1]), records[|records| - 1].device.token;
      if token.Some? && token.value !in before then before + [token.value] else before
  }

  lemma {:induction false} TokenOrderMeaning(records: seq<Record>)
    ensures forall t :: t in TokenOrder(records) <==> LastWith(records, t).Some?
    ensures forall i, j :: 0 <= i < j < |TokenOrder(records)| ==> TokenOrder(records)[i] != TokenOrder(records)[j]
    ensures forall t :: LastWith(records, t).Some? ==>
              LastWith(records, t).value in records && LastWith(records, t).value.device.token == Some(t)
  {
    if records != [] {
      TokenOrderMeaning(records[..|records| - 1]);
    }
  }

  /** One record per token, the last one, in the order of first occurrence. */
  function UniqueDevices(records: seq<Record>): (result: seq<Record>)
    ensures |result| == |TokenOrder(records)|
  {
    TokenOrderMeaning(records);
    var order := TokenOrder(records);
    seq(|order|, i requires 0 <= i < |order| => assert order[i] in order; LastWith(records, order[i]).value)
  }

  /** No token twice, and exactly the tokens of the input. */
  lemma UniqueDevicesMeaning(records: seq<Record>)
    ensures DistinctTokens(UniqueDevices(records))
    ensures forall r :: r in UniqueDevices(records) ==> r in records && r.device.token.Some?
    ensures forall r :: r in records && r.device.token.Some? ==>
              exists u :: u in UniqueDevices(records) && u.device.token == r.device.token
  {
    TokenOrderMeaning(records);
    var order, unique := TokenOrder(records), UniqueDevices(records);
    forall i | 0 <= i < |order| ensures unique[i].device.token == Some(order[i]) && unique[i] in records {
      assert order[i] in order;
    }
    forall r | r in records && r.device.token.Some?
      ensures exists u :: u in unique && u.device.token == r.device.token
    {
      LastWithExists(records, r);
      var i :| 0 <= i < |order| && order[i] == r.device.token.value;
      assert unique[i] in unique;
    }
  }

  lemma {:induction false} LastWithExists(records: seq<Record>, r: Record)
    requires r in records && r.device.token.Some?
    ensures LastWith(records, r.device.token.value).Some?
  {
    var front := records[..|records| - 1];
    assert records == front + [records[|records| - 1]];
    if records[|records| - 1].device.token != r.device.token {
      LastWithExists(front, r);
    }
  }

  lemma {:induction false} NeverWith(records: seq<Record>, token: string)
    requires forall i :: 0 <= i < |records| ==> records[i].device.token != Some(token)
    ensures LastWith(records, token).None?
  {
    if records != [] {
      NeverWith(records[..|records| - 1], token);
    }
  }

  /** On a list that already has distinct tokens only the records without a token go. */
  lemma {:induction false} UniqueDevicesOfDistinct(records: seq<Record>)
    requires DistinctTokens(records)
    ensures UniqueDevices(records) == Filter(HasToken(), records)
  {
    if records != [] {
      var front, last := records[..|records| - 1], records[|records| - 1];
      UniqueDevicesOfDistinct(front);
      TokenOrderMeaning(front);
      if last.device.token.Some? {
        NeverWith(front, last.device.token.value);
      }
      var order := TokenOrder(front);
      forall i | 0 <= i < |order| ensures UniqueDevices(records)[i] == UniqueDevices(front)[i] {
        assert order[i] in order;
      }
    }
  }

  lemma {:induction false} FilterKeepsDistinct(p: Record -> bool, records: seq<Record>)
    requires DistinctTokens(records)
    ensures DistinctTokens(Filter(p, records))
  {
    if records != [] {
      var front, last := records[..|records| - 1], records[|records| - 1];
      FilterKeepsDistinct(p, front);
      FilterMembers(p, front);
      var kept := Filter(p, front);
      forall i | 0 <= i < |kept| && kept[i].device.token.Some? ensures kept[i].device.token != last.device.token {
        assert kept[i] in front;
        var k :| 0 <= k < |front| && front[k] == kept[i];
      }
    }
  }

  /** So an event goes to exactly the Agent's eligible devices, each token once. */
  lemma MulticastListIsTheEligibleDevices(db: Db, hash: Hash, agent: string, records: seq<Record>,
                                          category: string, importance: string, now: int)
    requires Owned(db, hash) && Streams(db, agent, records)
    ensures var eligible := Filter(EligibleFor(category, importance, now), records);
            && UniqueDevices(eligible) == eligible && DistinctTokens(eligible)
            && forall id, device :: Record(id, device) in eligible <==>
                 && Get(db.devices, Path(agent, id)) == Some(device) && device.token.Some?
                 && device.prefs.meaningful && now <= device.prefs.expiresAt
                 && (if category == "activity" then device.prefs.activity
                     else importance in {"attention", "important"})
  {
    var p := EligibleFor(category, importance, now);
    StreamedTokensAreDistinct(db, hash, agent, records);
    FilterKeepsDistinct(p, records);
    FilterMembers(p, records);
    UniqueDevicesOfDistinct(Filter(p, records));
    hide Filter, UniqueDevices, Owned, DistinctTokens;
    FilterAll(HasToken(), Filter(p, records));
    hide Eligible, Wants, Streams;
    forall id, device
      ensures Record(id, device) in records <==> Get(db.devices, Path(agent, id)) == Some(device)
      ensures p(Record(id, device)) <==>
                && device.token.Some? && device.prefs.meaningful && now <= device.prefs.expiresAt
                && (if category == "activity" then device.prefs.activity else importance in {"attention", "important"})
    {
      StreamedRecord(db, agent, records, id, device);
      EligibleMeaning(Record(id, device), category, importance, now);
    }
  }

  lemma StreamedRecord(db: Db, agent: string, records: seq<Record>, id: string, device: Device)
    requires Streams(db, agent, records)
    ensures Record(id, device) in records <==> Get(db.devices, Path(agent, id)) == Some(device)
  {
  }

  lemma EligibleMeaning(r: Record, category: string, importance: string, now: int)
    ensures Eligible(r, category, importance, now) <==>
              && r.device.token.Some? && r.device.prefs.meaningful && now <= r.device.prefs.expiresAt
              && (if category == "activity" then r.device.prefs.activity else importance in {"attention", "important"})
  {
  }

  lemma {:induction false} FilterAll<T>(p: T -> bool, s: seq<T>)
    requires forall x :: x in s ==> p(x)
    ensures Filter(p, s) == s
  {
    if s != [] {
      var front, last := s[..|s| - 1], s[|s| - 1];
      assert s == front + [last];
      assert forall x :: x in front ==> x in s;
      FilterAll(p, front);
      assert p(last);
    }
  }

  /** The loop over a dictionary that remembers insertion order. */
  method UniqueDevicesByToken(records: seq<Record>) returns (result: seq<Record>)
    ensures result == UniqueDevices(records)
  {
    var order: seq<string> := [];
    var unique: map<string, Record> := map[];
    for i := 0 to |records|
      invariant order == TokenOrder(records[..i])
      invariant forall t :: Get(unique, t) == LastWith(records[..i], t)
      invariant forall t :: t in order <==> t in unique
    {
      assert records[..i + 1][..i] == records[..i];
      var token := records[i].device.token;
      if token.Some? {
        if token.value !in unique {
          order := order + [token.value];
        }
        unique := unique[token.value := records[i]];
      }
    }
    assert records[..|records|] == records;
    assert forall j :: 0 <= j < |order| ==> order[j] in order;
    result := seq(|order|, j requires 0 <= j < |order| => unique[order[j]]);
  }

  // ---------------------------------------------------------------- the handlers

  /** The handlers over the stored documents; each does to the database what `Handle` says. */
  class RelayDatabase {
    const hash: Hash
    const max: nat
    var devices: map<Path, Device>
    var pointers: map<string, Path>

    constructor (hash: Hash, max: nat)
      ensures View() == Db(map[], map[]) && this.hash == hash && this.max == max
    {
      this.hash, this.max := hash, max;
      devices, pointers := map[], map[];
    }

    ghost function View(): Db
      reads this
    {
      Db(devices, pointers)
    }

    method DeviceCount(agent: string) returns (count: nat)
      ensures count == |DeviceIds(View(), agent)|
    {
      var ids := set p | p in devices && p.agent == agent :: p.id;
      assert ids == DeviceIds(View(), agent);
      count := |ids|;
    }

    method MovePointer(path: Path, token: string)
      modifies this
      ensures var previous := Get(old(pointers), hash(token));
              devices == if previous.Some? && previous.value != path then old(devices) - {previous.value}
                         else old(devices)
      ensures pointers == old(pointers)[hash(token) := path]
    {
      if hash(token) in pointers && pointers[hash(token)] != path {
        devices := devices - {pointers[hash(token)]};
      }
      pointers := pointers[hash(token) := path];
    }

    method RegisterDevice(agent: string, requested: Option<string>, token: string, prefs: Prefs)
      returns (outcome: Outcome)
      modifies this
      ensures var op := RegisterByAgent(agent, requested, token, prefs);
              outcome == Verdict(old(View()), hash, max, op) && View() == Handle(old(View()), hash, max, op)
    {
      if token == "" || |token| > 4096 {
        return Refused(400);
      }
      var path := Path(agent, if requested.Some? then requested.value else hash(token));
      if path !in devices {
        var count := DeviceCount(agent);
        if count >= max {
          return Refused(409);
        }
      }
      var credential := if path in devices then devices[path].credential else None;
      devices := devices[path := Device(Some(token), prefs, credential)];
      MovePointer(path, token);
      outcome := Done;
    }

    method RegisterOwnDevice(path: Path, token: string, prefs: Prefs) returns (outcome: Outcome)
      modifies this
      ensures var op := RegisterByApp(path, token, prefs);
              outcome == Verdict(old(View()), hash, max, op) && View() == Handle(old(View()), hash, max, op)
    {
      if path !in devices {
        return Refused(401);
      }
      if token == "" || |token| > 4096 {
        return Refused(400);
      }
      var previous := devices[path].token;
      if previous.Some? && previous.value != token {
        if hash(previous.value) in pointers && pointers[hash(previous.value)] == path {
          pointers := pointers - {hash(previous.value)};
        }
      }
      devices := devices[path := devices[path].(token := Some(token), prefs := prefs)];
      MovePointer(path, token);
      outcome := Done;
    }

    method CreateRelayDevice(path: Path, credential: string, prefs: Prefs) returns (outcome: Outcome)
      modifies this
      ensures var op := CreateByClaim(path, credential, prefs);
              outcome == Verdict(old(View()), hash, max, op) && View() == Handle(old(View()), hash, max, op)
    {
      var count := DeviceCount(path.agent);
      if count >= max {
        return Refused(409);
      }
      if path in devices {
        return Refused(500);
      }
      devices := devices[path := Device(None, prefs, Some(credential))];
      outcome := Done;
    }

    method DeleteDeviceRegistration(path: Path, known: Option<Device>)
      modifies this
      ensures View() == Delete(old(View()), hash, path, known)
    {
      var token := None;
      if known.Some? {
        token := known.value.token;
      } else if path in devices {
        token := devices[path].token;
      }
      devices := devices - {path};
      if token.Some? && hash(token.value) in pointers && pointers[hash(token.value)] == path {
        pointers := pointers - {hash(token.value)};
      }
    }

    /** Delete the devices whose registrations FCM reported as gone, one after the other. */
    method RemoveInvalidTokens(agent: string, records: seq<Record>, unregistered: seq<bool>) returns (removed: nat)
      requires |records| == |unregistered|
      modifies this
      ensures View() == HandleAll(old(View()), hash, max, Removals(agent, records, unregistered))
      ensures removed == |Removals(agent, records, unregistered)|
    {
      hide HandleAll, Removals;
      removed := 0;
      ghost var before := View();
      NothingRemoved(before, hash, max, agent, records, unregistered);
      for i := 0 to |records|
        invariant View() == HandleAll(before, hash, max, Removals(agent, records[..i], unregistered[..i]))
        invariant removed == |Removals(agent, records[..i], unregistered[..i])|
      {
        OneMoreRemoval(before, hash, max, agent, records, unregistered, i);
        if unregistered[i] && records[i].id != "" {
          DeleteDeviceRegistration(Path(agent, records[i].id), Some(records[i].device));
          removed := removed + 1;
        }
      }
    }
  }

  lemma NothingRemoved(db: Db, hash: Hash, max: nat, agent: string, records: seq<Record>, unregistered: seq<bool>)
    requires |records| == |unregistered|
    ensures records[..|records|] == records && unregistered[..|records|] == unregistered
    ensures Removals(agent, records[..0], unregistered[..0]) == [] && HandleAll(db, hash, max, []) == db
  {
  }

  /** One more response of a multicast. */
  lemma OneMoreRemoval(db: Db, hash: Hash, max: nat, agent: string, records: seq<Record>, unregistered: seq<bool>,
                       i: nat)
    requires i < |records| == |unregistered|
    ensures var ops := Removals(agent, records[..i], unregistered[..i]);
            var ops' := Removals(agent, records[..i + 1], unregistered[..i + 1]);
            var path := Path(agent, records[i].id);
            if unregistered[i] && records[i].id != ""
            then && |ops'| == |ops| + 1
                 && HandleAll(db, hash, max, ops')
                    == Delete(HandleAll(db, hash, max, ops), hash, path, Some(records[i].device))
            else ops' == ops
  {
    var ops := Removals(agent, records[..i], unregistered[..i]);
    assert records[..i + 1][..i] == records[..i] && unregistered[..i + 1][..i] == unregistered[..i];
    HandleOneMore(db, hash, max, ops, RemoveKnown(Path(agent, records[i].id), Some(records[i].device)));
    hide HandleAll, Delete;
  }

  lemma HandleOneMore(db: Db, hash: Hash, max: nat, ops: seq<Op>, op: Op)
    ensures HandleAll(db, hash, max, ops + [op]) == Handle(HandleAll(db, hash, max, ops), hash, max, op)
  {
  }

  function Removals(agent: string, records: seq<Record>, unregistered: seq<bool>): seq<Op>
    requires |records| == |unregistered|
  {
    if records == [] then []
    else
      var n := |records| - 1;
      Removals(agent, records[..n], unregistered[..n])
      + (if unregistered[n] && records[n].id != ""
         then [RemoveKnown(Path(agent, records[n].id), Some(records[n].device))] else [])
  }
}
