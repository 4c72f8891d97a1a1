/**
 Runs of the table operations, by any number of server nodes.

 A call that reads before its transaction is only its transaction here: what it read is the
 step's argument, constrained by nothing but what every read of that column returns for ever
 (a device's host never changes). So other nodes' steps may come between the two.
 */
module AccessRuns {
  import opened Prelude
  import opened AccessTables

  /** Who paid for an enrollment: the batch and the place in it, the one-use token. */
  datatype Payment = Payment(host: Id, batch: Option<Id>, place: int, token: Option<Id>)

  datatype Publication = Publication(digest: string, grants: seq<Id>)

  /** Identifiers ever minted, enrollments ever made, and the publications of each login since its host was made. */
  datatype History = History(minted: set<Id>, paid: map<Id, Payment>, published: map<Login, seq<Publication>>)

  datatype State = State(t: Tables, h: History)

  datatype Op =
    | CreateHost(id: Id, row: Host)
    | UpdateHost(id: Id, row: Host)
    | DeleteHost(id: Id)
    | CreateGrant(id: Id, grant: Grant)
    | IssueAccess(requestId: Id, id: Id, user: string, host: Id, account: string, expires: int)
    | CreateRelay(id: Id, host: Id, client: string, expires: int)
    | RenewRelay(id: Id, host: Id, client: string, expires: int)
    | AddKey(id: Id, key: Key)
    | RemoveKey(id: Id)
    | Discover(host: Id, discovery: Discovery)
    | CreateToken(id: Id, hash: string, batch: Option<Id>, deadline: Option<int>, now: int)
    | CreateBatch(id: Id, name: string, prefix: string, hash: string, expires: int, max: int, now: int)
    | CloseBatch(id: Id)
    | Enroll(id: Id, host: Id, plan: Plan, who: Identity, now: int)
    | Touch(id: Id, host: Id, endpoint: string, fingerprint: string, status: Status, discovery: Discovery, now: int)
    | DeleteDevice(id: Id, host: Id, now: int)
    | Publish(k: Login, digest: string, grants: seq<Id>)
    | Acknowledge(k: Login, generation: int, digest: string, now: int)

  /** The identifiers an operation mints. */
  function Mints(op: Op): set<Id> {
    match op
    case CreateHost(id, _) => {id}
    case CreateGrant(id, _) => {id}
    case IssueAccess(requestId, id, _, _, _, _) => {requestId, id}
    case CreateRelay(id, _, _, _) => {id}
    case RenewRelay(id, _, _, _) => {id}
    case AddKey(id, _) => {id}
    case CreateToken(id, _, _, _, _) => {id}
    case CreateBatch(id, _, _, _, _, _, _) => {id}
    case Enroll(id, host, _, _, _) => {id, host}
    case _ => {}
  }

  /** A grant's text in the joined list: not empty, on one line. */
  predicate OneLine(g: Id) {
    g != "" && '\n' !in g
  }

  /** What a caller's earlier reads guarantee about its arguments. */
  predicate Allowed(s: State, op: Op) {
    && Mints(op) !! s.h.minted
    && (op.Enroll? ==> op.id != op.host && (op.plan.token.Some? || op.plan.batch.Some?)
                       && (op.plan.batch.Some? && op.plan.batch.value in s.t.batches ==>
                             op.plan.serial == Numbered(s.t.batches[op.plan.batch.value].prefix, op.plan.used + 1)))
    && (op.DeleteDevice? ==> op.id in s.h.paid && s.h.paid[op.id].host == op.host)
    && (op.Publish? ==> forall g :: g in op.grants ==> OneLine(g))
  }

  /** The transaction an operation sends, if the database accepts it. */
  function Transact(t: Tables, op: Op): Option<Tables> {
    match op
    case CreateHost(id, row) => AccessTables.CreateHost(t, id, row)
    case UpdateHost(id, row) => AccessTables.UpdateHost(t, id, row)
    case DeleteHost(id) => Some(AccessTables.DeleteHost(t, id))
    case CreateGrant(id, g) => Some(AccessTables.CreateGrant(t, id, g))
    case IssueAccess(requestId, id, user, host, account, expires) =>
      Some(AccessTables.IssueAccess(t, requestId, id, user, host, account, expires))
    case CreateRelay(id, host, client, expires) => Some(AccessTables.CreateRelay(t, id, host, client, expires))
    case RenewRelay(id, host, client, expires) => Some(AccessTables.RenewRelay(t, id, host, client, expires))
    case AddKey(id, key) => Some(AccessTables.AddKey(t, id, key))
    case RemoveKey(id) => Some(AccessTables.RemoveKey(t, id))
    case Discover(host, d) => Some(AccessTables.Discover(t, host, d))
    case CreateToken(id, hash, batch, expires, now) => AccessTables.CreateToken(t, id, hash, batch, expires, now)
    case CreateBatch(id, name, prefix, hash, expires, max, now) =>
      AccessTables.CreateBatch(t, id, name, prefix, hash, expires, max, now)
    case CloseBatch(id) => Some(AccessTables.CloseBatch(t, id))
    case Enroll(id, host, plan, who, now) => AccessTables.Enroll(t, plan, id, host, who, now)
    case Touch(id, host, endpoint, fingerprint, status, d, now) =>
      Some(AccessTables.Touch(t, id, host, endpoint, fingerprint, status, d, now))
    case DeleteDevice(id, host, now) => Some(AccessTables.DeleteDevice(t, id, host, now))
    case Publish(k, digest, grants) => AccessTables.Publish(t, k, digest, grants)
    case Acknowledge(k, generation, digest, now) => Some(AccessTables.Acknowledge(t, k, generation, digest, now).0)
  }

  function Past(h: History, k: Login): seq<Publication> {
    if k in h.published then h.published[k] else []
  }

  function Paid(h: History, op: Op): map<Id, Payment>
    requires op.Enroll?
  {
    h.paid[op.id := Payment(op.host, op.plan.batch, op.plan.used + 1, op.plan.token)]
  }

  function Published(t: Tables, h: History, op: Op): map<Login, seq<Publication>>
    requires op.Publish?
  {
    if Renewed(t, op.k, op.digest, op.grants)
    then h.published[op.k := Past(h, op.k) + [Publication(op.digest, op.grants)]]
    else h.published
  }

  function Forgotten(h: History, host: Id): map<Login, seq<Publication>> {
    map k | k in h.published && k.host != host :: h.published[k]
  }

  function Remember(t: Tables, h: History, op: Op): History {
    var minted := h.minted + Mints(op);
    match op
    case Enroll(_, _, _, _, _) => History(minted, Paid(h, op), h.published)
    case DeleteHost(id) => History(minted, h.paid, Forgotten(h, id))
    case Publish(_, _, _) => History(minted, h.paid, Published(t, h, op))
    case _ => History(minted, h.paid, h.published)
  }

  /** A refused transaction leaves everything as it was. */
  function Do(s: State, op: Op): State {
    var after := Transact(s.t, op);
    if after.None? then s else State(after.value, Remember(s.t, s.h, op))
  }

  const INITIAL := State(EMPTY, History({}, map[], map[]))

  ghost predicate Run(trace: seq<State>, ops: seq<Op>) {
    && |trace| == |ops| + 1
    && trace[0] == INITIAL
    && forall i :: 0 <= i < |ops| ==> Allowed(trace[i], ops[i]) && trace[i + 1] == Do(trace[i], ops[i])
  }

  // ---------- what every state keeps ----------

  function PaidBy(paid: map<Id, Payment>, batch: Id): set<Id> {
    set d | d in paid && paid[d].batch == Some(batch)
  }

  predicate BatchOk(b: Batch, count: int) {
    && b.used == count
    && 0 <= b.used <= b.max
    && (b.open ==> b.used < b.max)
  }

  /** Every place of a batch is paid for once. */
  ghost predicate BatchesOk(batches: map<Id, Batch>, paid: map<Id, Payment>) {
    && (forall b :: b in batches ==> BatchOk(batches[b], |PaidBy(paid, b)|))
    && (forall d :: d in paid && paid[d].batch.Some? ==>
          paid[d].batch.value in batches && 1 <= paid[d].place <= batches[paid[d].batch.value].used)
    && (forall d, e :: d in paid && e in paid && d != e && paid[d].batch.Some? && paid[d].batch == paid[e].batch ==>
          paid[d].place != paid[e].place)
  }

  /** A token that paid is gone, and paid once. */
  ghost predicate TokensOk(tokens: map<Id, Token>, paid: map<Id, Payment>, minted: set<Id>) {
    && (forall k :: k in tokens ==> k in minted)
    && (forall d :: d in paid && paid[d].token.Some? ==>
       paid[d].token.value !in tokens && paid[d].token.value in minted)
    && (forall d, e :: d in paid && e in paid && d != e && paid[d].token.Some? ==> paid[d].token != paid[e].token)
    && (forall d :: d in paid ==> paid[d].token.Some? || paid[d].batch.Some?)
  }

  ghost predicate TokenHashesOk(tokens: map<Id, Token>, batches: map<Id, Batch>) {
    && (forall k, l :: k in tokens && l in tokens && tokens[k].hash == tokens[l].hash ==> k == l)
    && (forall k :: k in tokens && tokens[k].batch.Some? ==> tokens[k].batch.value in batches)
  }

  ghost predicate BatchHashesOk(batches: map<Id, Batch>) {
    forall b, c ::
      b in batches && c in batches && (batches[b].hash == batches[c].hash || batches[b].name == batches[c].name) ==>
        b == c
  }

  ghost predicate NamesOk(hosts: map<Id, Host>) {
    forall g, h :: g in hosts && h in hosts && hosts[g].name == hosts[h].name ==> g == h
  }

  /** Columns declared UNIQUE; a token's batch exists. */
  ghost predicate HashesOk(t: Tables) {
    TokenHashesOk(t.tokens, t.batches) && BatchHashesOk(t.batches) && NamesOk(t.hosts)
  }

  /** Every device has its own host, key and serial, and was paid for. */
  ghost predicate DevicesOk(devices: map<Id, Device>, hosts: map<Id, Host>, paid: map<Id, Payment>) {
    && (forall d :: d in devices ==> d in paid && devices[d].host == paid[d].host && devices[d].host in hosts)
    && (forall d, e ::
          && d in devices && e in devices
          && (devices[d].key == devices[e].key || devices[d].serial == devices[e].serial) ==>
            d == e)
    && (forall d, e :: d in paid && e in paid && paid[d].host == paid[e].host ==> d == e)
  }

  /** A device enrolled from a batch carries the serial of the place it took. */
  ghost predicate SerialsOk(devices: map<Id, Device>, batches: map<Id, Batch>, paid: map<Id, Payment>) {
    forall d :: d in devices && d in paid && paid[d].batch.Some? && paid[d].batch.value in batches ==>
      devices[d].serial == Numbered(batches[paid[d].batch.value].prefix, paid[d].place)
  }

  /** Identifiers in use were minted. */
  ghost predicate MintedOk(t: Tables, h: History) {
    && (forall x :: x in t.hosts || x in t.batches || x in t.grants || x in h.paid ==> x in h.minted)
    && (forall d :: d in h.paid ==> h.paid[d].host in h.minted)
  }

  /** A relay grant needs a device that is not revoked. */
  ghost predicate RelaysOk(t: Tables) {
    forall r :: r in t.relays ==> HasDevice(t.devices, t.relays[r].host)
  }

  /** A snapshot is the last publication, its generation their number. */
  ghost predicate SnapshotOk(t: Tables, h: History, k: Login) {
    if k in t.snapshots then
      && k in h.published
      && h.published[k] != []
      && t.snapshots[k] == Snapshot(|h.published[k]|, Last(h.published[k]).digest)
      && k in t.rows && t.rows[k] == RowsOf(Last(h.published[k]).grants)
      && (forall g :: g in Last(h.published[k]).grants ==> OneLine(g))
    else
      k !in h.published && k !in t.rows
  }

  function Last(p: seq<Publication>): Publication
    requires p != []
  {
    p[|p| - 1]
  }

  ghost predicate SnapshotsOk(t: Tables, h: History) {
    forall k :: SnapshotOk(t, h, k)
  }

  ghost predicate Inv(s: State) {
    && BatchesOk(s.t.batches, s.h.paid)
    && TokensOk(s.t.tokens, s.h.paid, s.h.minted)
    && HashesOk(s.t)
    && DevicesOk(s.t.devices, s.t.hosts, s.h.paid)
    && SerialsOk(s.t.devices, s.t.batches, s.h.paid)
    && MintedOk(s.t, s.h)
    && RelaysOk(s.t)
    && SnapshotsOk(s.t, s.h)
  }
}
