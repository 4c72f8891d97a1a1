/**
 The control plane's tables (internal/store/store.go) and the transactions on them.

 A table is a map from its primary key. A transaction is a function from the tables to the
 tables it leaves, or none when the database refuses it: a UNIQUE column would hold a value
 twice, or a statement touched another number of rows than it demanded. Every identifier a
 transaction inserts is minted by the caller.
 */
module AccessTables {
  import opened Prelude
  import opened Names
  import Decimal

  type Id = string

  /** `hosts.status`: the one value the code compares with, or any other text. */
  datatype Status = Revoked | Named(text: string)

  datatype Host = Host(name: string, endpoint: string, account: string, tags: string, port: int, status: Status,
    owner: string, lastSeen: Option<int>)

  datatype Device = Device(
    host: Id,
    endpoint: string,
    fingerprint: string,
    key: string,
    revoked: bool,
    serial: string,
    model: string,
    lastSeen: Option<int>)

  datatype Request = Request(user: string, host: Id, account: string, approved: bool)

  datatype Grant = Grant(request: Id, user: string, host: Id, account: string, expires: int, installed: bool)

  datatype Relay = Relay(host: Id, client: string, expires: int)

  datatype Key = Key(user: string, text: string)

  datatype Discovery = Discovery(direct: seq<string>, relays: seq<string>, updated: int)

  datatype Token = Token(hash: string, batch: Option<Id>, expires: Option<int>)

  datatype Batch = Batch(name: string, prefix: string, hash: string, open: bool, expires: int, max: int, used: int)

  /** A snapshot belongs to one login account of one host. */
  datatype Login = Login(host: Id, account: string)

  datatype Snapshot = Snapshot(generation: int, digest: string)

  /** A row of `authorized_keys_snapshot_grants`: the marker, a collision-free hash of the joined list, or a grant. */
  datatype Row = Marker(joined: string) | Granted(id: Id)

  datatype Tables = Tables(
    hosts: map<Id, Host>,
    devices: map<Id, Device>,
    requests: map<Id, Request>,
    grants: map<Id, Grant>,
    relays: map<Id, Relay>,
    keys: map<Id, Key>,
    discovery: map<Id, Discovery>,
    tokens: map<Id, Token>,
    batches: map<Id, Batch>,
    snapshots: map<Login, Snapshot>,
    rows: map<Login, set<Row>>)

  const EMPTY := Tables(map[], map[], map[], map[], map[], map[], map[], map[], map[], map[], map[])

  // ---------- hosts ----------

  predicate NameTaken(hosts: map<Id, Host>, name: string, except: Option<Id>) {
    exists h :: h in hosts && hosts[h].name == name && except != Some(h)
  }

  function WithDefaults(h: Host): Host {
    h.(account := if h.account == "" then "root" else h.account,
       port := if h.port == 0 then 22 else h.port,
       status := if h.status == Named("") then Named("unknown") else h.status)
  }

  function CreateHost(t: Tables, id: Id, h: Host): (r: Option<Tables>)
    ensures r.Some? ==> r.value == t.(hosts := r.value.hosts)
  {
    var row := WithDefaults(h);
    if !ValidHostName(row.name) || !ValidSSHUser(row.account) || NameTaken(t.hosts, row.name, None) then None
    else Some(t.(hosts := t.hosts[id := row]))
  }

  function UpdateHost(t: Tables, id: Id, h: Host): (r: Option<Tables>)
    ensures r.Some? ==> r.value == t.(hosts := r.value.hosts)
  {
    if !ValidHostName(h.name) || !ValidSSHUser(h.account) then None
    else if id !in t.hosts then Some(t)
    else if NameTaken(t.hosts, h.name, Some(id)) then None
    else Some(t.(hosts := t.hosts[id := h]))
  }

  /** The whole binding goes with the host; the requests stay. */
  function DeleteHost(t: Tables, id: Id): (r: Tables)
    ensures r == t.(rows := r.rows, snapshots := r.snapshots, grants := r.grants, relays := r.relays,
        discovery := r.discovery, devices := r.devices, hosts := r.hosts)
  {
    t.(rows := map k | k in t.rows && k.host != id :: t.rows[k],
       snapshots := map k | k in t.snapshots && k.host != id :: t.snapshots[k],
       grants := map g | g in t.grants && t.grants[g].host != id :: t.grants[g],
       relays := WithoutHost(t.relays, id),
       discovery := t.discovery - {id},
       devices := map d | d in t.devices && t.devices[d].host != id :: t.devices[d],
       hosts := t.hosts - {id})
  }

  // ---------- access ----------

  /** Some device of the host is not revoked. */
  predicate HasDevice(devices: map<Id, Device>, host: Id) {
    exists d :: d in devices && devices[d].host == host && !devices[d].revoked
  }

  /** The join every access statement makes before it inserts. */
  predicate Available(t: Tables, host: Id) {
    host in t.hosts && t.hosts[host].status != Revoked && HasDevice(t.devices, host)
  }

  function CreateGrant(t: Tables, id: Id, g: Grant): (r: Tables)
    ensures r == t.(grants := r.grants)
  {
    if Available(t, g.host) then t.(grants := t.grants[id := g.(installed := false)]) else t
  }

  function IssueAccess(t: Tables, requestId: Id, id: Id, user: string, host: Id, account: string,
      expires: int): (r: Tables)
    ensures r == t.(requests := r.requests, grants := r.grants)
  {
    if Available(t, host) then
      t.(requests := t.requests[requestId := Request(user, host, account, true)],
         grants := t.grants[id := Grant(requestId, user, host, account, expires, false)])
    else t
  }

  function CreateRelay(t: Tables, id: Id, host: Id, client: string, expires: int): (r: Tables)
    ensures r == t.(relays := r.relays)
  {
    if Available(t, host) then t.(relays := t.relays[id := Relay(host, client, expires)]) else t
  }

  function WithoutClient(relays: map<Id, Relay>, host: Id, client: string): map<Id, Relay> {
    map r | r in relays && !(relays[r].host == host && relays[r].client == client) :: relays[r]
  }

  function RenewRelay(t: Tables, id: Id, host: Id, client: string, expires: int): (r: Tables)
    ensures r == t.(relays := r.relays)
  {
    if Available(t, host) then
      t.(relays := WithoutClient(t.relays, host, client)[id := Relay(host, client, expires)])
    else t
  }

  function AddKey(t: Tables, id: Id, key: Key): (r: Tables)
    ensures r == t.(keys := r.keys)
  {
    t.(keys := t.keys[id := key])
  }

  function RemoveKey(t: Tables, id: Id): (r: Tables)
    ensures r == t.(keys := r.keys)
  {
    t.(keys := t.keys - {id})
  }

  function Discover(t: Tables, host: Id, d: Discovery): (r: Tables)
    ensures r == t.(discovery := r.discovery)
  {
    t.(discovery := t.discovery[host := d])
  }

  // ---------- enrollment ----------

  predicate TokenHashTaken(tokens: map<Id, Token>, hash: string) {
    exists k :: k in tokens && tokens[k].hash == hash
  }

  predicate Open(b: Batch, now: int) {
    b.open && b.expires > now && b.used < b.max
  }

  function CreateToken(t: Tables, id: Id, hash: string, batch: Option<Id>, expires: Option<int>,
      now: int): (r: Option<Tables>)
    ensures r.Some? ==> r.value == t.(tokens := r.value.tokens)
  {
    if expires.Some? && expires.value <= now then None
    else if batch.Some? && !(batch.value in t.batches && Open(t.batches[batch.value], now)) then None
    else if TokenHashTaken(t.tokens, hash) then None
    else Some(t.(tokens := t.tokens[id := Token(hash, batch, expires)]))
  }

  predicate BatchTaken(batches: map<Id, Batch>, name: string, hash: string) {
    exists b :: b in batches && (batches[b].name == name || batches[b].hash == hash)
  }

  function CreateBatch(t: Tables, id: Id, name: string, prefix: string, hash: string, expires: int, max: int,
      now: int): (r: Option<Tables>)
    ensures r.Some? ==> r.value == t.(batches := r.value.batches)
  {
    if name == "" || prefix == "" || expires <= now || max < 1 || max > 10000 then None
    else if !ValidHostName(prefix + "-000001") || BatchTaken(t.batches, name, hash) then None
    else Some(t.(batches := t.batches[id := Batch(name, prefix, hash, true, expires, max, 0)]))
  }

  function CloseBatch(t: Tables, id: Id): (r: Tables)
    ensures r == t.(batches := r.batches)
  {
    if id in t.batches && t.batches[id].open then t.(batches := t.batches[id := t.batches[id].(open := false)]) else t
  }

  function Padded(s: string, width: nat): string {
    if |s| < width then seq(width - |s|, i => '0') + s else s
  }

  /** `%06d`. */
  function SixDigits(n: int): string {
    if n < 0 then "-" + Padded(Decimal.FormatNat(-n), 5) else Padded(Decimal.FormatNat(n), 6)
  }

  function Numbered(prefix: string, n: int): string {
    prefix + "-" + SixDigits(n)
  }

  /** What the reads of `EnrollDevice` decided to consume: a one-use token, a place in a batch, or both. */
  datatype Plan = Plan(token: Option<Id>, hash: string, batch: Option<Id>, used: int, serial: string)

  /** What the device says about itself. */
  datatype Identity = Identity(endpoint: string, fingerprint: string, key: string, account: string, port: int,
    tags: string, model: string)

  function TakePlace(b: Batch): Batch {
    b.(used := b.used + 1, open := b.open && b.used + 1 < b.max)
  }

  predicate PlaceReady(batches: map<Id, Batch>, plan: Plan, now: int) {
    plan.batch.None? ||
      (&& plan.batch.value in batches
       && Open(batches[plan.batch.value], now)
       && batches[plan.batch.value].used == plan.used)
  }

  predicate Unexpired(k: Token, now: int) {
    k.expires.None? || k.expires.value > now
  }

  predicate TokenReady(tokens: map<Id, Token>, plan: Plan, now: int) {
    plan.token.None? ||
      (&& plan.token.value in tokens
       && tokens[plan.token.value].hash == plan.hash
       && Unexpired(tokens[plan.token.value], now))
  }

  predicate IdentityTaken(devices: map<Id, Device>, key: string, serial: string) {
    exists d :: d in devices && (devices[d].key == key || devices[d].serial == serial)
  }

  function NewHost(who: Identity, serial: string): Host {
    Host(serial, who.endpoint, if who.account == "" then "root" else who.account, who.tags,
         if who.port == 0 then 22 else who.port, Named("manufactured"), "manufacturing", None)
  }

  function NewDevice(who: Identity, serial: string, host: Id): Device {
    Device(host, who.endpoint, who.fingerprint, who.key, false, serial, who.model, None)
  }

  function SpendPlace(batches: map<Id, Batch>, plan: Plan): map<Id, Batch> {
    if plan.batch.Some? && plan.batch.value in batches
    then batches[plan.batch.value := TakePlace(batches[plan.batch.value])]
    else batches
  }

  function SpendToken(tokens: map<Id, Token>, plan: Plan): map<Id, Token> {
    if plan.token.Some? then tokens - {plan.token.value} else tokens
  }

  /** The enrolling transaction: consume, then insert the host and its device; all of it or nothing. */
  function Enroll(t: Tables, plan: Plan, id: Id, host: Id, who: Identity, now: int): (r: Option<Tables>)
    ensures r.Some? ==>
              r.value == t.(batches := r.value.batches, tokens := r.value.tokens,
                            hosts := r.value.hosts, devices := r.value.devices)
  {
    if !PlaceReady(t.batches, plan, now) || !TokenReady(t.tokens, plan, now) then None
    else if NameTaken(t.hosts, plan.serial, None) || IdentityTaken(t.devices, who.key, plan.serial) then None
    else
      Some(t.(batches := SpendPlace(t.batches, plan),
              tokens := SpendToken(t.tokens, plan),
              hosts := t.hosts[host := NewHost(who, plan.serial)],
              devices := t.devices[id := NewDevice(who, plan.serial, host)]))
  }

  // ---------- devices ----------

  predicate OwnLiveDevice(t: Tables, id: Id, host: Id) {
    id in t.devices && t.devices[id].host == host && !t.devices[id].revoked
  }

  predicate SameIdentity(t: Tables, id: Id, endpoint: string, fingerprint: string) {
    id in t.devices && t.devices[id].endpoint == endpoint && t.devices[id].fingerprint == fingerprint
  }

  /** The heartbeat: the device row needs the right identity, the host row and the discovery row do not. */
  function Touch(t: Tables, id: Id, host: Id, endpoint: string, fingerprint: string, status: Status, d: Discovery,
      now: int): (r: Tables)
    ensures r == t.(devices := r.devices, hosts := r.hosts, discovery := r.discovery)
  {
    if !OwnLiveDevice(t, id, host) then t
    else
      t.(devices := if SameIdentity(t, id, endpoint, fingerprint)
                    then t.devices[id := t.devices[id].(lastSeen := Some(now))]
                    else t.devices,
         hosts := if host in t.hosts
                  then t.hosts[host := t.hosts[host].(status := status, lastSeen := Some(now))]
                  else t.hosts,
         discovery := t.discovery[host := d])
  }

  function Expired(g: Grant, host: Id, now: int): Grant {
    if g.host == host && g.expires > now then g.(expires := now) else g
  }

  function ExpiredAt(grants: map<Id, Grant>, host: Id, now: int): map<Id, Grant> {
    map g | g in grants :: Expired(grants[g], host, now)
  }

  function WithoutHost(relays: map<Id, Relay>, host: Id): map<Id, Relay> {
    map r | r in relays && relays[r].host != host :: relays[r]
  }

  function RevokedRow(devices: map<Id, Device>, id: Id, now: int): map<Id, Device> {
    if id in devices && !devices[id].revoked
    then devices[id := devices[id].(revoked := true, lastSeen := Some(now))]
    else devices
  }

  function RevokedStatus(hosts: map<Id, Host>, host: Id, now: int): map<Id, Host> {
    if host in hosts then hosts[host := hosts[host].(status := Revoked, lastSeen := Some(now))] else hosts
  }

  /** The revoking transaction, for the host that was read with the device. */
  function DeleteDevice(t: Tables, id: Id, host: Id, now: int): (r: Tables)
    ensures r == t.(devices := r.devices, hosts := r.hosts, grants := r.grants, relays := r.relays)
  {
    t.(devices := RevokedRow(t.devices, id, now),
       hosts := RevokedStatus(t.hosts, host, now),
       grants := ExpiredAt(t.grants, host, now),
       relays := WithoutHost(t.relays, host))
  }

  // ---------- snapshots ----------

  /** A live grant of the login whose host is available. */
  predicate LiveGrant(t: Tables, k: Login, now: int, g: Id) {
    && g in t.grants
    && t.grants[g].host == k.host
    && t.grants[g].account == k.account
    && t.grants[g].expires > now
    && Available(t, k.host)
  }

  /** The grants a snapshot represents. */
  function LiveGrants(t: Tables, k: Login, now: int): set<Id> {
    set g | g in t.grants && LiveGrant(t, k, now, g)
  }

  /** The key lines of a snapshot, each with the deadline of one grant that covers it. */
  function KeyLines(t: Tables, k: Login, now: int): set<(string, int)> {
    set g, s | g in t.grants && s in t.keys && LiveGrant(t, k, now, g) && t.keys[s].user == t.grants[g].user
      :: (t.keys[s].text, t.grants[g].expires)
  }

  function Joined(grants: seq<Id>): string {
    if grants == [] then "" else if |grants| == 1 then grants[0] else grants[0] + "\n" + Joined(grants[1..])
  }

  predicate Distinct(grants: seq<Id>) {
    forall i, j :: 0 <= i < j < |grants| ==> grants[i] != grants[j]
  }

  function RowsOf(grants: seq<Id>): set<Row> {
    {Marker(Joined(grants))} + set g | g in grants :: Granted(g)
  }

  function RowsAt(t: Tables, k: Login): set<Row> {
    if k in t.rows then t.rows[k] else {}
  }

  /** Whether a publication opens a new generation. */
  predicate Renewed(t: Tables, k: Login, digest: string, grants: seq<Id>) {
    k !in t.snapshots || t.snapshots[k].digest != digest || Marker(Joined(grants)) !in RowsAt(t, k)
  }

  function NextGeneration(t: Tables, k: Login, digest: string, grants: seq<Id>): int {
    if k !in t.snapshots then 1
    else if Renewed(t, k, digest, grants) then t.snapshots[k].generation + 1
    else t.snapshots[k].generation
  }

  function Publish(t: Tables, k: Login, digest: string, grants: seq<Id>): (r: Option<Tables>)
    ensures r.Some? ==> r.value == t.(snapshots := r.value.snapshots, rows := r.value.rows)
  {
    if !Distinct(grants) then None
    else
      Some(t.(snapshots := t.snapshots[k := Snapshot(NextGeneration(t, k, digest, grants), digest)],
              rows := t.rows[k := RowsOf(grants)]))
  }

  /** The read that follows: the generation, if the digest is still the one just published. */
  function GenerationOf(t: Tables, k: Login, digest: string): Option<int> {
    if k in t.snapshots && t.snapshots[k].digest == digest then Some(t.snapshots[k].generation) else None
  }

  predicate Current(t: Tables, k: Login, generation: int, digest: string) {
    k in t.snapshots && t.snapshots[k] == Snapshot(generation, digest)
  }

  predicate HasMarker(rows: set<Row>) {
    exists r :: r in rows && r.Marker?
  }

  predicate HasKey(t: Tables, user: string) {
    exists s :: s in t.keys && t.keys[s].user == user
  }

  /** The rows the acknowledgement's second statement touches. */
  predicate Installs(t: Tables, k: Login, generation: int, digest: string, now: int, g: Id) {
    && g in t.grants
    && Granted(g) in RowsAt(t, k)
    && t.grants[g].host == k.host
    && t.grants[g].account == k.account
    && t.grants[g].expires > now
    && HasKey(t, t.grants[g].user)
    && Current(t, k, generation, digest)
  }

  function Installed(t: Tables, k: Login, generation: int, digest: string, now: int): set<Id> {
    set g | g in t.grants && Installs(t, k, generation, digest, now, g)
  }

  /** Both statements, and whether they touched a row. */
  function Acknowledge(t: Tables, k: Login, generation: int, digest: string, now: int): (r: (Tables, bool))
    ensures r.0 == t.(grants := r.0.grants)
  {
    if generation < 1 || |digest| != 64 then (t, false)
    else
      var touched := Current(t, k, generation, digest) && HasMarker(RowsAt(t, k));
      var hits := Installed(t, k, generation, digest, now);
      (t.(grants := map g | g in t.grants :: if g in hits then t.grants[g].(installed := true) else t.grants[g]),
       touched || hits != {})
  }
}
