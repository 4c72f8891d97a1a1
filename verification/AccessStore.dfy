/** The store's operations, statement by statement, against the tables' specification. */
module AccessStore {
  import opened Prelude
  import opened Names
  import opened AccessTables
  import opened AccessRuns
  import Theorems = AccessTheorems

  /**
   What `EnrollDevice`'s reads find payable: a one-use token, alone or with a place in its batch, or a batch's own
   token.
   */
  predicate Payable(t: Tables, hash: string, wanted: string, now: int, plan: Plan) {
    && plan.hash == hash
    && (if plan.token.Some? then
          && plan.token.value in t.tokens
          && t.tokens[plan.token.value].hash == hash
          && Unexpired(t.tokens[plan.token.value], now)
          && plan.batch == t.tokens[plan.token.value].batch
        else
          && !TokenHashTaken(t.tokens, hash)
          && plan.batch.Some?
          && plan.batch.value in t.batches
          && t.batches[plan.batch.value].hash == hash)
    && (if plan.batch.Some? then
          && PlaceReady(t.batches, plan, now)
          && plan.serial == Numbered(t.batches[plan.batch.value].prefix, plan.used + 1)
          && (wanted == "" || wanted == plan.serial)
        else
          wanted != "" && plan.serial == wanted && plan.used == 0)
    && ValidHostName(plan.serial)
  }

  predicate GoodAccount(account: string) {
    ValidSSHUser(if account == "" then "root" else account)
  }

  /** The outcome of a call that found no device with the key. */
  predicate Enrolls(t: Tables, hash: string, wanted: string, id: Id, host: Id, who: Identity, now: int, plan: Plan) {
    Payable(t, hash, wanted, now, plan) && GoodAccount(who.account)
      && AccessTables.Enroll(t, plan, id, host, who, now).Some?
  }

  predicate KeyKnown(t: Tables, key: string) {
    exists d :: d in t.devices && t.devices[d].key == key
  }

  /** The device row of a caller, and the host row that comes with it. */
  predicate IsDeviceOf(d: Device, who: Identity, serial: string, host: Id) {
    && d.endpoint == who.endpoint && d.fingerprint == who.fingerprint && d.key == who.key && d.model == who.model
    && d.serial == serial && d.host == host && !d.revoked && d.lastSeen == None
  }

  predicate IsHostOf(h: Host, who: Identity, serial: string) {
    && h.name == serial && h.endpoint == who.endpoint && h.tags == who.tags
    && h.account == (if who.account == "" then "root" else who.account)
    && h.port == (if who.port == 0 then 22 else who.port)
    && h.status == Named("manufactured") && h.owner == "manufacturing" && h.lastSeen == None
  }

  class Store {
    var db: Tables

    constructor ()
      ensures db == EMPTY
    {
      db := EMPTY;
    }

    method DeleteHost(id: Id)
      modifies this
      ensures db == AccessTables.DeleteHost(old(db), id)
    {
      db := db.(rows := map k | k in db.rows && k.host != id :: db.rows[k]);
      db := db.(snapshots := map k | k in db.snapshots && k.host != id :: db.snapshots[k]);
      db := db.(grants := map g | g in db.grants && db.grants[g].host != id :: db.grants[g]);
      db := db.(relays := WithoutHost(db.relays, id));
      db := db.(discovery := db.discovery - {id});
      db := db.(devices := map d | d in db.devices && db.devices[d].host != id :: db.devices[d]);
      db := db.(hosts := db.hosts - {id});
    }

    /** Request, then the grant if the request is there; success counts both rows. */
    method IssueSSHAccess(requestId: Id, id: Id, user: string, host: Id, account: string, expires: int)
        returns (ok: bool)
      requires requestId !in db.requests && id !in db.grants
      modifies this
      ensures db == AccessTables.IssueAccess(old(db), requestId, id, user, host, account, expires)
      ensures ok <==> Available(old(db), host)
      ensures ok <==> id in db.grants
      ensures ok ==> db.grants[id] == Grant(requestId, user, host, account, expires, false)
                     && db.requests[requestId] == Request(user, host, account, true)
    {
      var affected := 0;
      if Available(db, host) {
        db := db.(requests := db.requests[requestId := Request(user, host, account, true)]);
        affected := affected + 1;
      }
      if requestId in db.requests {
        db := db.(grants := db.grants[id := Grant(requestId, user, host, account, expires, false)]);
        affected := affected + 1;
      }
      ok := affected == 2;
    }

    method CreateRelayAccessGrant(id: Id, host: Id, client: string, ttl: int, now: int) returns (ok: bool)
      requires id !in db.relays
      modifies this
      ensures db == AccessTables.CreateRelay(old(db), id, host, client, now + ttl)
      ensures ok <==> Available(old(db), host)
    {
      ok := Available(db, host);
      if ok {
        db := db.(relays := db.relays[id := Relay(host, client, now + ttl)]);
      }
    }

    /** The old grants of the same client go only if the new one comes. */
    method RenewRelayAccessGrant(id: Id, host: Id, client: string, ttl: int, now: int) returns (ok: bool)
      requires id !in db.relays
      modifies this
      ensures db == AccessTables.RenewRelay(old(db), id, host, client, now + ttl)
      ensures ok <==> Available(old(db), host)
      ensures ok ==> forall r :: r in db.relays && db.relays[r].host == host && db.relays[r].client == client ==>
          r == id
    {
      if Available(db, host) {
        db := db.(relays := WithoutClient(db.relays, host, client));
      }
      ok := Available(db, host);
      if ok {
        db := db.(relays := db.relays[id := Relay(host, client, now + ttl)]);
      }
    }

    method TouchDevice(id: Id, host: Id, endpoint: string, fingerprint: string, status: Status, d: Discovery,
        now: int) returns (ok: bool)
      modifies this
      ensures db == AccessTables.Touch(old(db), id, host, endpoint, fingerprint, status, d, now)
      ensures ok <==> Theorems.TouchedRows(old(db), id, host, endpoint, fingerprint) == 3
    {
      var affected := 0;
      if OwnLiveDevice(db, id, host) && SameIdentity(db, id, endpoint, fingerprint) {
        db := db.(devices := db.devices[id := db.devices[id].(lastSeen := Some(now))]);
        affected := affected + 1;
      }
      if host in db.hosts && OwnLiveDevice(db, id, host) {
        db := db.(hosts := db.hosts[host := db.hosts[host].(status := status, lastSeen := Some(now))]);
        affected := affected + 1;
      }
      if OwnLiveDevice(db, id, host) {
        db := db.(discovery := db.discovery[host := d]);
        affected := affected + 1;
      }
      ok := affected == 3;
    }

    /** Refused without the row; a device already revoked needs nothing. */
    method DeleteDevice(id: Id, now: int) returns (r: Result<bool>)
      modifies this
      ensures r.Ok? <==> id in old(db).devices
      ensures id !in old(db).devices || old(db).devices[id].revoked ==> db == old(db)
      ensures id in old(db).devices && !old(db).devices[id].revoked ==>
                db == AccessTables.DeleteDevice(old(db), id, old(db).devices[id].host, now)
    {
      if id !in db.devices {
        return Err("no such device");
      }
      var host, state := db.devices[id].host, db.devices[id].revoked;
      if state {
        return Ok(false);
      }
      hide RevokedRow, RevokedStatus, ExpiredAt, WithoutHost;
      db := db.(devices := RevokedRow(db.devices, id, now));
      db := db.(hosts := RevokedStatus(db.hosts, host, now));
      db := db.(grants := ExpiredAt(db.grants, host, now));
      db := db.(relays := WithoutHost(db.relays, host));
      return Ok(true);
    }

    /** The statements in order on the transaction's own copy, which becomes the database only after the last. */
    method EnrollTransaction(plan: Plan, id: Id, host: Id, who: Identity, now: int) returns (ok: bool)
      requires id !in db.devices && host !in db.hosts
      modifies this
      ensures ok <==> AccessTables.Enroll(old(db), plan, id, host, who, now).Some?
      ensures db == if ok then AccessTables.Enroll(old(db), plan, id, host, who, now).value else old(db)
      ensures ok ==> id in db.devices && IsDeviceOf(db.devices[id], who, plan.serial, host)
      ensures ok ==> host in db.hosts && IsHostOf(db.hosts[host], who, plan.serial)
    {
      NewRows(who, plan.serial, host);
      hide PlaceReady, TokenReady, NameTaken, IdentityTaken, SpendPlace, SpendToken, NewHost, NewDevice;
      var t := db;
      if !PlaceReady(t.batches, plan, now) {
        return false;
      }
      t := t.(batches := SpendPlace(t.batches, plan));
      if !TokenReady(t.tokens, plan, now) {
        return false;
      }
      t := t.(tokens := SpendToken(t.tokens, plan));
      if NameTaken(t.hosts, plan.serial, None) {
        return false;
      }
      t := t.(hosts := t.hosts[host := NewHost(who, plan.serial)]);
      if IdentityTaken(t.devices, who.key, plan.serial) {
        return false;
      }
      t := t.(devices := t.devices[id := NewDevice(who, plan.serial, host)]);
      db := t;
      return true;
    }

    /** The one-use token or the batch a token's hash finds, as the reads before the transaction. */
    method FindPlan(hash: string, wanted: string, now: int) returns (r: Result<Plan>)
      requires HashesOk(db)
      ensures r.Ok? ==> Payable(db, hash, wanted, now, r.value)
      ensures r.Err? ==> forall plan :: !Payable(db, hash, wanted, now, plan)
    {
      hide Numbered, ValidHostName;
      var token: Option<Id>, batch: Option<Id> := None, None;
      if TokenHashTaken(db.tokens, hash) {
        var k :| k in db.tokens && db.tokens[k].hash == hash;
        token := Some(k);
        batch := db.tokens[k].batch;
        if !Unexpired(db.tokens[k], now) {
          return Err("manufacturing token expired");
        }
      } else if exists b :: b in db.batches && db.batches[b].hash == hash {
        var b :| b in db.batches && db.batches[b].hash == hash;
        batch := Some(b);
      } else {
        return Err("invalid manufacturing token");
      }
      var plan := Plan(token, hash, batch, 0, wanted);
      if batch.Some? {
        var row := db.batches[batch.value];
        if !Open(row, now) {
          return Err("manufacturing batch is closed");
        }
        plan := plan.(used := row.used, serial := Numbered(row.prefix, row.used + 1));
        if wanted != "" && wanted != plan.serial {
          return Err("serial does not match manufacturing batch");
        }
      } else if wanted == "" {
        return Err("serial number is required");
      }
      if !ValidHostName(plan.serial) {
        return Err("invalid serial number");
      }
      return Ok(plan);
    }

    /**
     Enrolls a device, or answers a retry with the row its key already has. Everything is
     refused without a change, and refused exactly when nothing payable enrolls it.
     */
    method EnrollDevice(hash: string, wanted: string, id: Id, host: Id, who: Identity, now: int)
        returns (r: Result<Device>)
      requires HashesOk(db)
      requires forall d, e :: d in db.devices && e in db.devices && db.devices[d].key == db.devices[e].key ==> d == e
      requires id !in db.devices && host !in db.hosts
      modifies this
      ensures r.Err? ==> db == old(db)
      ensures KeyKnown(old(db), who.key) ==> db == old(db)
      ensures KeyKnown(old(db), who.key) && r.Ok? ==>
          exists d :: d in db.devices && db.devices[d] == r.value && r.value.key == who.key
      ensures forall d :: d in old(db).devices && old(db).devices[d].key == who.key ==>
                (r.Ok? <==>
                   && who.key != ""
                   && old(db).devices[d].fingerprint == who.fingerprint
                   && (wanted == "" || wanted == old(db).devices[d].serial))
      ensures who.key == "" ==> r.Err?
      ensures !KeyKnown(old(db), who.key) && who.key != "" ==>
                (r.Ok? <==> exists plan :: Enrolls(old(db), hash, wanted, id, host, who, now, plan))
      ensures !KeyKnown(old(db), who.key) && r.Ok? ==>
                exists plan :: Enrolls(old(db), hash, wanted, id, host, who, now, plan)
                               && db == AccessTables.Enroll(old(db), plan, id, host, who, now).value
                                  && r.value == db.devices[id]
      ensures !KeyKnown(old(db), who.key) && r.Ok? ==>
                && (wanted == "" || wanted == r.value.serial)
                && IsDeviceOf(r.value, who, r.value.serial, host)
                && host in db.hosts && IsHostOf(db.hosts[host], who, r.value.serial)
    {
      if who.key == "" {
        return Err("device public key is required");
      }
      if KeyKnown(db, who.key) {
        var d :| d in db.devices && db.devices[d].key == who.key;
        var replay := db.devices[d];
        if who.fingerprint != replay.fingerprint || (wanted != "" && wanted != replay.serial) {
          return Err("device key already enrolled with a different identity");
        }
        return Ok(replay);
      }
      var planned := FindPlan(hash, wanted, now);
      if planned.Err? {
        return Err(planned.reason);
      }
      var plan := planned.value;
      if IdentityTaken(db.devices, who.key, plan.serial) {
        SamePlan(db, hash, wanted, now, plan);
        return Err("serial number already enrolled");
      }
      if !GoodAccount(who.account) {
        return Err("invalid ssh user");
      }
      SamePlan(db, hash, wanted, now, plan);
      hide Payable, GoodAccount, AccessTables.Enroll, IdentityTaken;
      var ok := EnrollTransaction(plan, id, host, who, now);
      if !ok {
        return Err("enroll device atomically");
      }
      assert Enrolls(old(db), hash, wanted, id, host, who, now, plan);
      return Ok(db.devices[id]);
    }

    /** The rows of the marker and the grants, unless a grant is listed twice. */
    method ListRows(listed: seq<Id>) returns (r: Option<set<Row>>)
      ensures r == if Distinct(listed) then Some(RowsOf(listed)) else None
    {
      var rows := {Marker(Joined(listed))};
      for i := 0 to |listed|
        invariant Distinct(listed[..i]) && rows == RowsUpTo(listed, i)
      {
        if Granted(listed[i]) in rows {
          DuplicateFound(listed, i);
          return None;
        }
        RowsUpToNext(listed, i);
        rows := rows + {Granted(listed[i])};
      }
      assert listed[..|listed|] == listed;
      return Some(rows);
    }

    method PublishTransaction(k: Login, digest: string, listed: seq<Id>) returns (ok: bool)
      modifies this
      ensures ok <==> AccessTables.Publish(old(db), k, digest, listed).Some?
      ensures db == if ok then AccessTables.Publish(old(db), k, digest, listed).value else old(db)
    {
      hide Joined, RowsOf, Distinct;
      var t := db;
      if k !in t.snapshots {
        t := t.(snapshots := t.snapshots[k := Snapshot(1, digest)]);
      } else {
        var row := t.snapshots[k];
        var changed := row.digest != digest || Marker(Joined(listed)) !in RowsAt(t, k);
        t := t.(snapshots :=
          t.snapshots[k := Snapshot(if changed then row.generation + 1 else row.generation, digest)]);
      }
      var inserted := ListRows(listed);
      if inserted.None? {
        return false;
      }
      t := t.(rows := t.rows[k := inserted.value]);
      db := t;
      return true;
    }

    /** The generation `PublishAuthorizedKeysSnapshot` answers, with nobody between its two statements. */
    method Publish(k: Login, digest: string, listed: seq<Id>) returns (generation: Option<int>)
      modifies this
      ensures generation.Some? <==> Distinct(listed)
      ensures generation.Some? ==>
          db == AccessTables.Publish(old(db), k, digest, listed).value && Current(db, k, generation.value, digest)
      ensures generation.None? ==> db == old(db)
    {
      hide Joined, RowsOf, Distinct;
      var ok := PublishTransaction(k, digest, listed);
      if !ok {
        return None;
      }
      return GenerationOf(db, k, digest);
    }

    method AcknowledgeAuthorizedKeys(k: Login, generation: int, digest: string, now: int) returns (ok: bool)
      modifies this
      ensures (db, ok) == AccessTables.Acknowledge(old(db), k, generation, digest, now)
      ensures db == old(db).(grants := db.grants) && db.grants.Keys == old(db).grants.Keys
      ensures forall g :: g in db.grants ==>
                db.grants[g] == old(db).grants[g].(
                  installed := || old(db).grants[g].installed
                               || (generation >= 1 && |digest| == 64
                                   && Installs(old(db), k, generation, digest, now, g)))
    {
      if generation < 1 || |digest| != 64 {
        return false;
      }
      var affected := 0;
      if Current(db, k, generation, digest) && HasMarker(RowsAt(db, k)) {
        affected := affected + 1;
      }
      var hits := Installed(db, k, generation, digest, now);
      affected := affected + |hits|;
      db := db.(grants := map g | g in db.grants ::
                  if g in hits then db.grants[g].(installed := true) else db.grants[g]);
      ok := affected >= 1;
    }
  }

  lemma NewRows(who: Identity, serial: string, host: Id)
    ensures IsDeviceOf(NewDevice(who, serial, host), who, serial, host) && IsHostOf(NewHost(who, serial), who, serial)
  {
  }

  /** The rows after the marker and the first grants are in. */
  function RowsUpTo(listed: seq<Id>, i: nat): set<Row>
    requires i <= |listed|
  {
    {Marker(Joined(listed))} + set g | g in listed[..i] :: Granted(g)
  }

  lemma RowsUpToNext(listed: seq<Id>, i: nat)
    requires i < |listed| && Distinct(listed[..i]) && Granted(listed[i]) !in RowsUpTo(listed, i)
    ensures RowsUpTo(listed, i + 1) == RowsUpTo(listed, i) + {Granted(listed[i])}
    ensures Distinct(listed[..i + 1])
  {
    assert listed[..i + 1] == listed[..i] + [listed[i]];
    assert listed[i] !in listed[..i];
  }

  lemma DuplicateFound(listed: seq<Id>, i: nat)
    requires i < |listed| && Granted(listed[i]) in RowsUpTo(listed, i)
    ensures !Distinct(listed)
  {
    var j :| 0 <= j < i && listed[..i][j] == listed[i];
    assert listed[j] == listed[i];
  }

  /** With unique hashes the reads find one plan at most. */
  lemma SamePlan(t: Tables, hash: string, wanted: string, now: int, plan: Plan)
    requires HashesOk(t) && Payable(t, hash, wanted, now, plan)
    ensures forall p :: Payable(t, hash, wanted, now, p) ==> p == plan
  {
    hide Numbered;
  }
}
