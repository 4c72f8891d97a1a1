/**
 What enrolling, beating, revoking and administering do to the rows, and what that means for the
 operations that come after (internal/store/store.go).
 */
module AccessRows {
  import opened Prelude
  import opened Names
  import Decimal
  import opened AccessTables
  import opened AccessRuns
  import opened AccessStore
  import opened AccessEffects
  import Theorems = AccessTheorems

  // ---------- enrollment ----------

  /** A batch with a place left that expects to hand out the place after `used`. */
  ghost predicate HasPlace(t: Tables, b: Id, used: int, now: int) {
    && b in t.batches && t.batches[b].open && now < t.batches[b].expires
    && t.batches[b].used == used && used < t.batches[b].max
  }

  ghost predicate HasToken(t: Tables, k: Id, hash: string, now: int) {
    && k in t.tokens && t.tokens[k].hash == hash
    && (t.tokens[k].expires.Some? ==> now < t.tokens[k].expires.value)
  }

  /** The database accepts an enrollment exactly if all it wants to consume is there and its names are free. */
  lemma EnrollAcceptedIff(t: Tables, plan: Plan, id: Id, host: Id, who: Identity, now: int)
    ensures AccessTables.Enroll(t, plan, id, host, who, now).Some? <==>
              && (plan.batch.Some? ==> HasPlace(t, plan.batch.value, plan.used, now))
              && (plan.token.Some? ==> HasToken(t, plan.token.value, plan.hash, now))
              && (forall h :: h in t.hosts ==> t.hosts[h].name != plan.serial)
              && (forall d :: d in t.devices ==> t.devices[d].key != who.key && t.devices[d].serial != plan.serial)
  {
    hide SpendPlace, SpendToken, NewHost, NewDevice;
  }

  /** The device and the host row are the caller's; exactly the planned place and token are consumed. */
  lemma EnrollEffect(t: Tables, plan: Plan, id: Id, host: Id, who: Identity, now: int)
    requires AccessTables.Enroll(t, plan, id, host, who, now).Some?
    ensures var t' := AccessTables.Enroll(t, plan, id, host, who, now).value;
            && t' == t.(batches := t'.batches, tokens := t'.tokens, hosts := t'.hosts, devices := t'.devices)
            && Others(t.devices, t'.devices, id) && id in t'.devices
            && IsDeviceOf(t'.devices[id], who, plan.serial, host)
            && Others(t.hosts, t'.hosts, host) && host in t'.hosts && IsHostOf(t'.hosts[host], who, plan.serial)
    ensures var t' := AccessTables.Enroll(t, plan, id, host, who, now).value;
            && (forall k :: k in t'.tokens <==> k in t.tokens && plan.token != Some(k))
            && (forall k :: k in t'.tokens ==> t'.tokens[k] == t.tokens[k])
            && t'.batches.Keys == t.batches.Keys
            && (forall b :: b in t.batches && plan.batch != Some(b) ==> t'.batches[b] == t.batches[b])
            && (forall b :: b in t.batches && plan.batch == Some(b) ==>
                  && t'.batches[b].used == t.batches[b].used + 1
                  && t'.batches[b].open == (t.batches[b].used + 1 < t.batches[b].max)
                  && t'.batches[b] == t.batches[b].(used := t'.batches[b].used, open := t'.batches[b].open))
  {
    hide NameTaken, IdentityTaken, TokenReady;
  }

  /** The same call again finds its key known, with its own fingerprint and serial: it is answered that device. */
  lemma EnrollmentIsRepeatable(t: Tables, hash: string, wanted: string, id: Id, host: Id, who: Identity, now: int,
      plan: Plan)
    requires Enrolls(t, hash, wanted, id, host, who, now, plan)
    ensures var t' := AccessTables.Enroll(t, plan, id, host, who, now).value;
            && KeyKnown(t', who.key)
            && forall d :: d in t'.devices && t'.devices[d].key == who.key ==>
                 && d == id && t'.devices[d].fingerprint == who.fingerprint
                 && (wanted == "" || wanted == t'.devices[d].serial)
  {
    EnrollEffect(t, plan, id, host, who, now);
    EnrollAcceptedIff(t, plan, id, host, who, now);
    hide AccessTables.Enroll, Numbered, ValidHostName;
    var t' := AccessTables.Enroll(t, plan, id, host, who, now).value;
    assert t'.devices[id].key == who.key;
  }

  /** The device's first heartbeat, with the endpoint and the fingerprint it enrolled with, succeeds. */
  lemma EnrolledDeviceBeats(t: Tables, plan: Plan, id: Id, host: Id, who: Identity, now: int)
    requires AccessTables.Enroll(t, plan, id, host, who, now).Some?
    ensures var t' := AccessTables.Enroll(t, plan, id, host, who, now).value;
            && Theorems.TouchedRows(t', id, host, who.endpoint, who.fingerprint) == 3
            && Up(t', host)
  {
    EnrollEffect(t, plan, id, host, who, now);
    hide AccessTables.Enroll;
  }

  // ---------- what pays for an enrollment ----------

  /** A one-use token of no batch pays for any valid serial the device asks for, until it expires. */
  lemma LooseTokenPays(t: Tables, k: Id, hash: string, wanted: string, now: int, plan: Plan)
    requires HashesOk(t) && k in t.tokens && t.tokens[k].hash == hash && t.tokens[k].batch == None
    ensures Payable(t, hash, wanted, now, plan) <==>
              && HasToken(t, k, hash, now) && wanted != "" && ValidHostName(wanted)
              && plan == Plan(Some(k), hash, None, 0, wanted)
  {
    hide Numbered, ValidHostName;
    assert TokenHashTaken(t.tokens, hash);
  }

  /** One of a batch pays together with the batch's next place. */
  lemma BatchTokenPays(t: Tables, k: Id, hash: string, wanted: string, now: int, plan: Plan)
    requires HashesOk(t) && k in t.tokens && t.tokens[k].hash == hash && t.tokens[k].batch.Some?
    ensures var b := t.tokens[k].batch.value;
            var used := t.batches[b].used;
            var serial := Numbered(t.batches[b].prefix, used + 1);
            Payable(t, hash, wanted, now, plan) <==>
              && HasToken(t, k, hash, now) && HasPlace(t, b, used, now)
              && (wanted == "" || wanted == serial) && ValidHostName(serial)
              && plan == Plan(Some(k), hash, Some(b), used, serial)
  {
    hide Numbered, ValidHostName;
    assert TokenHashTaken(t.tokens, hash);
  }

  /** A batch's own token pays with its next place, unless a one-use token has the same hash. */
  lemma BatchPays(t: Tables, b: Id, hash: string, wanted: string, now: int, plan: Plan)
    requires HashesOk(t) && b in t.batches && t.batches[b].hash == hash
    requires forall k :: k in t.tokens ==> t.tokens[k].hash != hash
    ensures var used := t.batches[b].used;
            var serial := Numbered(t.batches[b].prefix, used + 1);
            Payable(t, hash, wanted, now, plan) <==>
              && HasPlace(t, b, used, now) && (wanted == "" || wanted == serial) && ValidHostName(serial)
              && plan == Plan(None, hash, Some(b), used, serial)
  {
    hide Numbered, ValidHostName;
  }

  /** Anything else pays nothing. */
  lemma UnknownHashPaysNothing(t: Tables, hash: string, wanted: string, now: int, plan: Plan)
    requires forall k :: k in t.tokens ==> t.tokens[k].hash != hash
    requires forall b :: b in t.batches ==> t.batches[b].hash != hash
    ensures !Payable(t, hash, wanted, now, plan)
  {
    hide Numbered, ValidHostName;
  }

  lemma CreateTokenEffect(t: Tables, id: Id, hash: string, batch: Option<Id>, expires: Option<int>, now: int)
    ensures var r := AccessTables.CreateToken(t, id, hash, batch, expires, now);
            && (r.Some? <==>
                  && (expires.Some? ==> now < expires.value)
                  && (batch.Some? ==>
                        batch.value in t.batches && HasPlace(t, batch.value, t.batches[batch.value].used, now))
                  && forall k :: k in t.tokens ==> t.tokens[k].hash != hash)
            && (r.Some? ==>
                  && r.value == t.(tokens := r.value.tokens) && Others(t.tokens, r.value.tokens, id)
                  && id in r.value.tokens && r.value.tokens[id].hash == hash
                  && r.value.tokens[id].batch == batch && r.value.tokens[id].expires == expires)
  {
  }

  lemma CreateBatchEffect(t: Tables, id: Id, name: string, prefix: string, hash: string, expires: int, max: int,
      now: int)
    ensures var r := AccessTables.CreateBatch(t, id, name, prefix, hash, expires, max, now);
            && (r.Some? <==>
                  && name != "" && prefix != "" && now < expires && 1 <= max <= 10000
                  && ValidHostName(prefix + "-000001")
                  && forall b :: b in t.batches ==> t.batches[b].name != name && t.batches[b].hash != hash)
            && (r.Some? ==>
                  && r.value == t.(batches := r.value.batches) && Others(t.batches, r.value.batches, id)
                  && id in r.value.batches && var b := r.value.batches[id];
                  && b.name == name && b.prefix == prefix && b.hash == hash && b.open
                  && b.expires == expires && b.max == max && b.used == 0)
  {
    hide ValidHostName;
  }

  /** A closed batch keeps every other column, and pays for nothing more. */
  lemma CloseBatchEffect(t: Tables, id: Id)
    ensures AccessTables.CloseBatch(t, id) ==
              if id in t.batches then t.(batches := t.batches[id := t.batches[id].(open := false)]) else t
  {
    if id in t.batches && !t.batches[id].open {
      var b := t.batches[id];
      assert b.(open := false) == b;
      assert t.batches[id := b] == t.batches;
    }
  }

  lemma ClosedBatchPaysNothing(t: Tables, id: Id, hash: string, wanted: string, now: int, plan: Plan)
    requires plan.batch == Some(id)
    ensures !Payable(AccessTables.CloseBatch(t, id), hash, wanted, now, plan)
  {
    CloseBatchEffect(t, id);
    hide AccessTables.CloseBatch, Numbered, ValidHostName;
  }

  // ---------- serial numbers ----------

  function Zeros(n: nat): string {
    seq(n, i => '0')
  }

  lemma {:induction false} ZerosAddNothing(n: nat, s: string)
    requires Decimal.AllDigits(s)
    ensures Decimal.AllDigits(Zeros(n) + s) && Decimal.DigitsValue(Zeros(n) + s) == Decimal.DigitsValue(s)
  {
    var t := Zeros(n) + s;
    if s != "" {
      ZerosAddNothing(n, s[..|s| - 1]);
      assert t[..|t| - 1] == Zeros(n) + s[..|s| - 1];
    } else if n > 0 {
      ZerosAddNothing(n - 1, "");
      assert t[..|t| - 1] == Zeros(n - 1) + "";
    } else {
      assert t == "";
    }
  }

  function PowerOfTen(d: nat): nat {
    if d == 0 then 1 else 10 * PowerOfTen(d - 1)
  }

  lemma {:induction false} DigitCount(n: nat, d: nat)
    requires d > 0 && n < PowerOfTen(d)
    ensures |Decimal.FormatNat(n)| <= d
  {
    if n < 10 {
    } else {
      assert d > 1;
      DigitCount(n / 10, d - 1);
    }
  }

  lemma Million()
    ensures PowerOfTen(6) == 1_000_000
  {
    assert PowerOfTen(3) == 1000;
  }

  lemma PaddedIsZeros(s: string, width: nat)
    ensures Padded(s, width) == Zeros(if |s| < width then width - |s| else 0) + s
  {
  }

  /** A place below a million is numbered by its own six digits, so no two places share a serial. */
  lemma SixDigitsExact(n: nat)
    requires n < 1_000_000
    ensures |SixDigits(n)| == 6 && Decimal.AllDigits(SixDigits(n)) && Decimal.DigitsValue(SixDigits(n)) == n
  {
    hide *;
    var s := Decimal.FormatNat(n);
    Million();
    Decimal.FormatNatReads(n);
    DigitCount(n, 6);
    PaddedIsZeros(s, 6);
    ZerosAddNothing(6 - |s|, s);
    SixDigitsOf(n);
    ZerosAre(6 - |s|);
  }

  lemma SixDigitsOf(n: nat)
    ensures SixDigits(n) == Padded(Decimal.FormatNat(n), 6)
  {
    hide Padded;
  }

  lemma ZerosAre(n: nat)
    ensures |Zeros(n)| == n
  {
  }

  // ---------- heartbeats and revocation ----------

  /** A heartbeat's three rows are there exactly for a device that is not revoked, on its host, with its identity. */
  lemma HeartbeatNeedsIdentity(t: Tables, id: Id, host: Id, endpoint: string, fingerprint: string)
    ensures Theorems.TouchedRows(t, id, host, endpoint, fingerprint) == 3 <==>
              && id in t.devices && t.devices[id].host == host && !t.devices[id].revoked
              && t.devices[id].endpoint == endpoint && t.devices[id].fingerprint == fingerprint && host in t.hosts
  {
  }

  lemma TouchEffect(t: Tables, id: Id, host: Id, endpoint: string, fingerprint: string, status: Status, d: Discovery,
      now: int)
    ensures var t' := AccessTables.Touch(t, id, host, endpoint, fingerprint, status, d, now);
            if id in t.devices && t.devices[id].host == host && !t.devices[id].revoked then
              && t' == t.(devices := t'.devices, hosts := t'.hosts, discovery := t'.discovery)
              && Others(t.devices, t'.devices, id) && id in t'.devices
              && (if t.devices[id].endpoint == endpoint && t.devices[id].fingerprint == fingerprint
                  then t'.devices[id] == t.devices[id].(lastSeen := Some(now)) else t'.devices[id] == t.devices[id])
              && Others(t.hosts, t'.hosts, host) && (host in t'.hosts <==> host in t.hosts)
              && (host in t.hosts ==> t'.hosts[host] == t.hosts[host].(status := status, lastSeen := Some(now)))
              && Others(t.discovery, t'.discovery, host) && host in t'.discovery && t'.discovery[host] == d
            else t' == t
  {
  }

  /** Revoking a device expires every grant of its host and removes every relay grant of it, and nobody else's. */
  lemma DeleteDeviceEffect(t: Tables, id: Id, host: Id, now: int)
    requires id in t.devices && !t.devices[id].revoked
    ensures var t' := AccessTables.DeleteDevice(t, id, host, now);
            && t' == t.(devices := t'.devices, hosts := t'.hosts, grants := t'.grants, relays := t'.relays)
            && Others(t.devices, t'.devices, id) && id in t'.devices
            && t'.devices[id] == t.devices[id].(revoked := true, lastSeen := Some(now))
            && Others(t.hosts, t'.hosts, host) && (host in t'.hosts <==> host in t.hosts)
            && (host in t.hosts ==> t'.hosts[host] == t.hosts[host].(status := Revoked, lastSeen := Some(now)))
    ensures var t' := AccessTables.DeleteDevice(t, id, host, now);
            && t'.grants.Keys == t.grants.Keys
            && (forall g :: g in t.grants ==>
                  t'.grants[g] == t.grants[g].(
                    expires :=
                      if t.grants[g].host == host && now < t.grants[g].expires then now else t.grants[g].expires))
            && (forall r :: r in t'.relays <==> r in t.relays && t.relays[r].host != host)
            && (forall r :: r in t'.relays ==> t'.relays[r] == t.relays[r])
  {
  }

  /** Deleting a host removes its rows from seven tables, and no row of another host from any. */
  lemma DeleteHostEffect(t: Tables, host: Id)
    ensures var t' := AccessTables.DeleteHost(t, host);
            && t'.requests == t.requests && t'.keys == t.keys && t'.tokens == t.tokens && t'.batches == t.batches
            && Others(t.hosts, t'.hosts, host) && host !in t'.hosts
            && Others(t.discovery, t'.discovery, host) && host !in t'.discovery
            && (forall d :: d in t'.devices <==> d in t.devices && t.devices[d].host != host)
            && (forall d :: d in t'.devices ==> t'.devices[d] == t.devices[d])
            && (forall g :: g in t'.grants <==> g in t.grants && t.grants[g].host != host)
            && (forall g :: g in t'.grants ==> t'.grants[g] == t.grants[g])
            && (forall r :: r in t'.relays <==> r in t.relays && t.relays[r].host != host)
            && (forall r :: r in t'.relays ==> t'.relays[r] == t.relays[r])
    ensures var t' := AccessTables.DeleteHost(t, host);
            && (forall k :: k in t'.snapshots <==> k in t.snapshots && k.host != host)
            && (forall k :: k in t'.snapshots ==> t'.snapshots[k] == t.snapshots[k])
            && (forall k :: k in t'.rows <==> k in t.rows && k.host != host)
            && (forall k :: k in t'.rows ==> t'.rows[k] == t.rows[k])
  {
  }

  // ---------- hosts, keys, discovery ----------

  lemma CreateHostEffect(t: Tables, id: Id, h: Host)
    ensures var r := AccessTables.CreateHost(t, id, h);
            var account := if h.account == "" then "root" else h.account;
            && (r.Some? <==>
                  && ValidHostName(h.name) && ValidSSHUser(account)
                  && forall x :: x in t.hosts ==> t.hosts[x].name != h.name)
            && (r.Some? ==>
                  && r.value == t.(hosts := r.value.hosts) && Others(t.hosts, r.value.hosts, id) && id in r.value.hosts
                  && r.value.hosts[id] == h.(account := account, port := if h.port == 0 then 22 else h.port,
                                             status := if h.status == Named("") then Named("unknown") else h.status))
  {
    hide ValidHostName, ValidSSHUser;
  }

  lemma UpdateHostEffect(t: Tables, id: Id, h: Host)
    ensures var r := AccessTables.UpdateHost(t, id, h);
            && (r.Some? <==>
                  && ValidHostName(h.name) && ValidSSHUser(h.account)
                  && (id in t.hosts ==> forall x :: x in t.hosts && x != id ==> t.hosts[x].name != h.name))
            && (r.Some? ==>
                  && r.value == t.(hosts := r.value.hosts) && Others(t.hosts, r.value.hosts, id)
                  && (id in r.value.hosts <==> id in t.hosts) && (id in t.hosts ==> r.value.hosts[id] == h))
  {
    hide ValidHostName, ValidSSHUser;
  }

  lemma KeyEffects(t: Tables, id: Id, key: Key)
    ensures var t' := AccessTables.AddKey(t, id, key);
            t' == t.(keys := t'.keys) && Others(t.keys, t'.keys, id) && id in t'.keys && t'.keys[id] == key
    ensures var t' := AccessTables.RemoveKey(t, id);
            t' == t.(keys := t'.keys) && Others(t.keys, t'.keys, id) && id !in t'.keys
  {
  }

  lemma DiscoverEffect(t: Tables, host: Id, d: Discovery)
    ensures var t' := AccessTables.Discover(t, host, d);
            && t' == t.(discovery := t'.discovery) && Others(t.discovery, t'.discovery, host)
            && host in t'.discovery && t'.discovery[host] == d
  {
  }
}
