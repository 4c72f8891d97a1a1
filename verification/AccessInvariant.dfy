/** Every operation keeps what `AccessRuns.Inv` says. */
module AccessInvariant {
  import opened Prelude
  import opened AccessTables
  import opened AccessRuns

  // ---------- which operation writes which table ----------

  predicate WritesBatches(op: Op) {
    op.CreateBatch? || op.CloseBatch? || op.Enroll?
  }

  predicate WritesTokens(op: Op) {
    op.CreateToken? || op.Enroll?
  }

  predicate WritesDevices(op: Op) {
    op.DeleteHost? || op.Enroll? || op.Touch? || op.DeleteDevice?
  }

  predicate WritesHosts(op: Op) {
    op.CreateHost? || op.UpdateHost? || WritesDevices(op)
  }

  predicate WritesRelays(op: Op) {
    op.DeleteHost? || op.CreateRelay? || op.RenewRelay? || op.DeleteDevice?
  }

  predicate WritesGrants(op: Op) {
    op.DeleteHost? || op.CreateGrant? || op.IssueAccess? || op.DeleteDevice? || op.Acknowledge?
  }

  predicate WritesSnapshots(op: Op) {
    op.DeleteHost? || op.Publish?
  }

  /** Every other table is as it was. */
  predicate Framed(op: Op, t: Tables, t': Tables) {
    && (WritesBatches(op) || t'.batches == t.batches)
    && (WritesTokens(op) || t'.tokens == t.tokens)
    && (WritesHosts(op) || t'.hosts == t.hosts)
    && (WritesDevices(op) || t'.devices == t.devices)
    && (WritesRelays(op) || t'.relays == t.relays)
    && (WritesGrants(op) || t'.grants == t.grants)
    && (WritesSnapshots(op) || (t'.snapshots == t.snapshots && t'.rows == t.rows))
  }

  lemma TableFrames(t: Tables, op: Op)
    requires Transact(t, op).Some?
    ensures Framed(op, t, Transact(t, op).value)
  {
    hide AccessTables.CreateHost, AccessTables.UpdateHost, AccessTables.DeleteHost, AccessTables.CreateGrant,
         AccessTables.IssueAccess, AccessTables.CreateRelay, AccessTables.RenewRelay, AccessTables.AddKey,
         AccessTables.RemoveKey, AccessTables.Discover, AccessTables.CreateToken, AccessTables.CreateBatch,
         AccessTables.CloseBatch, AccessTables.Enroll, AccessTables.Touch, AccessTables.DeleteDevice,
         AccessTables.Publish, AccessTables.Acknowledge;
  }

  lemma DevicesUntouched(t: Tables, op: Op)
    requires Transact(t, op).Some? && !WritesDevices(op)
    ensures Transact(t, op).value.devices == t.devices
  {
    TableFrames(t, op);
    hide Transact;
  }

  lemma BatchesUntouched(t: Tables, op: Op)
    requires Transact(t, op).Some? && !WritesBatches(op)
    ensures Transact(t, op).value.batches == t.batches
  {
    TableFrames(t, op);
    hide Transact;
  }

  lemma HistoryFrames(t: Tables, h: History, op: Op)
    ensures var h' := Remember(t, h, op);
            && (op.DeleteHost? || op.Publish? || h'.published == h.published)
            && (op.Enroll? || h'.paid == h.paid)
            && h'.minted == h.minted + Mints(op)
  {
    hide Mints, Forgotten, Published;
  }

  lemma Frames(s: State, op: Op)
    ensures var s' := Do(s, op);
            && Framed(op, s.t, s'.t)
            && (WritesSnapshots(op) || s'.h.published == s.h.published)
            && (op.Enroll? || s'.h.paid == s.h.paid)
            && s.h.minted <= s'.h.minted <= s.h.minted + Mints(op)
  {
    hide Transact, Mints, Remember;
    if Transact(s.t, op).Some? {
      TableFrames(s.t, op);
      HistoryFrames(s.t, s.h, op);
    }
  }

  // ---------- batches ----------

  lemma PaidByGrows(paid: map<Id, Payment>, d: Id, p: Payment, b: Id)
    requires d !in paid
    ensures |PaidBy(paid[d := p], b)| == |PaidBy(paid, b)| + (if p.batch == Some(b) then 1 else 0)
  {
    assert PaidBy(paid[d := p], b) == (if p.batch == Some(b) then PaidBy(paid, b) + {d} else PaidBy(paid, b));
  }

  lemma PlaceTaken(batches: map<Id, Batch>, paid: map<Id, Payment>, d: Id, p: Payment, b: Id)
    requires BatchesOk(batches, paid) && d !in paid && p.batch == Some(b)
    requires b in batches && batches[b].open && batches[b].used < batches[b].max && p.place == batches[b].used + 1
    ensures BatchesOk(batches[b := TakePlace(batches[b])], paid[d := p])
  {
    forall c ensures |PaidBy(paid[d := p], c)| == |PaidBy(paid, c)| + (if b == c then 1 else 0) {
      PaidByGrows(paid, d, p, c);
    }
    hide PaidBy;
  }

  lemma NoPlaceTaken(batches: map<Id, Batch>, paid: map<Id, Payment>, d: Id, p: Payment)
    requires BatchesOk(batches, paid) && d !in paid && p.batch == None
    ensures BatchesOk(batches, paid[d := p])
  {
    forall c ensures |PaidBy(paid[d := p], c)| == |PaidBy(paid, c)| {
      PaidByGrows(paid, d, p, c);
    }
    hide PaidBy;
  }

  lemma BatchMade(batches: map<Id, Batch>, paid: map<Id, Payment>, id: Id, b: Batch)
    requires BatchesOk(batches, paid) && id !in batches && b.open && b.used == 0 && b.max >= 1
    ensures BatchesOk(batches[id := b], paid)
  {
    assert PaidBy(paid, id) == {};
    assert |PaidBy(paid, id)| == 0;
    hide PaidBy;
  }

  lemma BatchClosed(batches: map<Id, Batch>, paid: map<Id, Payment>, id: Id)
    requires BatchesOk(batches, paid) && id in batches
    ensures BatchesOk(batches[id := batches[id].(open := false)], paid)
  {
    hide PaidBy;
  }

  lemma BatchesKept(s: State, op: Op)
    requires Inv(s) && Allowed(s, op)
    ensures BatchesOk(Do(s, op).t.batches, Do(s, op).h.paid)
  {
    Frames(s, op);
    hide BatchesOk, TokensOk, HashesOk, DevicesOk, SerialsOk, RelaysOk, SnapshotsOk, Numbered, NameTaken,
         IdentityTaken, TokenReady;
    if Transact(s.t, op).None? {
      hide Transact;
    } else if op.Enroll? {
      assert op.id in Mints(op);
      var p := Do(s, op).h.paid[op.id];
      if op.plan.batch.Some? {
        PlaceTaken(s.t.batches, s.h.paid, op.id, p, op.plan.batch.value);
      } else {
        NoPlaceTaken(s.t.batches, s.h.paid, op.id, p);
      }
    } else if op.CreateBatch? {
      assert op.id in Mints(op);
      BatchMade(s.t.batches, s.h.paid, op.id, Do(s, op).t.batches[op.id]);
    } else if op.CloseBatch? && op.id in s.t.batches {
      BatchClosed(s.t.batches, s.h.paid, op.id);
    } else {
      hide Do, Transact;
    }
  }

  // ---------- tokens ----------

  lemma TokenSpent(tokens: map<Id, Token>, paid: map<Id, Payment>, minted: set<Id>, d: Id, p: Payment, minted': set<Id>)
    requires TokensOk(tokens, paid, minted) && d !in paid && minted <= minted'
    requires p.token.Some? ==> p.token.value in tokens
    requires p.token.Some? || p.batch.Some?
    ensures TokensOk(if p.token.Some? then tokens - {p.token.value} else tokens, paid[d := p], minted')
  {
  }

  lemma CreateTokenAdds(t: Tables, op: Op)
    requires op.CreateToken? && Transact(t, op).Some?
    ensures Transact(t, op).value.tokens == t.tokens[op.id := Token(op.hash, op.batch, op.deadline)]
  {
    hide TokenHashTaken;
  }

  lemma EnrollSpendsToken(t: Tables, op: Op)
    requires op.Enroll? && Transact(t, op).Some?
    ensures Transact(t, op).value.tokens == SpendToken(t.tokens, op.plan)
    ensures op.plan.token.Some? ==> op.plan.token.value in t.tokens
  {
    hide NameTaken, IdentityTaken, PlaceReady, SpendPlace, SpendToken, NewHost, NewDevice;
  }

  lemma TokenMade(tokens: map<Id, Token>, paid: map<Id, Payment>, minted: set<Id>, id: Id, k: Token, minted': set<Id>)
    requires TokensOk(tokens, paid, minted) && id !in minted && minted <= minted' && id in minted'
    ensures TokensOk(tokens[id := k], paid, minted')
  {
  }

  lemma TokensStay(tokens: map<Id, Token>, paid: map<Id, Payment>, minted: set<Id>, minted': set<Id>)
    requires TokensOk(tokens, paid, minted) && minted <= minted'
    ensures TokensOk(tokens, paid, minted')
  {
  }

  lemma TokensKept(s: State, op: Op)
    requires Inv(s) && Allowed(s, op)
    ensures TokensOk(Do(s, op).t.tokens, Do(s, op).h.paid, Do(s, op).h.minted)
  {
    hide Transact, TokensOk, BatchesOk, HashesOk, DevicesOk, SerialsOk, RelaysOk, SnapshotsOk, Numbered;
    Frames(s, op);
    if Transact(s.t, op).None? {
    } else if op.Enroll? {
      assert op.id in Mints(op);
      EnrollSpendsToken(s.t, op);
      TokenSpent(s.t.tokens, s.h.paid, s.h.minted, op.id, Do(s, op).h.paid[op.id], Do(s, op).h.minted);
    } else if op.CreateToken? {
      assert op.id in Mints(op);
      CreateTokenAdds(s.t, op);
      TokenMade(s.t.tokens, s.h.paid, s.h.minted, op.id, Token(op.hash, op.batch, op.deadline), Do(s, op).h.minted);
    } else {
      hide Mints, MintedOk;
      TokensStay(s.t.tokens, s.h.paid, s.h.minted, Do(s, op).h.minted);
    }
  }

  // ---------- unique columns ----------

  lemma HostNamesKept(t: Tables, op: Op)
    requires NamesOk(t.hosts) && Transact(t, op).Some?
    requires op.CreateHost? || op.UpdateHost? || op.DeleteHost? || op.Touch? || op.DeleteDevice? || op.Enroll?
    ensures NamesOk(Transact(t, op).value.hosts)
  {
    hide Available, HasDevice, IdentityTaken, PlaceReady, TokenReady, Numbered, Expired;
  }

  lemma TokenHashesKept(t: Tables, op: Op)
    requires TokenHashesOk(t.tokens, t.batches) && Transact(t, op).Some?
    requires op.CreateToken? || op.CreateBatch? || op.CloseBatch? || op.Enroll?
    ensures TokenHashesOk(Transact(t, op).value.tokens, Transact(t, op).value.batches)
  {
    hide NameTaken, IdentityTaken, BatchTaken, Numbered, TakePlace;
  }

  lemma BatchHashesKept(t: Tables, op: Op)
    requires BatchHashesOk(t.batches) && Transact(t, op).Some?
    requires op.CreateBatch? || op.CloseBatch? || op.Enroll?
    ensures BatchHashesOk(Transact(t, op).value.batches)
  {
    hide NameTaken, IdentityTaken, Numbered, TokenReady;
  }

  lemma HashesKept(s: State, op: Op)
    requires Inv(s) && Allowed(s, op)
    ensures HashesOk(Do(s, op).t)
  {
    Frames(s, op);
    if Transact(s.t, op).Some? {
      if op.CreateHost? || op.UpdateHost? || op.DeleteHost? || op.Touch? || op.DeleteDevice? || op.Enroll? {
        HostNamesKept(s.t, op);
      }
      if op.CreateToken? || op.CreateBatch? || op.CloseBatch? || op.Enroll? {
        TokenHashesKept(s.t, op);
      }
      if op.CreateBatch? || op.CloseBatch? || op.Enroll? {
        BatchHashesKept(s.t, op);
      }
    }
    hide TokenHashesOk, BatchHashesOk, NamesOk, Transact, Remember, Mints;
    hide BatchesOk, TokensOk, DevicesOk, SerialsOk, MintedOk, RelaysOk, SnapshotsOk;
  }

  // ---------- devices ----------

  lemma DeviceMade(devices: map<Id, Device>, hosts: map<Id, Host>, paid: map<Id, Payment>, id: Id, p: Payment,
      d: Device, h: Host)
    requires DevicesOk(devices, hosts, paid) && id !in paid && d.host == p.host
    requires forall e :: e in devices ==> devices[e].key != d.key && devices[e].serial != d.serial
    requires forall e :: e in paid ==> paid[e].host != p.host
    ensures DevicesOk(devices[id := d], hosts[p.host := h], paid[id := p])
  {
  }

  /** Outside enrollment a device row only ages: it may be seen, revoked, or go with its host. */
  predicate Ages(d: Device, e: Device) {
    e == d.(lastSeen := e.lastSeen, revoked := e.revoked) && (d.revoked ==> e.revoked)
  }

  ghost predicate Aged(was: map<Id, Device>, now: map<Id, Device>, gone: Option<Id>, revoked: Option<Id>) {
    && (forall d :: d in now ==> d in was && Ages(was[d], now[d]))
    && (forall d :: d in now && d in was && now[d].revoked && !was[d].revoked ==> revoked == Some(d))
    && (forall d :: d in was && d !in now ==> gone == Some(was[d].host))
  }

  function HostGone(op: Op): Option<Id> {
    if op.DeleteHost? then Some(op.id) else None
  }

  function DeviceRevoked(op: Op): Option<Id> {
    if op.DeleteDevice? then Some(op.id) else None
  }

  lemma NobodyAges(devices: map<Id, Device>, gone: Option<Id>, revoked: Option<Id>)
    ensures Aged(devices, devices, gone, revoked)
  {
  }

  lemma DeleteHostAges(t: Tables, id: Id)
    ensures Aged(t.devices, AccessTables.DeleteHost(t, id).devices, Some(id), None)
  {
  }

  lemma TouchAges(t: Tables, id: Id, host: Id, endpoint: string, fingerprint: string, status: Status, d: Discovery,
      now: int)
    ensures Aged(t.devices, AccessTables.Touch(t, id, host, endpoint, fingerprint, status, d, now).devices, None, None)
  {
  }

  lemma DeleteDeviceAges(t: Tables, id: Id, host: Id, now: int)
    ensures Aged(t.devices, AccessTables.DeleteDevice(t, id, host, now).devices, None, Some(id))
  {
  }

  lemma DevicesAge(t: Tables, op: Op)
    requires Transact(t, op).Some? && !op.Enroll?
    ensures Aged(t.devices, Transact(t, op).value.devices, HostGone(op), DeviceRevoked(op))
  {
    hide Aged;
    hide AccessTables.DeleteHost, AccessTables.Touch, AccessTables.DeleteDevice;
    match op
    case DeleteHost(id) => DeleteHostAges(t, id);
    case Touch(id, host, endpoint, fingerprint, status, d, now) =>
      TouchAges(t, id, host, endpoint, fingerprint, status, d, now);
    case DeleteDevice(id, host, now) => DeleteDeviceAges(t, id, host, now);
    case _ =>
      hide Transact;
      DevicesUntouched(t, op);
      NobodyAges(t.devices, HostGone(op), DeviceRevoked(op));
  }

  lemma HostsStay(t: Tables, op: Op)
    requires Transact(t, op).Some?
    ensures var t' := Transact(t, op).value;
            && (forall h :: h in t.hosts ==> h in t'.hosts || op == DeleteHost(h))
            && (op.DeleteHost? ==> forall d :: d in t'.devices ==> t'.devices[d].host != op.id)
  {
    TableFrames(t, op);
    if op.DeleteHost? || op.Touch? || op.DeleteDevice? || op.CreateHost? || op.UpdateHost? || op.Enroll? {
      hide Expired, SameIdentity, OwnLiveDevice, NameTaken, IdentityTaken, PlaceReady, TokenReady, WithDefaults;
    } else {
      hide Transact;
    }
  }

  /** Rows that only age keep their columns; a removed host has taken its devices with it. */
  lemma AgedDevicesOk(was: map<Id, Device>, now: map<Id, Device>, hosts: map<Id, Host>, hosts': map<Id, Host>,
      paid: map<Id, Payment>, gone: Option<Id>, revoked: Option<Id>)
    requires DevicesOk(was, hosts, paid) && Aged(was, now, gone, revoked)
    requires forall h :: h in hosts ==> h in hosts' || gone == Some(h)
    requires forall d :: d in now ==> gone != Some(now[d].host)
    ensures DevicesOk(now, hosts', paid)
  {
  }

  lemma DevicesSame(t: Tables, op: Op, paid: map<Id, Payment>)
    requires DevicesOk(t.devices, t.hosts, paid) && Transact(t, op).Some? && !op.Enroll?
    ensures DevicesOk(Transact(t, op).value.devices, Transact(t, op).value.hosts, paid)
  {
    hide Transact, DevicesOk, Aged;
    DevicesAge(t, op);
    HostsStay(t, op);
    var t' := Transact(t, op).value;
    AgedDevicesOk(t.devices, t'.devices, t.hosts, t'.hosts, paid, HostGone(op), DeviceRevoked(op));
  }

  lemma DevicesKept(s: State, op: Op)
    requires Inv(s) && Allowed(s, op)
    ensures DevicesOk(Do(s, op).t.devices, Do(s, op).t.hosts, Do(s, op).h.paid)
  {
    Frames(s, op);
    hide BatchesOk, TokensOk, HashesOk, SerialsOk, RelaysOk, SnapshotsOk, Numbered, NameTaken, TokenReady, PlaceReady;
    if Transact(s.t, op).None? {
      hide Transact;
    } else if op.Enroll? {
      assert op.id in Mints(op) && op.host in Mints(op);
      DeviceMade(s.t.devices, s.t.hosts, s.h.paid, op.id, Do(s, op).h.paid[op.id],
                 NewDevice(op.who, op.plan.serial, op.host), NewHost(op.who, op.plan.serial));
      hide DevicesOk;
    } else {
      DevicesSame(s.t, op, s.h.paid);
      hide Transact, DevicesOk;
    }
  }

  // ---------- serials ----------

  ghost predicate PrefixesKept(was: map<Id, Batch>, now: map<Id, Batch>) {
    forall b :: b in was ==> b in now && now[b].prefix == was[b].prefix
  }

  lemma CreateBatchKeepsPrefixes(t: Tables, id: Id, name: string, prefix: string, hash: string, expires: int,
      max: int, now: int)
    requires id !in t.batches && AccessTables.CreateBatch(t, id, name, prefix, hash, expires, max, now).Some?
    ensures PrefixesKept(t.batches,
        AccessTables.CreateBatch(t, id, name, prefix, hash, expires, max, now).value.batches)
  {
    hide BatchTaken;
  }

  lemma CloseBatchKeepsPrefixes(t: Tables, id: Id)
    ensures PrefixesKept(t.batches, AccessTables.CloseBatch(t, id).batches)
  {
    NoPrefixMoves(t.batches);
    if id in t.batches {
      ClosingKeepsPrefixes(t.batches, id);
    }
    hide PrefixesKept;
  }

  lemma ClosingKeepsPrefixes(batches: map<Id, Batch>, id: Id)
    requires id in batches
    ensures PrefixesKept(batches, batches[id := batches[id].(open := false)])
  {
  }

  lemma SpendPlaceKeepsPrefixes(batches: map<Id, Batch>, plan: Plan)
    ensures PrefixesKept(batches, SpendPlace(batches, plan))
  {
  }

  lemma EnrollSpendsPlace(t: Tables, op: Op)
    requires op.Enroll? && Transact(t, op).Some?
    ensures Transact(t, op).value.batches == SpendPlace(t.batches, op.plan)
  {
    hide NameTaken, IdentityTaken, PlaceReady, TokenReady, SpendPlace, SpendToken, NewHost, NewDevice;
  }

  /** A batch keeps its prefix. */
  lemma PrefixesStay(t: Tables, op: Op)
    requires Transact(t, op).Some? && (op.CreateBatch? ==> op.id !in t.batches)
    ensures PrefixesKept(t.batches, Transact(t, op).value.batches)
  {
    hide PrefixesKept, AccessTables.CreateBatch, AccessTables.CloseBatch, AccessTables.Enroll;
    match op
    case CreateBatch(id, name, prefix, hash, expires, max, now) =>
      CreateBatchKeepsPrefixes(t, id, name, prefix, hash, expires, max, now);
    case CloseBatch(id) => CloseBatchKeepsPrefixes(t, id);
    case Enroll(_, _, plan, _, _) =>
      EnrollSpendsPlace(t, op);
      SpendPlaceKeepsPrefixes(t.batches, plan);
    case _ =>
      hide Transact;
      BatchesUntouched(t, op);
      NoPrefixMoves(t.batches);
  }

  lemma NoPrefixMoves(batches: map<Id, Batch>)
    ensures PrefixesKept(batches, batches)
  {
  }

  lemma SerialMade(devices: map<Id, Device>, batches: map<Id, Batch>, batches': map<Id, Batch>,
      paid: map<Id, Payment>, id: Id, d: Device, p: Payment)
    requires SerialsOk(devices, batches, paid) && (forall e :: e in devices ==> e in paid) && id !in paid
    requires forall e :: e in paid && paid[e].batch.Some? ==> paid[e].batch.value in batches
    requires forall b :: b in batches ==> b in batches' && batches'[b].prefix == batches[b].prefix
    requires p.batch.Some? && p.batch.value in batches' ==>
        d.serial == Numbered(batches'[p.batch.value].prefix, p.place)
    ensures SerialsOk(devices[id := d], batches', paid[id := p])
  {
    hide Numbered;
  }

  lemma SerialsSame(devices: map<Id, Device>, devices': map<Id, Device>, batches: map<Id, Batch>,
      batches': map<Id, Batch>, paid: map<Id, Payment>)
    requires SerialsOk(devices, batches, paid)
    requires forall e :: e in paid && paid[e].batch.Some? ==> paid[e].batch.value in batches
    requires forall b :: b in batches ==> b in batches' && batches'[b].prefix == batches[b].prefix
    requires forall e :: e in devices' ==> e in devices && Ages(devices[e], devices'[e])
    ensures SerialsOk(devices', batches', paid)
  {
    hide Numbered;
  }

  lemma SerialsKept(s: State, op: Op)
    requires Inv(s) && Allowed(s, op)
    ensures SerialsOk(Do(s, op).t.devices, Do(s, op).t.batches, Do(s, op).h.paid)
  {
    Frames(s, op);
    hide TokensOk, HashesOk, RelaysOk, SnapshotsOk, Numbered, NameTaken, TokenReady, IdentityTaken, PaidBy;
    if Transact(s.t, op).None? {
      hide Transact;
      return;
    }
    assert op.CreateBatch? ==> op.id in Mints(op);
    PrefixesStay(s.t, op);
    if op.Enroll? {
      assert op.id in Mints(op);
      SerialMade(s.t.devices, s.t.batches, Do(s, op).t.batches, s.h.paid, op.id,
        NewDevice(op.who, op.plan.serial, op.host), Do(s, op).h.paid[op.id]);
    } else {
      DevicesAge(s.t, op);
      SerialsSame(s.t.devices, Do(s, op).t.devices, s.t.batches, Do(s, op).t.batches, s.h.paid);
      hide Transact, SerialsOk;
    }
  }

  // ---------- minted identifiers ----------

  /** A row is inserted only under an identifier the operation minted. */
  lemma RowsAreMinted(t: Tables, op: Op)
    requires Transact(t, op).Some?
    ensures var t' := Transact(t, op).value;
            && t'.hosts.Keys <= t.hosts.Keys + Mints(op)
            && t'.batches.Keys <= t.batches.Keys + Mints(op)
            && t'.grants.Keys <= t.grants.Keys + Mints(op)
  {
    TableFrames(t, op);
    if op.Enroll? {
      hide NameTaken, TokenReady, IdentityTaken, NewHost, NewDevice, SpendToken;
    } else if op.CreateHost? || op.UpdateHost? || op.DeleteHost? || op.Touch? || op.DeleteDevice? {
      hide NameTaken, WithDefaults, Expired, SameIdentity, WithoutHost, RevokedRow;
    } else if op.CreateGrant? || op.IssueAccess? || op.Acknowledge? || op.CreateBatch? || op.CloseBatch? {
      hide Available, Installed, BatchTaken;
    } else {
      hide Transact, Mints;
    }
  }

  lemma MintedKept(s: State, op: Op)
    requires Inv(s) && Allowed(s, op)
    ensures MintedOk(Do(s, op).t, Do(s, op).h)
  {
    Frames(s, op);
    hide BatchesOk, TokensOk, HashesOk, DevicesOk, SerialsOk, RelaysOk, SnapshotsOk, Numbered;
    if Transact(s.t, op).Some? {
      RowsAreMinted(s.t, op);
    }
    hide Transact;
  }

  // ---------- relays ----------

  lemma AgedHasDevice(was: map<Id, Device>, now: map<Id, Device>, gone: Option<Id>, revoked: Option<Id>, host: Id)
    requires Aged(was, now, gone, revoked) && HasDevice(was, host)
    requires revoked.Some? && revoked.value in was ==> was[revoked.value].host != host
    requires gone != Some(host)
    ensures HasDevice(now, host)
  {
    var d :| d in was && was[d].host == host && !was[d].revoked;
    assert d in now;
  }

  /** A live device stays one, unless it is revoked or its host is deleted. */
  lemma HasDeviceStays(s: State, op: Op, host: Id)
    requires Inv(s) && Allowed(s, op) && Transact(s.t, op).Some? && HasDevice(s.t.devices, host)
    requires op != DeleteHost(host) && !(op.DeleteDevice? && op.host == host)
    ensures HasDevice(Do(s, op).t.devices, host)
  {
    hide BatchesOk, TokensOk, HashesOk, SerialsOk, RelaysOk, SnapshotsOk, Numbered, Remember;
    if op.Enroll? {
      assert op.id in Mints(op);
      EnrolledHasDevice(s.t, op, host);
      hide Transact, MintedOk, Mints, DevicesOk, HasDevice;
    } else {
      DevicesAge(s.t, op);
      hide Transact, MintedOk, Mints, Aged, HasDevice;
      AgedHasDevice(s.t.devices, Do(s, op).t.devices, HostGone(op), DeviceRevoked(op), host);
    }
  }

  lemma EnrolledHasDevice(t: Tables, op: Op, host: Id)
    requires op.Enroll? && Transact(t, op).Some? && HasDevice(t.devices, host) && op.id !in t.devices
    ensures HasDevice(Transact(t, op).value.devices, host)
  {
    hide NameTaken, PlaceReady, TokenReady, SpendPlace, SpendToken, NewHost, IdentityTaken;
    var d :| d in t.devices && t.devices[d].host == host && !t.devices[d].revoked;
    var now := Transact(t, op).value.devices;
    assert now == t.devices[op.id := NewDevice(op.who, op.plan.serial, op.host)];
    assert d in now && now[d] == t.devices[d];
  }

  /** A new relay row is for an available host; a removed host or a revoked device keeps none. */
  lemma RelayRows(t: Tables, op: Op)
    requires Transact(t, op).Some?
    ensures var t' := Transact(t, op).value;
            forall r :: r in t'.relays ==>
              && ((r in t.relays && t'.relays[r] == t.relays[r]) || Available(t, t'.relays[r].host))
              && op != DeleteHost(t'.relays[r].host)
              && (op.DeleteDevice? ==> op.host != t'.relays[r].host)
  {
    TableFrames(t, op);
    hide Available;
    if op.DeleteHost? || op.CreateRelay? || op.RenewRelay? || op.DeleteDevice? {
      hide Expired;
    } else {
      hide Transact;
    }
  }

  lemma RelaysKept(s: State, op: Op)
    requires Inv(s) && Allowed(s, op)
    ensures RelaysOk(Do(s, op).t)
  {
    if Transact(s.t, op).Some? {
      RelayRows(s.t, op);
      var t' := Do(s, op).t;
      forall r | r in t'.relays ensures HasDevice(t'.devices, t'.relays[r].host) {
        HasDeviceStays(s, op, t'.relays[r].host);
        hide Transact, HasDevice;
      }
    }
  }
}
