/** What holds of the tables in every run: enrollments are paid for once, revocation is final. */
module AccessTheorems {
  import opened Prelude
  import opened AccessTables
  import opened AccessRuns
  import opened AccessInvariant
  import opened AccessSnapshots

  // ---------- enrollment ----------

  /** A batch has counted exactly the enrollments it paid for, within its limit, each under its own number. */
  lemma EnrollmentConserved(trace: seq<State>, ops: seq<Op>, i: nat, b: Id)
    requires Run(trace, ops) && i < |trace| && b in trace[i].t.batches
    ensures var s, batch := trace[i], trace[i].t.batches[b];
            && batch.used == |PaidBy(s.h.paid, b)| <= batch.max
            && (batch.open ==> batch.used < batch.max)
            && (forall d :: d in PaidBy(s.h.paid, b) ==> 1 <= s.h.paid[d].place <= batch.used)
            && (forall d, e ::
                  d in PaidBy(s.h.paid, b) && e in PaidBy(s.h.paid, b) && s.h.paid[d].place == s.h.paid[e].place ==>
                    d == e)
            && (forall d :: d in PaidBy(s.h.paid, b) && d in s.t.devices ==>
                  s.t.devices[d].serial == Numbered(batch.prefix, s.h.paid[d].place))
  {
    hide Run, Numbered;
    Reachable(trace, ops, i);
    hide TokensOk, HashesOk, RelaysOk, MintedOk, SnapshotsOk;
  }

  /** Every device was paid for and has a host, a key and a serial of its own. */
  lemma DevicesAreDistinct(trace: seq<State>, ops: seq<Op>, i: nat, d: Id, e: Id)
    requires Run(trace, ops) && i < |trace| && d in trace[i].t.devices && e in trace[i].t.devices
    ensures trace[i].t.devices[d].host in trace[i].t.hosts
    ensures d in trace[i].h.paid
    ensures var x, y := trace[i].t.devices[d], trace[i].t.devices[e];
            d != e ==> x.host != y.host && x.key != y.key && x.serial != y.serial
  {
    hide Run;
    Reachable(trace, ops, i);
    hide BatchesOk, TokensOk, HashesOk, SerialsOk, RelaysOk, MintedOk, SnapshotsOk;
  }

  lemma PaymentsStay(s: State, op: Op, d: Id)
    requires Inv(s) && Allowed(s, op) && d in s.h.paid
    ensures d in Do(s, op).h.paid && Do(s, op).h.paid[d] == s.h.paid[d]
  {
    Frames(s, op);
    if op.Enroll? {
      assert op.id in Mints(op);
      hide Transact, BatchesOk, TokensOk, HashesOk, DevicesOk, SerialsOk, RelaysOk, SnapshotsOk;
    } else {
      hide Do;
    }
  }

  lemma {:induction false} PaymentsAreFinal(trace: seq<State>, ops: seq<Op>, i: nat, j: nat, d: Id)
    requires Run(trace, ops) && i <= j < |trace| && d in trace[i].h.paid
    ensures d in trace[j].h.paid && trace[j].h.paid[d] == trace[i].h.paid[d]
  {
    hide *;
    if i == j {
    } else {
      RunStarts(trace, ops);
      PaymentsAreFinal(trace, ops, i, j - 1, d);
      Reachable(trace, ops, j - 1);
      RunSteps(trace, ops, j - 1);
      PaymentsStay(trace[j - 1], ops[j - 1], d);
    }
  }

  /** A one-use token that paid for a device is gone for good, and pays for no other device, ever. */
  lemma TokenPaysOnce(trace: seq<State>, ops: seq<Op>, i: nat, j: nat, d: Id, e: Id)
    requires Run(trace, ops) && i <= j < |trace| && d in trace[i].h.paid && trace[i].h.paid[d].token.Some?
    ensures trace[i].h.paid[d].token.value !in trace[j].t.tokens
    ensures e in trace[j].h.paid && trace[j].h.paid[e].token == trace[i].h.paid[d].token ==> d == e
  {
    PaymentsAreFinal(trace, ops, i, j, d);
    hide Run;
    Reachable(trace, ops, j);
    hide BatchesOk, HashesOk, DevicesOk, SerialsOk, RelaysOk, MintedOk, SnapshotsOk;
  }

  /**
   An accepted enrollment takes one place or one token, or one of each, and makes one device; a refused one changes
   nothing.
   */
  lemma EnrollmentSpendsOnce(trace: seq<State>, ops: seq<Op>, i: nat)
    requires Run(trace, ops) && i < |ops| && ops[i].Enroll?
    ensures var s, s', op := trace[i], trace[i + 1], ops[i];
            s' == s ||
            (&& s'.h.paid.Keys == s.h.paid.Keys + {op.id} && op.id !in s.h.paid
             && s'.t.devices.Keys == s.t.devices.Keys + {op.id} && op.id !in s.t.devices
             && s'.t.hosts.Keys == s.t.hosts.Keys + {op.host} && op.host !in s.t.hosts
             && s'.t.batches.Keys == s.t.batches.Keys
             && (forall b :: b in s.t.batches ==>
                s'.t.batches[b].used == s.t.batches[b].used + (if op.plan.batch == Some(b) then 1 else 0))
             && (forall k :: k in s.t.tokens ==> (k in s'.t.tokens <==> op.plan.token != Some(k)))
             && (op.plan.token.Some? ==> op.plan.token.value in s.t.tokens))
  {
    hide Run;
    RunSteps(trace, ops, i);
    Reachable(trace, ops, i);
    var s, op := trace[i], ops[i];
    assert op.id in Mints(op) && op.host in Mints(op);
    hide Numbered, BatchesOk, TokensOk, HashesOk, SerialsOk, RelaysOk, SnapshotsOk, NameTaken, IdentityTaken;
  }

  // ---------- revocation ----------

  /** A host once used, without a device that is not revoked. */
  predicate Retired(s: State, host: Id) {
    host in s.h.minted && !HasDevice(s.t.devices, host)
  }

  lemma RetiredStays(s: State, op: Op, host: Id)
    requires Inv(s) && Allowed(s, op) && Retired(s, host)
    ensures Retired(Do(s, op), host)
  {
    Frames(s, op);
    hide BatchesOk, TokensOk, HashesOk, DevicesOk, SerialsOk, RelaysOk, SnapshotsOk, MintedOk, Numbered;
    if Transact(s.t, op).None? {
      hide Transact;
    } else if op.Enroll? {
      assert op.host in Mints(op);
      hide PlaceReady, TokenReady, NameTaken, IdentityTaken;
    } else {
      DevicesAge(s.t, op);
      hide Transact;
    }
  }

  /** Revoking a device retires its host: it had no other device. */
  lemma RevocationRetires(s: State, op: Op)
    requires Inv(s) && Allowed(s, op) && op.DeleteDevice?
    ensures Retired(Do(s, op), op.host)
  {
    hide BatchesOk, TokensOk, HashesOk, SerialsOk, RelaysOk, SnapshotsOk;
    assert op.id in s.h.paid;
  }

  lemma {:induction false} RetiredForever(trace: seq<State>, ops: seq<Op>, i: nat, j: nat, host: Id)
    requires Run(trace, ops) && i <= j < |trace| && Retired(trace[i], host)
    ensures Retired(trace[j], host)
  {
    hide *;
    if i == j {
    } else {
      RunStarts(trace, ops);
      RetiredForever(trace, ops, i, j - 1, host);
      Reachable(trace, ops, j - 1);
      RunSteps(trace, ops, j - 1);
      RetiredStays(trace[j - 1], ops[j - 1], host);
    }
  }

  /** Issue, renew and heartbeat calls for a host. */
  predicate Reaches(op: Op, host: Id) {
    || (op.CreateGrant? && op.grant.host == host)
    || (op.IssueAccess? && op.host == host)
    || (op.CreateRelay? && op.host == host)
    || (op.RenewRelay? && op.host == host)
    || (op.Touch? && op.host == host)
  }

  lemma RetiredRefuses(t: Tables, op: Op, host: Id)
    requires !HasDevice(t.devices, host) && Reaches(op, host)
    ensures Transact(t, op) == Some(t)
  {
  }

  lemma RetiredHasNothing(s: State, host: Id, account: string, now: int)
    requires Retired(s, host) && RelaysOk(s.t)
    ensures KeyLines(s.t, Login(host, account), now) == {} && LiveGrants(s.t, Login(host, account), now) == {}
    ensures forall r :: r in s.t.relays ==> s.t.relays[r].host != host
  {
    hide HasDevice;
  }

  /**
   After a device is revoked its host never again has a key line, a live grant or a relay
   grant, and no issue, renew or heartbeat changes a table, whatever else happens: an edited
   host status, a deleted host, other enrollments.
   */
  lemma RevocationIsPermanent(trace: seq<State>, ops: seq<Op>, i: nat, j: nat)
    requires Run(trace, ops) && i < j < |trace| && ops[i].DeleteDevice?
    ensures forall account, now :: KeyLines(trace[j].t, Login(ops[i].host, account), now) == {}
    ensures forall account, now :: LiveGrants(trace[j].t, Login(ops[i].host, account), now) == {}
    ensures forall r :: r in trace[j].t.relays ==> trace[j].t.relays[r].host != ops[i].host
    ensures forall op :: Reaches(op, ops[i].host) ==> Transact(trace[j].t, op) == Some(trace[j].t)
  {
    var host, t := ops[i].host, trace[j].t;
    RevokedRunRetires(trace, ops, i, j);
    hide *;
    RetiredRow(trace, ops, j, host);
    forall op | Reaches(op, host) ensures Transact(t, op) == Some(t) {
      RetiredRefusesState(trace[j], op, host);
    }
    forall account, now
      ensures KeyLines(t, Login(host, account), now) == {} && LiveGrants(t, Login(host, account), now) == {}
    {
      RetiredHasNothing(trace[j], host, account, now);
    }
    RetiredHasNothing(trace[j], host, "", 0);
  }

  lemma RetiredRefusesState(s: State, op: Op, host: Id)
    requires Retired(s, host) && Reaches(op, host)
    ensures Transact(s.t, op) == Some(s.t)
  {
    RetiredRefuses(s.t, op, host);
  }

  lemma RetiredRow(trace: seq<State>, ops: seq<Op>, j: nat, host: Id)
    requires Run(trace, ops) && j < |trace|
    ensures RelaysOk(trace[j].t)
  {
    hide Run;
    Reachable(trace, ops, j);
  }

  lemma RevokedRunRetires(trace: seq<State>, ops: seq<Op>, i: nat, j: nat)
    requires Run(trace, ops) && i < j < |trace| && ops[i].DeleteDevice?
    ensures Retired(trace[j], ops[i].host)
  {
    hide *;
    RunStarts(trace, ops);
    Reachable(trace, ops, i);
    RunSteps(trace, ops, i);
    RevocationRetires(trace[i], ops[i]);
    RetiredForever(trace, ops, i + 1, j, ops[i].host);
  }

  /**
   A revoked device's host is retired already: the transaction that a second revocation skips
   would revoke nothing and remove no relay grant. It could only put back a status edited since.
   */
  lemma RevokedHostIsRetired(trace: seq<State>, ops: seq<Op>, i: nat, d: Id, now: int)
    requires Run(trace, ops) && i < |trace| && d in trace[i].t.devices && trace[i].t.devices[d].revoked
    ensures var t := trace[i].t;
            var t' := AccessTables.DeleteDevice(t, d, t.devices[d].host, now);
            Retired(trace[i], t.devices[d].host) && t'.devices == t.devices && t'.relays == t.relays
  {
    hide Run;
    Reachable(trace, ops, i);
    hide BatchesOk, TokensOk, HashesOk, SerialsOk, SnapshotsOk;
    var t := trace[i].t;
    var host := t.devices[d].host;
    assert !HasDevice(t.devices, host);
    assert forall r :: r in t.relays ==> t.relays[r].host != host;
    assert WithoutHost(t.relays, host) == t.relays;
  }

  // ---------- heartbeats ----------

  function One(b: bool): int {
    if b then 1 else 0
  }

  /** The rows a heartbeat's three statements touch; it reports success for three. */
  function TouchedRows(t: Tables, id: Id, host: Id, endpoint: string, fingerprint: string): int {
    One(OwnLiveDevice(t, id, host) && SameIdentity(t, id, endpoint, fingerprint))
    + One(OwnLiveDevice(t, id, host) && host in t.hosts)
    + One(OwnLiveDevice(t, id, host))
  }

  /** A heartbeat succeeds exactly for a device that is not revoked, on its own host, with its enrolled identity. */
  lemma HeartbeatExact(trace: seq<State>, ops: seq<Op>, i: nat, id: Id, host: Id, endpoint: string, fingerprint: string)
    requires Run(trace, ops) && i < |trace|
    ensures TouchedRows(trace[i].t, id, host, endpoint, fingerprint) == 3 <==>
              OwnLiveDevice(trace[i].t, id, host) && SameIdentity(trace[i].t, id, endpoint, fingerprint)
  {
    hide Run;
    Reachable(trace, ops, i);
    hide BatchesOk, TokensOk, HashesOk, SerialsOk, RelaysOk, MintedOk, SnapshotsOk;
  }

  /**
   While a device row stands it keeps the endpoint and the fingerprint it enrolled with, and its identifier is never
   used again.
   */
  ghost predicate StillItself(s: State, id: Id, endpoint: string, fingerprint: string) {
    id in s.h.minted && (id in s.t.devices ==> SameIdentity(s.t, id, endpoint, fingerprint))
  }

  lemma EnrolledMakesOne(t: Tables, op: Op, id: Id)
    requires op.Enroll? && Transact(t, op).Some? && id != op.id
    ensures var now := Transact(t, op).value.devices;
            (id in now <==> id in t.devices) && (id in now ==> now[id] == t.devices[id])
  {
    hide NameTaken, IdentityTaken, PlaceReady, TokenReady, SpendPlace, SpendToken, NewHost, NewDevice;
  }

  lemma StaysItself(s: State, op: Op, id: Id, endpoint: string, fingerprint: string)
    requires Allowed(s, op) && StillItself(s, id, endpoint, fingerprint)
    ensures StillItself(Do(s, op), id, endpoint, fingerprint)
  {
    Frames(s, op);
    if Transact(s.t, op).None? {
      hide Transact;
    } else if op.Enroll? {
      assert op.id in Mints(op);
      EnrolledMakesOne(s.t, op, id);
      hide Transact;
    } else {
      DevicesAge(s.t, op);
      hide Transact;
    }
  }

  lemma {:induction false} ItselfForever(trace: seq<State>, ops: seq<Op>, i: nat, j: nat, id: Id, endpoint: string,
      fingerprint: string)
    requires Run(trace, ops) && i <= j < |trace| && StillItself(trace[i], id, endpoint, fingerprint)
    ensures StillItself(trace[j], id, endpoint, fingerprint)
  {
    hide *;
    if i == j {
    } else {
      RunStarts(trace, ops);
      ItselfForever(trace, ops, i, j - 1, id, endpoint, fingerprint);
      RunSteps(trace, ops, j - 1);
      StaysItself(trace[j - 1], ops[j - 1], id, endpoint, fingerprint);
    }
  }

  /**
   A heartbeat is sent on only after the identity it claims was found in the device's row, at
   step `i`. Whatever happens until its statements run, at step `j`, it succeeds exactly if the
   device is still there and not revoked, and otherwise writes nothing.
   */
  lemma VerifiedHeartbeatIsAllOrNothing(trace: seq<State>, ops: seq<Op>, i: nat, j: nat,
                                        id: Id, host: Id, endpoint: string, fingerprint: string, status: Status,
                                          d: Discovery, now: int)
    requires Run(trace, ops) && i <= j < |trace| && SameIdentity(trace[i].t, id, endpoint, fingerprint)
    ensures TouchedRows(trace[j].t, id, host, endpoint, fingerprint) == 3 <==> OwnLiveDevice(trace[j].t, id, host)
    ensures TouchedRows(trace[j].t, id, host, endpoint, fingerprint) != 3 ==>
              AccessTables.Touch(trace[j].t, id, host, endpoint, fingerprint, status, d, now) == trace[j].t
  {
    hide Run;
    DeviceIsMinted(trace, ops, i, id);
    ItselfForever(trace, ops, i, j, id, endpoint, fingerprint);
    HeartbeatExact(trace, ops, j, id, host, endpoint, fingerprint);
    hide TouchedRows;
  }

  lemma DeviceIsMinted(trace: seq<State>, ops: seq<Op>, i: nat, id: Id)
    requires Run(trace, ops) && i < |trace| && id in trace[i].t.devices
    ensures id in trace[i].h.minted
  {
    hide Run;
    Reachable(trace, ops, i);
    hide BatchesOk, TokensOk, HashesOk, SerialsOk, RelaysOk, SnapshotsOk;
  }

  lemma TouchWrites(t: Tables, id: Id, host: Id, endpoint: string, fingerprint: string, status: Status, d: Discovery,
      now: int)
    requires OwnLiveDevice(t, id, host)
    ensures var t' := AccessTables.Touch(t, id, host, endpoint, fingerprint, status, d, now);
            host in t'.discovery && t'.discovery[host] == d
  {
    hide SameIdentity;
  }

  /**
   That check is needed: the statements alone, given another identity, are refused and write all the same, unless
   the device is missing or revoked.
   */
  lemma UnverifiedHeartbeatWritesIff(t: Tables, id: Id, host: Id, endpoint: string, fingerprint: string)
    requires TouchedRows(t, id, host, endpoint, fingerprint) != 3
    ensures (forall status, d, now :: AccessTables.Touch(t, id, host, endpoint, fingerprint, status, d, now) == t)
            <==> !OwnLiveDevice(t, id, host)
  {
    if OwnLiveDevice(t, id, host) {
      var d := Discovery([], [], if host in t.discovery then t.discovery[host].updated + 1 else 0);
      TouchWrites(t, id, host, endpoint, fingerprint, Revoked, d, 0);
      hide AccessTables.Touch;
      assert AccessTables.Touch(t, id, host, endpoint, fingerprint, Revoked, d, 0) != t;
    }
  }

  /**
   A host whose status alone says revoked is opened again by its own device's next heartbeat; it stays shut exactly
   when it has no device left.
   */
  lemma StatusAloneIsNotFinal(t: Tables, host: Id, status: Status, d: Discovery, now: int)
    requires host in t.hosts && t.hosts[host].status == Revoked && status != Revoked
    ensures (forall id, endpoint, fingerprint ::
        !Available(AccessTables.Touch(t, id, host, endpoint, fingerprint, status, d, now), host))
            <==> !HasDevice(t.devices, host)
  {
    if HasDevice(t.devices, host) {
      var id :| id in t.devices && t.devices[id].host == host && !t.devices[id].revoked;
      var t' := AccessTables.Touch(t, id, host, "", "", status, d, now);
      assert id in t'.devices && t'.devices[id].host == host && !t'.devices[id].revoked;
      assert Available(t', host);
    } else {
      forall id, endpoint, fingerprint
        ensures !Available(AccessTables.Touch(t, id, host, endpoint, fingerprint, status, d, now), host)
      {
        TouchAges(t, id, host, endpoint, fingerprint, status, d, now);
      }
    }
  }
}
