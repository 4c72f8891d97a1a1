/**
 Opens that come later: from any reachable state they settle when nobody interferes, whoever left
 the fence behind; and the one way a process can come to settle on a database that is not migrated.
 */
module TrustJoins {
  import opened Prelude
  import opened AnchorRecord
  import opened TrustState
  import opened TrustInvariant
  import opened TrustRuns
  import opened TrustProgress
  import Theorems = TrustTheorems

  const FIRST := Startup(None, false)

  /** The state after an Open. */
  function Arrived(s: State, own: Binding, sh: Shared, pc: SettlePc): State {
    With(Opened(s, own), s.next, sh, Opening(FIRST, pc))
  }

  lemma Arrives(s: State, own: Binding)
    ensures Leads(s, Arrived(s, own, s.sh, Idle))
  {
    hide Leads;
    LeadsByStep(s, Open(own), Arrived(s, own, s.sh, Idle));
  }

  // ---------- nothing pending ----------

  lemma VerifiesAtStartup(from: State, b: State, p: Process, sh: Shared) returns (s': State)
    requires Leads(from, With(b, p, sh, Opening(FIRST, StartupRead)))
    requires Valid(BoundTo(b, p), sh.record) && sh.record.pendingEpoch.None? && sh.db.row == Some(PairOf(sh.record))
    ensures s' == With(b, p, sh, Settled) && Leads(from, s')
  {
    hide Leads, With, WriteMove, ReadMove, SettleLook, RecoverMove, FenceMove, BeginMove;
    s' := With(b, p, sh, Settled);
    MoveOn(from, b, p, sh, Opening(FIRST, StartupRead), "", sh, Opening(FIRST, StartupVerify(sh.record)));
    hide Valid;
    MoveOn(from, b, p, sh, Opening(FIRST, StartupVerify(sh.record)), "", sh, Settled);
  }

  function AfterCatchUp(target: Option<Record>): SettlePc {
    if target.Some? then FinalizeRead(target.value) else StartupRead
  }

  function CaughtUp(sh: Shared): Shared {
    if sh.db.migrated then sh else ApplyMigrate(sh.(migrates := true))
  }

  /** Catch-up migrates the database if it has to, and changes nothing else. */
  lemma CatchesUp(from: State, b: State, p: Process, sh: Shared, st: Startup, target: Option<Record>)
    requires Leads(from, With(b, p, sh, Opening(st, CatchUp(target))))
    ensures Leads(from, With(b, p, CaughtUp(sh), Opening(st, AfterCatchUp(target))))
  {
    hide Leads, With, WriteMove, ReadMove, SettleLook, RecoverMove, FenceMove, BeginMove;
    if sh.db.migrated {
      MoveOn(from, b, p, sh, Opening(st, CatchUp(target)), "", sh, Opening(st, CatchUpMarker(target)));
    } else {
      var asked := sh.(migrates := true);
      MoveOn(from, b, p, sh, Opening(st, CatchUp(target)), "", asked, Opening(st, CatchUpMarker(target)));
      EnvironmentOn(from, b, p, asked, Opening(st, CatchUpMarker(target)), DbMigrate, CaughtUp(sh));
    }
    var done := CaughtUp(sh);
    MoveOn(from, b, p, done, Opening(st, CatchUpMarker(target)), "", done, Opening(st, AfterCatchUp(target)));
  }

  /** With nothing pending the row is compared, after a catch-up if the schema is behind. */
  lemma QuietJoins(s: State, own: Binding) returns (s': State)
    requires Valid(own, s.sh.record) && s.sh.record.pendingEpoch.None? && s.sh.db.row == Some(PairOf(s.sh.record))
    requires s.sh.db.migrated || !s.sh.record.bootstrap
    ensures s' == With(Opened(s, own), s.next, CaughtUp(s.sh), Settled) && Leads(s, s')
  {
    var b, p, sh, rec, v := Opened(s, own), s.next, s.sh, s.sh.record, s.sh.rv;
    hide Leads, With, WriteMove, ReadMove, RecoverMove, FenceMove, FinishMove;
    Arrives(s, own);
    MoveOn(s, b, p, sh, Opening(FIRST, Idle), "", sh, Opening(FIRST, MarkerCheck(rec, v)));
    var next := if sh.db.migrated then StartupRead else CatchUp(None);
    MoveOn(s, b, p, sh, Opening(FIRST, MarkerCheck(rec, v)), "", sh, Opening(FIRST, next));
    if !sh.db.migrated {
      CatchesUp(s, b, p, sh, FIRST, None);
    }
    s' := VerifiesAtStartup(s, b, p, CaughtUp(sh));
  }

  // ---------- a pending fence ----------

  lemma PeerLooks(s: State, own: Binding)
    requires Valid(own, s.sh.record) && s.sh.record.pendingEpoch.Some?
    ensures Leads(s, Arrived(s, own, s.sh, PeerCheck(s.sh.record, s.sh.rv)))
  {
    var b, p, sh := Opened(s, own), s.next, s.sh;
    hide Leads, With, WriteMove, ReadMove, RecoverMove, FenceMove, FinishMove, BeginMove;
    Arrives(s, own);
    MoveOn(s, b, p, sh, Opening(FIRST, Idle), "", sh, Opening(FIRST, PeerCheck(sh.record, sh.rv)));
  }

  /** A fence whose pair the database shows is converged: caught up and finalized. */
  lemma CommittedJoins(s: State, own: Binding) returns (s': State)
    requires Valid(own, s.sh.record) && s.sh.record.pendingEpoch.Some? && !s.sh.legacy && |s.sh.cas| !in s.sh.applied
    requires s.sh.db.row == Some(PendingPair(s.sh.record))
    ensures Leads(s, s') && s.next in s'.procs && s'.procs[s.next] == Settled
    ensures s'.sh.record == Finalized(s.sh.record) && s'.sh.db == CaughtUp(s.sh).db
  {
    var b, p, sh, rec := Opened(s, own), s.next, s.sh, s.sh.record;
    hide Leads, With, Valid, WriteMove, ReadMove, RecoverMove, FenceMove, FinishMove, BeginMove, SettleLook;
    PeerLooks(s, own);
    MoveOn(s, b, p, sh, Opening(FIRST, PeerCheck(rec, sh.rv)), "", sh, Opening(FIRST, CatchUp(Some(rec))));
    CatchesUp(s, b, p, sh, FIRST, Some(rec));
    s' := OpenFinishes(s, b, p, CaughtUp(sh), rec, FIRST);
  }

  function ClearedBy(sh: Shared, p: Process): Shared
    requires !sh.legacy && |sh.cas| !in sh.applied
  {
    ApplyCas(SendCas(sh, p, sh.rv, Cleared(sh.record)), |sh.cas|)
  }

  /** A fence whose request was rejected is cleared, over the anchored pair. */
  lemma RejectedJoins(s: State, own: Binding) returns (s': State)
    requires Valid(own, s.sh.record) && s.sh.record.pendingEpoch.Some? && !s.sh.legacy && |s.sh.cas| !in s.sh.applied
    requires OutcomeIs(s.sh, s.sh.record.pendingId, Rejected) && s.sh.db.row == Some(PairOf(s.sh.record))
    ensures Leads(s, s') && s' == With(Opened(s, own), s.next, ClearedBy(s.sh, s.next), Settled)
    ensures s'.sh.record == Cleared(s.sh.record) && s'.sh.db == s.sh.db
  {
    var b, p, sh, rec, v, n := Opened(s, own), s.next, s.sh, s.sh.record, s.sh.rv, |s.sh.cas|;
    hide Leads, With, Valid, WriteMove, ReadMove, FenceMove, FinishMove, BeginMove, SettleLook;
    PeerLooks(s, own);
    assert sh.db.row != Some(PendingPair(rec)) by {
      PendingIsAhead(own, rec);
    }
    MoveOn(s, b, p, sh, Opening(FIRST, PeerCheck(rec, v)), "", sh, Opening(FIRST, Recover(rec, v)));
    MoveOn(s, b, p, sh, Opening(FIRST, Recover(rec, v)), "", sh, Opening(FIRST, RecoverRejected(rec, v)));
    var sent := SendCas(sh, p, v, Cleared(rec));
    MoveOn(s, b, p, sh, Opening(FIRST, RecoverRejected(rec, v)), "", sent, Opening(FIRST, Publishing(n)));
    var done := ClearedBy(sh, p);
    EnvironmentOn(s, b, p, sent, Opening(FIRST, Publishing(n)), AnchorApply(n), done);
    PublishesIt(s, b, p, done, FIRST, n);
    s' := With(b, p, done, Settled);
    WithIs(b, p, done, Settled);
  }

  lemma PublishesIt(from: State, b: State, p: Process, sh: Shared, st: Startup, n: nat)
    requires Leads(from, With(b, p, sh, Opening(st, Publishing(n)))) && n in sh.applied
    ensures Leads(from, With(b, p, sh, Settled))
  {
    hide Leads, With, WriteMove, ReadMove, SettleLook, RecoverMove, FenceMove, BeginMove;
    MoveOn(from, b, p, sh, Opening(st, Publishing(n)), "", sh, Settled);
  }

  lemma PendingIsAhead(own: Binding, rec: Record)
    requires Valid(own, rec) && rec.pendingEpoch.Some?
    ensures PendingPair(rec) != PairOf(rec)
  {
    hide ValidUuid;
  }

  // ---------- every later Open ----------

  /** The anchor is not waiting for an unknown outcome, and the database shows what it stands for. */
  ghost predicate Joinable(s: State) {
    if s.sh.record.pendingEpoch.None? then
      s.sh.db.row == Some(PairOf(s.sh.record)) && (s.sh.db.migrated || !s.sh.record.bootstrap)
    else
      || s.sh.db.row == Some(PendingPair(s.sh.record))
      || (OutcomeIs(s.sh, s.sh.record.pendingId, Rejected) && s.sh.db.row == Some(PairOf(s.sh.record)))
  }

  lemma AnchorIsReady(s: State)
    requires Inv(s)
    ensures |s.sh.cas| !in s.sh.applied && (s.sh.record.pendingEpoch.Some? ==> !s.sh.legacy)
  {
    hide HistoryOk, IdsOk, FencesOk, RequestsOk, CassesOk, DbsOk, AnswersOk, ProcsOk, MintsOk, ValidStructure;
  }

  /** From any such state an undisturbed Open with the anchor's binding settles. */
  lemma JoinableSettles(s: State, own: Binding) returns (s': State)
    requires Inv(s) && Joinable(s) && Valid(own, s.sh.record)
    ensures Leads(s, s') && s.next in s'.procs && s'.procs[s.next] == Settled
    ensures s'.sh.record.pendingEpoch.None? && s'.sh.db.row == Some(PairOf(s'.sh.record))
  {
    AnchorIsReady(s);
    hide Inv, Leads, Valid;
    if s.sh.record.pendingEpoch.None? {
      s' := QuietJoins(s, own);
    } else if s.sh.db.row == Some(PendingPair(s.sh.record)) {
      s' := CommittedJoins(s, own);
    } else {
      s' := RejectedJoins(s, own);
    }
  }

  lemma FencedIsJoinable(s: State)
    requires Theorems.FenceHolds(s.sh) && !s.sh.record.bootstrap
    requires s.sh.record.pendingEpoch.Some? ==> s.sh.record.pendingId in s.sh.outcomes
    ensures Joinable(s)
  {
  }

  /**
   In every run whose restores lose no fenced write: once the bootstrap is spent, and unless a fence
   with an unknown outcome is pending, an undisturbed Open settles.
   */
  lemma LaterOpenSettles(trace: seq<State>, steps: seq<Step>, i: nat, own: Binding) returns (s': State)
    requires Run(trace, steps) && Init(trace[0]) && i < |trace| && Theorems.LosesNothing(trace, steps, i)
    requires !trace[i].sh.record.bootstrap && Valid(own, trace[i].sh.record)
    requires trace[i].sh.record.pendingEpoch.Some? ==> trace[i].sh.record.pendingId in trace[i].sh.outcomes
    ensures Leads(trace[i], s') && trace[i].next in s'.procs && s'.procs[trace[i].next] == Settled
    ensures s'.sh.record.pendingEpoch.None? && s'.sh.db.row == Some(PairOf(s'.sh.record))
  {
    Reachable(trace, steps, i);
    Theorems.FenceInvariant(trace, steps, i);
    hide *;
    FencedIsJoinable(trace[i]);
    s' := JoinableSettles(trace[i], own);
  }

  // ---------- the owner of a fence ----------

  /** The one authorized request is still to be executed: over its base pair, with no outcome known. */
  ghost predicate Unexecuted(sh: Shared, r: Record) {
    sh.db.row == Some(PairOf(r)) && r.pendingId !in sh.outcomes
  }

  lemma OwnerMigrates(from: State, b: State, p: Process, sh: Shared, st: Startup, r: Record)
    requires Leads(from, With(b, p, sh, Opening(st, FenceCheck(r)))) && r.pendingEpoch.Some?
    requires Unexecuted(sh, r) && PendingPair(r) != PairOf(r)
    ensures Leads(from, With(b, p, ApplyMigrate(sh.(migrates := true)), Opening(st, FenceMarker(r))))
  {
    hide Leads, With, WriteMove, ReadMove, SettleLook, RecoverMove, FinishMove, BeginMove;
    MoveOn(from, b, p, sh, Opening(st, FenceCheck(r)), "", sh, Opening(st, PrepareExists(r)));
    MoveOn(from, b, p, sh, Opening(st, PrepareExists(r)), "", sh, Opening(st, PrepareVerify(r)));
    MoveOn(from, b, p, sh, Opening(st, PrepareVerify(r)), "", sh, Opening(st, FenceMigrate(r)));
    var asked := sh.(migrates := true);
    MoveOn(from, b, p, sh, Opening(st, FenceMigrate(r)), "", asked, Opening(st, FenceMarker(r)));
    EnvironmentOn(from, b, p, asked, Opening(st, FenceMarker(r)), DbMigrate, ApplyMigrate(asked));
  }

  lemma OwnerExecutes(from: State, b: State, p: Process, sh: Shared, st: Startup, r: Record) returns (sh': Shared)
    requires Leads(from, With(b, p, sh, Opening(st, FenceMarker(r)))) && r.pendingEpoch.Some?
    requires Unexecuted(sh, r) && sh.db.migrated && sh.record == r && !sh.legacy && |sh.cas| !in sh.applied
    ensures Leads(from, With(b, p, sh', Opening(st, FinalizeRead(r))))
    ensures sh'.record == r && !sh'.legacy && |sh'.cas| !in sh'.applied
    ensures sh'.db.row == Some(PendingPair(r)) && sh'.db.migrated
  {
    var sent := Executes(from, b, p, sh, r, st);
    var tail := Tail(r.pendingId, PairOf(r), r.pendingEpoch.value);
    sh' := CommitTail(sent, tail);
    hide Leads, With, WriteMove, ReadMove, SettleLook, RecoverMove, FinishMove, BeginMove;
    EnvironmentOn(from, b, p, sent, Opening(st, FenceOutcome(r)), DbCommit(tail), sh');
    MoveOn(from, b, p, sh', Opening(st, FenceOutcome(r)), "", sh', Opening(st, FinalizeRead(r)));
  }

  /** The owner of the pending fence finishes it, whether its request is durable already or still to be executed. */
  lemma OwnerFinishes(from: State, b: State, p: Process, sh: Shared, st: Startup, r: Record) returns (s': State)
    requires Leads(from, With(b, p, sh, Opening(st, FenceCheck(r)))) && Valid(BoundTo(b, p), r)
    requires sh.record == r && r.pendingEpoch.Some? && !sh.legacy && |sh.cas| !in sh.applied
    requires sh.db.row == Some(PendingPair(r)) || Unexecuted(sh, r)
    ensures Leads(from, s') && p in s'.procs && s'.procs[p] == Settled
    ensures s'.sh.record == Finalized(r) && s'.sh.db.row == Some(PairOf(s'.sh.record)) && s'.sh.db.migrated
  {
    PendingIsAhead(BoundTo(b, p), r);
    hide Leads, With, Valid, WriteMove, ReadMove, SettleLook, RecoverMove, FinishMove, BeginMove;
    if sh.db.row == Some(PendingPair(r)) {
      MoveOn(from, b, p, sh, Opening(st, FenceCheck(r)), "", sh, Opening(st, CatchUp(Some(r))));
      CatchesUp(from, b, p, sh, st, Some(r));
      s' := OpenFinishes(from, b, p, CaughtUp(sh), r, st);
    } else {
      OwnerMigrates(from, b, p, sh, st, r);
      var sh' := OwnerExecutes(from, b, p, ApplyMigrate(sh.(migrates := true)), st, r);
      s' := OpenFinishes(from, b, p, sh', r, st);
    }
  }

  /**
   An Open that finds its own reservation in the anchor, after a lost answer or a failed attempt,
   settles: with its own fence finalized and not a second one.
   */
  lemma OwnerResumes(s: State, p: Process, st: Startup) returns (s': State)
    requires Inv(s) && p in s.procs && s.procs[p] == Opening(st, Idle) && Valid(BoundTo(s, p), s.sh.record)
    requires s.sh.record.pendingEpoch.Some? && st.attempted == Some(s.sh.record.pendingId)
    requires s.sh.db.row == Some(PendingPair(s.sh.record)) || Unexecuted(s.sh, s.sh.record)
    ensures Leads(s, s') && p in s'.procs && s'.procs[p] == Settled
    ensures s'.sh.record == Finalized(s.sh.record) && s'.sh.db.row == Some(PairOf(s'.sh.record)) && s'.sh.db.migrated
  {
    AnchorIsReady(s);
    var sh, rec, own := s.sh, s.sh.record, st.(reserved := true);
    hide Leads, Inv, WriteMove, ReadMove, RecoverMove, FinishMove, BeginMove, FenceMove;
    LeadsByStep(s, Act(p, ""), With(s, p, sh, Opening(own, FenceCheck(rec))));
    hide With, Next, Valid;
    s' := OwnerFinishes(s, s, p, sh, own, rec);
  }

  /** The identity an Open proposes: the one it minted before, if it did. */
  function Proposes(st: Startup, uuid: string): string {
    if st.attempted.Some? then st.attempted.value else uuid
  }

  function Proposing(sh: Shared, p: Process, st: Startup, uuid: string): Shared {
    SendCas(if st.attempted.Some? then sh else Mint(sh, p, uuid, true), p, sh.rv,
            Reserved(sh.record, Proposes(st, uuid)))
  }

  lemma OwnerProposes(s: State, p: Process, st: Startup, uuid: string)
    requires p in s.procs && s.procs[p] == Opening(st, Idle) && !st.reserved && Valid(BoundTo(s, p), s.sh.record)
    requires s.sh.record.pendingEpoch.None? && s.sh.record.bootstrap && s.sh.record.epoch < MAX_INT64
    requires !s.sh.db.migrated && s.sh.db.row == Some(PairOf(s.sh.record))
    requires st.attempted.Some? || Fresh(s.sh, uuid)
    ensures Leads(s, With(s, p, Proposing(s.sh, p, st, uuid),
                          Opening(st.(attempted := Some(Proposes(st, uuid))),
                                  SettlePc.Reserving(s.sh.record, |s.sh.cas|))))
  {
    var sh, rec, v := s.sh, s.sh.record, s.sh.rv;
    var st' := st.(attempted := Some(Proposes(st, uuid)));
    hide Leads, ValidUuid, WriteMove, ReadMove, RecoverMove, FinishMove, FenceMove;
    LeadsByStep(s, Act(p, uuid), With(s, p, sh, Opening(st, MarkerCheck(rec, v))));
    hide With, Next, Valid, SettleLook;
    MoveOn(s, s, p, sh, Opening(st, MarkerCheck(rec, v)), uuid, sh, Opening(st, BeginExists(rec, v)));
    MoveOn(s, s, p, sh, Opening(st, BeginExists(rec, v)), uuid, sh, Opening(st, BeginVerify(rec, v)));
    MoveOn(s, s, p, sh, Opening(st, BeginVerify(rec, v)), uuid, sh, Opening(st, BeginCas(rec, v)));
    MoveOn(s, s, p, sh, Opening(st, BeginCas(rec, v)), uuid, Proposing(sh, p, st, uuid),
      Opening(st', SettlePc.Reserving(rec, |sh.cas|)));
  }

  lemma ProposalLands(sh: Shared, own: Binding, p: Process, st: Startup, uuid: string) returns (done: Shared)
    requires !sh.legacy && |sh.cas| !in sh.applied && (forall c :: c in sh.applied ==> c < |sh.cas|)
    requires Valid(own, sh.record) && sh.record.pendingEpoch.None? && ValidUuid(Proposes(st, uuid))
    requires sh.db.row == Some(PairOf(sh.record)) && Proposes(st, uuid) !in sh.outcomes
    ensures CanApplyCas(Proposing(sh, p, st, uuid), |sh.cas|)
    ensures done == ApplyCas(Proposing(sh, p, st, uuid), |sh.cas|) && |sh.cas| in done.applied
    ensures done.record == Reserved(sh.record, Proposes(st, uuid)) && Valid(own, done.record)
    ensures !done.legacy && |done.cas| !in done.applied && Unexecuted(done, done.record)
  {
    hide ValidUuid;
    done := ApplyCas(Proposing(sh, p, st, uuid), |sh.cas|);
  }

  lemma ProposalIsKnown(s: State, p: Process, st: Startup, uuid: string)
    requires Inv(s) && p in s.procs && s.procs[p].Opening? && s.procs[p].startup == st && !st.reserved
    requires st.attempted.Some? || Fresh(s.sh, uuid)
    ensures ValidUuid(Proposes(st, uuid)) && Proposes(st, uuid) !in s.sh.outcomes
    ensures forall c :: c in s.sh.applied ==> c < |s.sh.cas|
  {
    hide AnchorOk, HistoryOk, CassesOk, DbsOk, AnswersOk, MintsOk, ValidUuid, SettleOk;
    assert ProcOk(s.sh, p, s.procs[p]);
    assert Proposes(st, uuid) in s.sh.outcomes ==> Proposes(st, uuid) in TailIds(s.sh);
  }

  /**
   While the bootstrap stands over an unmigrated database that shows the anchored pair, an Open
   reserves, under the identity it proposed before if there is one, and settles.
   */
  lemma OwnerBegins(s: State, p: Process, st: Startup, uuid: string) returns (s': State)
    requires Inv(s) && !s.sh.legacy && p in s.procs && s.procs[p] == Opening(st, Idle) && !st.reserved
    requires Valid(BoundTo(s, p), s.sh.record) && s.sh.record.pendingEpoch.None? && s.sh.record.bootstrap
    requires s.sh.record.epoch < MAX_INT64 && !s.sh.db.migrated && s.sh.db.row == Some(PairOf(s.sh.record))
    requires st.attempted.Some? || Fresh(s.sh, uuid)
    ensures Leads(s, s') && p in s'.procs && s'.procs[p] == Settled && s'.sh.db.migrated
    ensures PairOf(s'.sh.record) == Pair(s.sh.record.epoch + 1, Proposes(st, uuid))
    ensures s'.sh.db.row == Some(PairOf(s'.sh.record)) && !s'.sh.record.bootstrap
  {
    AnchorIsReady(s);
    ProposalIsKnown(s, p, st, uuid);
    OwnerProposes(s, p, st, uuid);
    var n := |s.sh.cas|;
    var done := ProposalLands(s.sh, BoundTo(s, p), p, st, uuid);
    var st' := st.(attempted := Some(Proposes(st, uuid)));
    hide Leads, With, Inv, Valid, Fresh, Proposes, Proposing, ApplyCas, WriteMove, ReadMove, RecoverMove, FinishMove,
         FenceMove, SettleLook, Unexecuted;
    EnvironmentOn(s, s, p, Proposing(s.sh, p, st, uuid), Opening(st', SettlePc.Reserving(s.sh.record, n)),
                  AnchorApply(n), done);
    MoveOn(s, s, p, done, Opening(st', SettlePc.Reserving(s.sh.record, n)), "", done,
      Opening(st'.(reserved := true), FenceCheck(done.record)));
    s' := OwnerFinishes(s, s, p, done, st'.(reserved := true), done.record);
  }

  /** A peer's fence whose committed outcome was learned is finalized when the row shows it. */
  lemma CommittedRecovers(s: State, p: Process, st: Startup, v: nat) returns (s': State)
    requires p in s.procs && s.procs[p] == Opening(st, Recover(s.sh.record, v)) && v == s.sh.rv
    requires s.sh.record.pendingEpoch.Some? && !s.sh.legacy && |s.sh.cas| !in s.sh.applied
    requires OutcomeIs(s.sh, s.sh.record.pendingId, Committed) && s.sh.db.row == Some(PendingPair(s.sh.record))
    ensures Leads(s, s') && p in s'.procs && s'.procs[p] == Settled
    ensures s'.sh.record == Finalized(s.sh.record) && s'.sh.db == s.sh.db
  {
    var sh, rec, n := s.sh, s.sh.record, |s.sh.cas|;
    hide Leads, WriteMove, ReadMove, FinishMove, BeginMove, FenceMove, SettleLook;
    LeadsByStep(s, Act(p, ""), With(s, p, sh, Opening(st, RecoverCommitted(rec, v))));
    hide With, Next;
    var sent := SendCas(sh, p, v, Finalized(rec));
    MoveOn(s, s, p, sh, Opening(st, RecoverCommitted(rec, v)), "", sent, Opening(st, Publishing(n)));
    var done := ApplyCas(sent, n);
    EnvironmentOn(s, s, p, sent, Opening(st, Publishing(n)), AnchorApply(n), done);
    PublishesIt(s, s, p, done, st, n);
    s' := With(s, p, done, Settled);
    WithIs(s, p, done, Settled);
  }

  // ---------- a migration taken back ----------

  /** The first Open has sent its fenced request to the migrated database. */
  lemma FirstOpenExecutes(s: State, own: Binding, uuid: string) returns (m: State)
    requires Init(s) && Valid(own, s.sh.record) && Fresh(s.sh, uuid) && !s.sh.db.migrated
    ensures Leads(s, m) && m.next == s.next + 1 && !m.sh.legacy && m.sh.db.migrated && |m.sh.cas| !in m.sh.applied
    ensures m.sh.record == Reserved(s.sh.record, uuid) && m.sh.outcomes == map[]
    ensures m.sh.tails == {Tail(uuid, PairOf(s.sh.record), s.sh.record.epoch + 1)}
    ensures |m.sh.past| == 2 && m.sh.past[1].row == Some(PairOf(s.sh.record)) && !m.sh.past[1].migrated
  {
    var b, p, rec, r := Opened(s, own), s.next, s.sh.record, Reserved(s.sh.record, uuid);
    var st := Startup(Some(uuid), true);
    hide Leads, Published, Init, Valid, Fresh, Move;
    InitialAnchor(s, own, uuid);
    var sh1 := OpenReserves(s, own, uuid);
    var sh2 := OpenPrepares(s, b, p, sh1, s.sh, rec, uuid);
    var sent := Executes(s, b, p, sh2, r, st);
    m := With(b, p, sent, Opening(st, FenceOutcome(r)));
  }

  lemma Executes(from: State, b: State, p: Process, sh: Shared, r: Record, st: Startup) returns (sent: Shared)
    requires Leads(from, With(b, p, sh, Opening(st, FenceMarker(r)))) && sh.db.migrated && r.pendingEpoch.Some?
    ensures sent == SendTail(sh, r.pendingId, PairOf(r), r.pendingEpoch.value)
    ensures Leads(from, With(b, p, sent, Opening(st, FenceOutcome(r))))
  {
    hide Leads, With, WriteMove, ReadMove, SettleLook, RecoverMove, FinishMove, BeginMove;
    sent := SendTail(sh, r.pendingId, PairOf(r), r.pendingEpoch.value);
    MoveOn(from, b, p, sh, Opening(st, FenceMarker(r)), "", sh, Opening(st, FenceExecute(r)));
    MoveOn(from, b, p, sh, Opening(st, FenceExecute(r)), "", sent, Opening(st, FenceOutcome(r)));
  }

  /**
   From every initial state that can settle, a run whose only restore takes the migration back, and
   in which a process then settles on the unmigrated database, at the anchored pair.
   */
  lemma UnmigratedSettles(s: State, own: Binding, uuid: string)
      returns (m: State, restored: State, s': State, q: Process)
    requires Init(s) && Valid(own, s.sh.record) && Fresh(s.sh, uuid) && !s.sh.db.migrated
    ensures Leads(s, m) && m.sh.db.migrated && Next(m, DbRestore(1), restored) && !restored.sh.db.migrated
    ensures Leads(restored, s') && q !in restored.procs && q in s'.procs && s'.procs[q] == Settled
    ensures !s'.sh.db.migrated && s'.sh.db.row == Some(PairOf(s'.sh.record))
  {
    var rec := s.sh.record;
    var tail := Tail(uuid, PairOf(rec), rec.epoch + 1);
    InitialAnchor(s, own, uuid);
    m := FirstOpenExecutes(s, own, uuid);
    hide Leads, Init, Valid, Fresh, Inv, Next;
    restored := m.(sh := Restore(m.sh, 1));
    RestoresTo(m, 1);
    LeadsReachable(s, m);
    StepKeeps(m, DbRestore(1), restored);
    var rejected := restored.(sh := RejectTail(restored.sh, tail));
    Rejects(restored, tail);
    s' := RejectedJoins(rejected, own);
    LeadsOn(restored, rejected, s');
    q := restored.next;
    NextIsNew(restored);
  }

  lemma RestoresTo(s: State, i: nat)
    requires i < |s.sh.past|
    ensures Next(s, DbRestore(i), s.(sh := Restore(s.sh, i)))
  {
  }

  lemma Rejects(s: State, t: Tail)
    requires CanReject(s.sh, t)
    ensures Leads(s, s.(sh := RejectTail(s.sh, t)))
  {
    hide Leads;
    LeadsByStep(s, DbReject(t), s.(sh := RejectTail(s.sh, t)));
  }

  lemma NextIsNew(s: State)
    requires Inv(s)
    ensures s.next !in s.procs
  {
    hide Core, MintsOk, ProcOk;
  }
}
