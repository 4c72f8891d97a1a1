/** The anchor server's and the database's own steps keep `Core` and every process's knowledge. */
module TrustEnvironment {
  import opened Prelude
  import opened AnchorRecord
  import opened TrustState
  import opened TrustInvariant

  // ---------- anchor writes ----------

  /** What any write of the anchor leaves alone. */
  ghost predicate AnchorMoves(sh: Shared, sh': Shared) {
    && sh' == sh.(record := sh'.record, legacy := sh'.legacy, rv := sh.rv + 1, cas := sh'.cas, applied := sh'.applied,
                  fenced := sh'.fenced, finalized := sh'.finalized)
    && |sh'.cas| == |sh.cas|
    && (forall i :: 0 <= i < |sh.cas| ==> sh'.cas[i].origin == sh.cas[i].origin && sh'.cas[i].next == sh.cas[i].next)
    && (forall id :: id in sh.fenced ==> id in sh'.fenced && sh'.fenced[id] == sh.fenced[id])
    && (forall c :: c in sh.applied ==> c in sh'.applied && sh'.applied[c] == sh.applied[c])
  }

  lemma AnchorEvolves(sh: Shared, sh': Shared, q: Process)
    requires AnchorMoves(sh, sh')
    ensures Evolves(sh, sh', q)
  {
    assert TailIds(sh') == TailIds(sh);
  }

  /** A database version that was fine stays fine when the finalized history takes in what is committed. */
  lemma DbsFollow(sh: Shared, sh': Shared)
    requires DbsOk(sh) && sh'.db == sh.db && sh'.past == sh.past && sh'.initial == sh.initial
    requires sh'.outcomes == sh.outcomes
    requires sh.finalized <= sh'.finalized
    requires sh.record.pendingEpoch.Some? && OutcomeIs(sh, sh.record.pendingId, Committed) ==>
               || sh.finalized + [sh.record.pendingId] <= sh'.finalized
               || (sh'.finalized == sh.finalized && sh'.record.pendingEpoch.Some?
                  && sh'.record.pendingId == sh.record.pendingId)
    ensures DbsOk(sh')
  {
    forall d | DbOk(sh, d) ensures DbOk(sh', d) {
      if !(d.log <= sh.finalized) {
        assert d.log[|d.log| - 1] == sh.record.pendingId;
      }
    }
  }

  /** Messages sent for an older version are stale. */
  lemma CassesExpire(sh: Shared, sh': Shared)
    requires CassesOk(sh) && AnchorMoves(sh, sh') && sh'.cas == sh.cas
    ensures CassesOk(sh')
  {
  }

  lemma LandingOk(sh: Shared, c: nat)
    requires CassesOk(sh) && CanApplyCas(sh, c)
    ensures CasOk(sh, sh.cas[c])
  {
  }

  lemma ReserveAnchor(sh: Shared, c: nat)
    requires AnchorOk(sh) && HistoryOk(sh) && IdsOk(sh) && AnswersOk(sh)
    requires CanApplyCas(sh, c) && !sh.legacy && sh.record.pendingEpoch.None? && CasOk(sh, sh.cas[c])
    ensures AnchorOk(ApplyCas(sh, c)) && HistoryOk(ApplyCas(sh, c)) && IdsOk(ApplyCas(sh, c))
        && AnswersOk(ApplyCas(sh, c))
  {
    assert ValidUuid(sh.cas[c].next.pendingId);
  }

  lemma ReserveRequests(sh: Shared, c: nat)
    requires FencesOk(sh) && RequestsOk(sh)
    requires CanApplyCas(sh, c) && sh.record.pendingEpoch.None? && CasOk(sh, sh.cas[c])
    ensures FencesOk(ApplyCas(sh, c)) && RequestsOk(ApplyCas(sh, c))
  {
    ReserveFences(sh, c);
    hide FencesOk;
    var sh' := ApplyCas(sh, c);
    assert TailIds(sh') == TailIds(sh);
    assert sh'.fenced == sh.fenced[sh.cas[c].next.pendingId := Fence(PairOf(sh.cas[c].next), c)];
  }

  lemma ReserveFences(sh: Shared, c: nat)
    requires FencesOk(sh)
    requires CanApplyCas(sh, c) && sh.record.pendingEpoch.None? && CasOk(sh, sh.cas[c])
    ensures FencesOk(ApplyCas(sh, c))
  {
    hide Valid;
  }

  lemma ReserveApplied(sh: Shared, c: nat)
    requires AppliedOk(sh) && AnchorOk(sh)
    requires CanApplyCas(sh, c) && sh.record.pendingEpoch.None? && CasOk(sh, sh.cas[c])
    ensures AppliedOk(ApplyCas(sh, c))
  {
    if sh.finalized != [] {
      assert sh.record.token == sh.finalized[|sh.finalized| - 1];
    }
  }

  lemma ReserveLands(sh: Shared, c: nat, q: Process)
    requires Core(sh) && CanApplyCas(sh, c) && !sh.legacy && sh.record.pendingEpoch.None?
    ensures Core(ApplyCas(sh, c)) && Evolves(sh, ApplyCas(sh, c), q)
  {
    hide AnchorOk, HistoryOk, IdsOk, FencesOk, RequestsOk, CassesOk, AppliedOk, DbsOk, AnswersOk, Evolves;
    LandingOk(sh, c);
    ReserveAnchor(sh, c);
    ReserveRequests(sh, c);
    ReserveApplied(sh, c);
    CassesExpire(sh, ApplyCas(sh, c));
    DbsFollow(sh, ApplyCas(sh, c));
    AnchorEvolves(sh, ApplyCas(sh, c), q);
  }

  lemma FinalizeAnchor(sh: Shared, c: nat)
    requires AnchorOk(sh) && HistoryOk(sh) && IdsOk(sh) && AnswersOk(sh)
    requires CanApplyCas(sh, c) && !sh.legacy && sh.record.pendingEpoch.Some? && sh.cas[c].next == Finalized(sh.record)
    ensures ApplyCas(sh, c).finalized == sh.finalized + [sh.record.pendingId]
    ensures AnchorOk(ApplyCas(sh, c)) && HistoryOk(ApplyCas(sh, c)) && IdsOk(ApplyCas(sh, c))
        && AnswersOk(ApplyCas(sh, c))
  {
    var sh' := ApplyCas(sh, c);
    assert sh'.finalized == sh.finalized + [sh.record.pendingId];
    assert forall k :: k in sh.finalized ==> k in sh'.finalized;
  }

  lemma FinalizeRequests(sh: Shared, c: nat)
    requires FencesOk(sh) && RequestsOk(sh) && AppliedOk(sh)
    requires CanApplyCas(sh, c) && sh.record.pendingEpoch.Some? && sh.cas[c].next == Finalized(sh.record)
    requires OutcomeIs(sh, sh.record.pendingId, Committed)
    requires ApplyCas(sh, c).finalized == sh.finalized + [sh.record.pendingId]
    ensures FencesOk(ApplyCas(sh, c)) && RequestsOk(ApplyCas(sh, c)) && AppliedOk(ApplyCas(sh, c))
  {
    FinalizeFences(sh, c);
    FinalizeApplied(sh, c);
    hide FencesOk, AppliedOk;
    var sh' := ApplyCas(sh, c);
    assert TailIds(sh') == TailIds(sh);
    assert sh'.finalized[|sh.finalized|] == sh.record.pendingId;
    assert forall k :: k in sh.finalized ==> k in sh'.finalized;
  }

  lemma FinalizeFences(sh: Shared, c: nat)
    requires FencesOk(sh) && CanApplyCas(sh, c) && sh.record.pendingEpoch.Some?
        && sh.cas[c].next == Finalized(sh.record)
    requires OutcomeIs(sh, sh.record.pendingId, Committed)
    ensures FencesOk(ApplyCas(sh, c))
  {
  }

  lemma FinalizeApplied(sh: Shared, c: nat)
    requires AppliedOk(sh) && CanApplyCas(sh, c) && sh.record.pendingEpoch.Some?
        && sh.cas[c].next == Finalized(sh.record)
    requires ApplyCas(sh, c).finalized == sh.finalized + [sh.record.pendingId]
    ensures AppliedOk(ApplyCas(sh, c))
  {
    var sh' := ApplyCas(sh, c);
    assert sh'.finalized[|sh.finalized|] == sh.record.pendingId;
    assert forall k :: k in sh.finalized ==> k in sh'.finalized;
  }

  lemma FinalizeLands(sh: Shared, c: nat, q: Process)
    requires Core(sh) && CanApplyCas(sh, c) && !sh.legacy && sh.record.pendingEpoch.Some?
    requires OutcomeIs(sh, sh.record.pendingId, Committed)
    ensures Core(ApplyCas(sh, c)) && Evolves(sh, ApplyCas(sh, c), q)
    ensures ApplyCas(sh, c).finalized == sh.finalized + [sh.record.pendingId]
    ensures ApplyCas(sh, c).record == Finalized(sh.record)
  {
    hide AnchorOk, HistoryOk, IdsOk, FencesOk, RequestsOk, CassesOk, AppliedOk, DbsOk, AnswersOk, Evolves;
    LandingOk(sh, c);
    FinalizeAnchor(sh, c);
    FinalizeRequests(sh, c);
    CassesExpire(sh, ApplyCas(sh, c));
    DbsFollow(sh, ApplyCas(sh, c));
    AnchorEvolves(sh, ApplyCas(sh, c), q);
  }

  lemma AbortAnchor(sh: Shared, c: nat)
    requires AnchorOk(sh) && HistoryOk(sh) && IdsOk(sh) && AnswersOk(sh)
    requires CanApplyCas(sh, c) && !sh.legacy && sh.record.pendingEpoch.Some? && sh.cas[c].next == Cleared(sh.record)
    ensures ApplyCas(sh, c).finalized == sh.finalized
    ensures AnchorOk(ApplyCas(sh, c)) && HistoryOk(ApplyCas(sh, c)) && IdsOk(ApplyCas(sh, c))
        && AnswersOk(ApplyCas(sh, c))
  {
  }

  lemma AbortRequests(sh: Shared, c: nat)
    requires FencesOk(sh) && RequestsOk(sh) && AppliedOk(sh)
    requires CanApplyCas(sh, c) && sh.record.pendingEpoch.Some? && sh.cas[c].next == Cleared(sh.record)
    requires OutcomeIs(sh, sh.record.pendingId, Rejected) && AnchorOk(sh)
    ensures FencesOk(ApplyCas(sh, c)) && RequestsOk(ApplyCas(sh, c)) && AppliedOk(ApplyCas(sh, c))
  {
    AbortFences(sh, c);
    AbortApplied(sh, c);
    hide FencesOk, AppliedOk, AnchorOk;
    assert TailIds(ApplyCas(sh, c)) == TailIds(sh);
  }

  lemma AbortFences(sh: Shared, c: nat)
    requires FencesOk(sh) && CanApplyCas(sh, c) && sh.record.pendingEpoch.Some? && sh.cas[c].next == Cleared(sh.record)
    requires OutcomeIs(sh, sh.record.pendingId, Rejected)
    ensures FencesOk(ApplyCas(sh, c))
  {
  }

  lemma AbortApplied(sh: Shared, c: nat)
    requires AppliedOk(sh) && AnchorOk(sh) && CanApplyCas(sh, c) && sh.record.pendingEpoch.Some?
        && sh.cas[c].next == Cleared(sh.record)
    ensures AppliedOk(ApplyCas(sh, c))
  {
    if sh.finalized != [] {
      assert sh.record.token == sh.finalized[|sh.finalized| - 1];
    }
  }

  lemma AbortLands(sh: Shared, c: nat, q: Process)
    requires Core(sh) && CanApplyCas(sh, c) && !sh.legacy && sh.record.pendingEpoch.Some?
    requires OutcomeIs(sh, sh.record.pendingId, Rejected)
    ensures Core(ApplyCas(sh, c)) && Evolves(sh, ApplyCas(sh, c), q)
    ensures ApplyCas(sh, c).finalized == sh.finalized && ApplyCas(sh, c).record == Cleared(sh.record)
  {
    hide AnchorOk, HistoryOk, IdsOk, FencesOk, RequestsOk, CassesOk, AppliedOk, DbsOk, AnswersOk, Evolves;
    LandingOk(sh, c);
    AbortAnchor(sh, c);
    AbortRequests(sh, c);
    CassesExpire(sh, ApplyCas(sh, c));
    DbsFollow(sh, ApplyCas(sh, c));
    AnchorEvolves(sh, ApplyCas(sh, c), q);
  }

  lemma CasLands(sh: Shared, c: nat, q: Process)
    requires Core(sh) && CanApplyCas(sh, c) && !sh.legacy
    ensures Core(ApplyCas(sh, c)) && Evolves(sh, ApplyCas(sh, c), q)
  {
    hide AnchorOk, HistoryOk, IdsOk, FencesOk, RequestsOk, CassesOk, AppliedOk, DbsOk, AnswersOk, Evolves;
    LandingOk(sh, c);
    if sh.record.pendingEpoch.None? {
      ReserveLands(sh, c, q);
    } else if OutcomeIs(sh, sh.record.pendingId, Committed) {
      FinalizeLands(sh, c, q);
    } else {
      AbortLands(sh, c, q);
    }
  }

  /** A write that only moves the record's recovery half or its shape. */
  lemma RecordMoves(sh: Shared, sh': Shared)
    requires RequestsOk(sh) && FencesOk(sh) && AppliedOk(sh)
    requires AnchorMoves(sh, sh') && sh'.fenced == sh.fenced && sh'.finalized == sh.finalized
        && sh'.applied == sh.applied
    requires sh'.record.pendingEpoch == sh.record.pendingEpoch && sh'.record.pendingId == sh.record.pendingId
    requires forall i :: 0 <= i < |sh.cas| && i in sh.applied ==> sh'.cas[i] == sh.cas[i]
    ensures RequestsOk(sh') && FencesOk(sh') && AppliedOk(sh')
  {
    assert TailIds(sh') == TailIds(sh);
    assert forall id :: Pends(sh, id) <==> Pends(sh', id);
  }

  lemma HistoryStands(sh: Shared, sh': Shared)
    requires HistoryOk(sh) && IdsOk(sh) && AnswersOk(sh)
    requires AnchorMoves(sh, sh') && sh'.fenced == sh.fenced && sh'.finalized == sh.finalized
    ensures HistoryOk(sh') && IdsOk(sh') && AnswersOk(sh')
  {
  }

  lemma ShapeCasses(sh: Shared, c: nat, goesOn: bool)
    requires CassesOk(sh) && CanApplyCas(sh, c)
    ensures CassesOk(MigrateShape(sh, c, goesOn))
  {
    var sh' := MigrateShape(sh, c, goesOn);
    assert CasOk(sh, sh.cas[c]);
    assert CasOk(sh', sh.cas[c].(expected := sh.rv + 1));
  }

  lemma ShapeKeeps(sh: Shared, c: nat, goesOn: bool, q: Process)
    requires Core(sh) && CanApplyCas(sh, c) && sh.legacy
    ensures Core(MigrateShape(sh, c, goesOn)) && Evolves(sh, MigrateShape(sh, c, goesOn), q)
  {
    hide FencesOk, RequestsOk, CassesOk, Evolves, DbsOk, HistoryOk, IdsOk, AnswersOk;
    var sh' := MigrateShape(sh, c, goesOn);
    DbsFollow(sh, sh');
    ShapeCasses(sh, c, goesOn);
    RecordMoves(sh, sh');
    HistoryStands(sh, sh');
    AnchorEvolves(sh, sh', q);
  }

  /** Recovery moves the binding, the generation, the transition and the receipt, never the fence. */
  lemma RecoveryKeeps(sh: Shared, sh': Shared, q: Process)
    requires Core(sh) && sh.record.pendingEpoch.None? && !sh.legacy
    requires AnchorMoves(sh, sh') && sh'.fenced == sh.fenced && sh'.finalized == sh.finalized
        && sh'.applied == sh.applied
    requires sh'.cas == sh.cas && !sh'.legacy
    requires ValidStructure(sh'.record) && InRange(sh'.record)
    requires sh'.record == sh.record.(clusterId := sh'.record.clusterId, storageId := sh'.record.storageId,
                                      generation := sh'.record.generation, transition := sh'.record.transition,
                                        receipt := sh'.record.receipt)
    ensures Core(sh') && Evolves(sh, sh', q)
  {
    hide FencesOk, RequestsOk, CassesOk, AppliedOk, DbsOk, Evolves, HistoryOk, IdsOk, AnswersOk;
    DbsFollow(sh, sh');
    CassesExpire(sh, sh');
    RecordMoves(sh, sh');
    HistoryStands(sh, sh');
    AnchorEvolves(sh, sh', q);
  }

  // ---------- database steps ----------

  /** What any step of the database leaves alone; outcomes are write-once. */
  ghost predicate DbMoves(sh: Shared, sh': Shared) {
    && sh' == sh.(db := sh'.db, past := sh'.past, outcomes := sh'.outcomes, commits := sh'.commits)
    && (forall id :: id in sh.outcomes ==> id in sh'.outcomes && sh'.outcomes[id] == sh.outcomes[id])
    && (forall id :: id in sh'.outcomes && id !in sh.outcomes ==> Pends(sh, id) && id in TailIds(sh))
    && (sh.record.pendingEpoch.None? ==> sh'.commits == sh.commits && sh'.db.log <= sh.db.log)
  }

  lemma DbMovesRequests(sh: Shared, sh': Shared)
    requires FencesOk(sh) && RequestsOk(sh) && DbMoves(sh, sh')
    ensures FencesOk(sh') && RequestsOk(sh')
  {
    assert TailIds(sh') == TailIds(sh);
    assert forall id :: Pends(sh, id) <==> Pends(sh', id);
  }

  lemma DbMovesCasses(sh: Shared, sh': Shared)
    requires CassesOk(sh) && DbMoves(sh, sh')
    ensures CassesOk(sh')
  {
    forall m | CasOk(sh, m) ensures CasOk(sh', m) {
    }
  }

  lemma DbMovesAnchor(sh: Shared, sh': Shared)
    requires AnchorOk(sh) && HistoryOk(sh) && IdsOk(sh) && AppliedOk(sh) && AnswersOk(sh) && DbMoves(sh, sh')
    ensures AnchorOk(sh') && HistoryOk(sh') && IdsOk(sh') && AppliedOk(sh') && AnswersOk(sh')
  {
  }

  lemma DbMovesEvolves(sh: Shared, sh': Shared, q: Process)
    requires DbMoves(sh, sh')
    ensures Evolves(sh, sh', q)
  {
    assert TailIds(sh') == TailIds(sh);
  }

  lemma DbMovesKeep(sh: Shared, sh': Shared, q: Process)
    requires Core(sh) && DbMoves(sh, sh') && DbsOk(sh')
    ensures Core(sh') && Evolves(sh, sh', q)
  {
    hide AnchorOk, HistoryOk, IdsOk, FencesOk, RequestsOk, CassesOk, AppliedOk, DbsOk, AnswersOk, Evolves;
    DbMovesRequests(sh, sh');
    DbMovesCasses(sh, sh');
    DbMovesAnchor(sh, sh');
    DbMovesEvolves(sh, sh', q);
  }

  /** A version pushed on the timeline must extend the version before it. */
  lemma TimelineGrows(sh: Shared, sh': Shared)
    requires DbsOk(sh) && DbOk(sh', sh'.db)
    requires sh'.past == sh.past + [sh.db] && sh.db.log <= sh'.db.log
    requires forall d :: DbOk(sh, d) ==> DbOk(sh', d)
    ensures DbsOk(sh')
  {
    forall i | 0 <= i < |sh'.past| ensures DbOk(sh', sh'.past[i]) && sh'.past[i].log <= sh'.db.log {
      if i < |sh.past| {
        assert sh.past[i].log <= sh.db.log;
      }
    }
  }

  /** Only the pending request can commit, and only over exactly the finalized history. */
  lemma CommitIsPending(sh: Shared, t: Tail)
    requires Core(sh) && CanCommit(sh, t)
    ensures Pends(sh, t.id) && t.base == PairOf(sh.record) && t.epoch == sh.record.epoch + 1
    ensures sh.db.log == sh.finalized
  {
    assert IsFence(sh, t.id, t.base);
    assert |sh.db.log| == |sh.finalized|;
  }

  lemma CommitDbs(sh: Shared, t: Tail)
    requires DbsOk(sh) && CanCommit(sh, t) && Pends(sh, t.id) && t.epoch == sh.record.epoch + 1
    requires sh.db.log == sh.finalized && t.base == PairOf(sh.record)
    ensures DbsOk(CommitTail(sh, t))
  {
    var sh' := CommitTail(sh, t);
    forall d | DbOk(sh, d) ensures DbOk(sh', d) {
    }
    TimelineGrows(sh, sh');
  }

  lemma CommitKeeps(sh: Shared, t: Tail, q: Process)
    requires Core(sh) && CanCommit(sh, t)
    ensures Core(CommitTail(sh, t)) && Evolves(sh, CommitTail(sh, t), q)
  {
    hide AnchorOk, HistoryOk, IdsOk, FencesOk, RequestsOk, CassesOk, AppliedOk, DbsOk, AnswersOk, Evolves;
    CommitIsPending(sh, t);
    CommitDbs(sh, t);
    assert t.id in TailIds(sh);
    DbMovesKeep(sh, CommitTail(sh, t), q);
  }

  lemma RejectKeeps(sh: Shared, t: Tail, q: Process)
    requires Core(sh) && CanReject(sh, t)
    ensures Core(RejectTail(sh, t)) && Evolves(sh, RejectTail(sh, t), q)
  {
    hide AnchorOk, HistoryOk, IdsOk, CassesOk, AppliedOk, AnswersOk, Evolves, DbOk;
    var sh' := RejectTail(sh, t);
    assert IsFence(sh, t.id, t.base);
    assert t.id in TailIds(sh);
    forall d | DbOk(sh, d) ensures DbOk(sh', d) {
      RejectKeepsDb(sh, t, d);
    }
    DbMovesKeep(sh, sh', q);
  }

  lemma RejectKeepsDb(sh: Shared, t: Tail, d: Database)
    requires DbOk(sh, d) && CanReject(sh, t)
    ensures DbOk(RejectTail(sh, t), d)
  {
  }

  /** Creating the row and migrating leave the business content alone. */
  lemma SameContentKeeps(sh: Shared, d: Database, q: Process)
    requires Core(sh) && d.log == sh.db.log
    requires d.row == sh.db.row || (sh.db.row.None? && d.row == Some(sh.initial))
    ensures Core(Advance(sh, d)) && Evolves(sh, Advance(sh, d), q)
  {
    hide AnchorOk, HistoryOk, IdsOk, FencesOk, RequestsOk, CassesOk, AppliedOk, AnswersOk, Evolves;
    var sh' := Advance(sh, d);
    forall e | DbOk(sh, e) ensures DbOk(sh', e) {
    }
    assert DbOk(sh', d);
    TimelineGrows(sh, sh');
    DbMovesKeep(sh, sh', q);
  }

  lemma RestoreKeeps(sh: Shared, i: nat, q: Process)
    requires Core(sh) && i < |sh.past|
    ensures Core(Restore(sh, i)) && Evolves(sh, Restore(sh, i), q)
  {
    hide AnchorOk, HistoryOk, IdsOk, FencesOk, RequestsOk, CassesOk, AppliedOk, AnswersOk, Evolves;
    var sh' := Restore(sh, i);
    forall d | DbOk(sh, d) ensures DbOk(sh', d) {
    }
    DbMovesKeep(sh, sh', q);
  }

  /** Every step of the environment keeps `Core`; no process loses what it knows. */
  lemma EnvironmentKeeps(sh: Shared, step: Step, q: Process)
    requires Core(sh) && Environment(sh, step).Some?
    ensures Core(Environment(sh, step).value) && Evolves(sh, Environment(sh, step).value, q)
  {
    hide CassesOk, AppliedOk, DbsOk, AnswersOk, FencesOk, HistoryOk, IdsOk, Evolves;
    match step
    case AnchorApply(c) => CasLands(sh, c, q);
    case AnchorMigrate(c, goesOn) => ShapeKeeps(sh, c, goesOn, q);
    case AnchorRecoveryReserve(t) => RecoveryKeeps(sh, RecoveryReserve(sh, t), q);
    case AnchorRecoveryCommit(b, r) => RecoveryKeeps(sh, RecoveryCommit(sh, b, r), q);
    case DbCommit(t) => CommitKeeps(sh, t, q);
    case DbReject(t) => RejectKeeps(sh, t, q);
    case DbCreate(pair) => SameContentKeeps(sh, sh.db.(row := Some(pair)), q);
    case DbMigrate => SameContentKeeps(sh, sh.db.(migrated := true), q);
    case DbRestore(i) => RestoreKeeps(sh, i, q);
    case _ =>
  }
}
