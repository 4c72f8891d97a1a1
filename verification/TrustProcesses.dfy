/** Every move of a settling, writing or reading process keeps `Core`, its own knowledge and everybody else's. */
module TrustProcesses {
  import opened Prelude
  import opened AnchorRecord
  import opened TrustState
  import opened TrustInvariant

  // ---------- sending messages ----------

  /** A process only adds: identities of its own, messages that are still right, and what it learned. */
  ghost predicate Sends(sh: Shared, sh': Shared, p: Process) {
    && sh' == sh.(cas := sh'.cas, tails := sh'.tails, creates := sh'.creates, migrates := sh'.migrates,
                  minted := sh'.minted, startupIds := sh'.startupIds, acked := sh'.acked, answers := sh'.answers)
    && sh.cas <= sh'.cas
    && (forall i :: |sh.cas| <= i < |sh'.cas| ==>
          && sh'.cas[i].origin == p
          && sh'.cas[i].expected <= sh.rv
          && (sh'.cas[i].expected == sh.rv ==> CasOk(sh', sh'.cas[i])))
    && (forall t :: t in sh.tails ==> t in sh'.tails)
    && (forall t :: t in sh'.tails && t !in sh.tails ==>
          IsFence(sh, t.id, t.base) && t.epoch == t.base.epoch + 1 && t.id in sh.minted && sh.minted[t.id] == p)
    && (forall pair :: pair in sh'.creates ==> pair in sh.creates || pair == sh.initial)
    && (forall id :: id in sh.minted ==> id in sh'.minted && sh'.minted[id] == sh.minted[id])
    && (forall id :: id in sh'.minted && id !in sh.minted ==> ValidUuid(id) && id != sh.initial.token)
    && (forall id :: id in sh.startupIds ==> id in sh'.startupIds)
    && (forall id :: id in sh'.startupIds && id !in sh.startupIds ==> id in sh'.minted && id !in sh.minted)
    && (forall id :: id in sh'.acked ==> id in sh.acked || id in sh.finalized)
    && sh.answers <= sh'.answers
    && (forall i :: |sh.answers| <= i < |sh'.answers| ==>
          && sh'.answers[i].reader == p
          && sh'.answers[i].rows == sh'.answers[i].start.finalized
          && sh'.answers[i].commits == sh'.answers[i].start.commits
          && AckedIn(sh'.answers[i].start))
  }

  lemma SendsAnchor(sh: Shared, sh': Shared, p: Process)
    requires AnchorOk(sh) && HistoryOk(sh) && IdsOk(sh) && AnswersOk(sh) && Sends(sh, sh', p)
    ensures AnchorOk(sh') && HistoryOk(sh') && IdsOk(sh') && AnswersOk(sh')
  {
  }

  lemma SendsTailIds(sh: Shared, sh': Shared, p: Process)
    requires Sends(sh, sh', p)
    ensures TailIds(sh) <= TailIds(sh')
    ensures forall id :: id in TailIds(sh') && id !in TailIds(sh) ==> id in sh.minted && sh.minted[id] == p
  {
  }

  lemma SendsRequests(sh: Shared, sh': Shared, p: Process)
    requires FencesOk(sh) && RequestsOk(sh) && Sends(sh, sh', p)
    ensures FencesOk(sh') && RequestsOk(sh')
  {
    SendsTailIds(sh, sh', p);
    assert forall id :: Pends(sh, id) <==> Pends(sh', id);
  }

  lemma SendsCasses(sh: Shared, sh': Shared, p: Process)
    requires CassesOk(sh) && Sends(sh, sh', p)
    ensures CassesOk(sh')
  {
    forall m | CasOk(sh, m) ensures CasOk(sh', m) {
    }
  }

  lemma SendsApplied(sh: Shared, sh': Shared, p: Process)
    requires AppliedOk(sh) && DbsOk(sh) && Sends(sh, sh', p)
    ensures AppliedOk(sh') && DbsOk(sh')
  {
    forall d | DbOk(sh, d) ensures DbOk(sh', d) {
    }
  }

  lemma SendsKeep(sh: Shared, sh': Shared, p: Process)
    requires Core(sh) && Sends(sh, sh', p)
    ensures Core(sh')
  {
    hide AnchorOk, HistoryOk, IdsOk, FencesOk, RequestsOk, CassesOk, AppliedOk, DbsOk, AnswersOk, Sends;
    SendsAnchor(sh, sh', p);
    SendsRequests(sh, sh', p);
    SendsCasses(sh, sh', p);
    SendsApplied(sh, sh', p);
  }

  lemma SendsEvolve(sh: Shared, sh': Shared, p: Process)
    requires Sends(sh, sh', p)
    ensures Evolves(sh, sh', p)
  {
    SendsTailIds(sh, sh', p);
  }

  // ---------- what each move has to show ----------

  /** A move sends well, and what the process knows afterwards is true. */
  ghost predicate GoodMove(sh: Shared, p: Process, e: Option<Effect>) {
    e.Some? ==>
      && Sends(sh, e.value.sh, p)
      && (e.value.proc.Some? ==> ProcOk(e.value.sh, p, e.value.proc.value))
  }

  lemma CasSent(sh: Shared, p: Process, expected: nat, next: Record)
    requires expected <= sh.rv
    requires expected == sh.rv ==> CasOk(sh, Cas(p, expected, next))
    ensures Sends(sh, SendCas(sh, p, expected, next), p)
  {
    var sh' := SendCas(sh, p, expected, next);
    assert sh'.cas[|sh.cas|] == Cas(p, expected, next);
    if expected == sh.rv {
      assert CasOk(sh', Cas(p, expected, next));
    }
  }

  lemma MintedCasSent(sh: Shared, p: Process, id: string, startup: bool, v: nat, next: Record)
    requires v <= sh.rv && Fresh(sh, id)
    requires v == sh.rv ==> CasOk(Mint(sh, p, id, startup), Cas(p, v, next))
    ensures Sends(sh, SendCas(Mint(sh, p, id, startup), p, v, next), p)
    ensures TailIds(SendCas(Mint(sh, p, id, startup), p, v, next)) == TailIds(sh)
  {
    var sh' := SendCas(Mint(sh, p, id, startup), p, v, next);
    assert sh'.cas[|sh.cas|] == Cas(p, v, next);
    if v == sh.rv {
      assert CasOk(sh', Cas(p, v, next));
    }
  }

  lemma NothingSent(sh: Shared, p: Process)
    ensures Sends(sh, sh, p)
  {
  }

  lemma PreparationSent(sh: Shared, p: Process)
    ensures Sends(sh, sh.(migrates := true), p)
    ensures Sends(sh, sh.(creates := sh.creates + {sh.initial}), p)
  {
  }

  lemma TailSent(sh: Shared, p: Process, id: string, base: Pair, epoch: int)
    requires IsFence(sh, id, base) && epoch == base.epoch + 1 && id in sh.minted && sh.minted[id] == p
    ensures Sends(sh, SendTail(sh, id, base, epoch), p)
  {
  }

  lemma AckSent(sh: Shared, p: Process, id: string)
    requires id in sh.finalized
    ensures Sends(sh, sh.(acked := sh.acked + {id}), p)
  {
  }

  lemma AnswerSent(sh: Shared, p: Process, a: Answer)
    requires a.reader == p && a.rows == a.start.finalized && a.commits == a.start.commits && AckedIn(a.start)
    ensures Sends(sh, sh.(answers := sh.answers + [a]), p)
  {
  }

  // ---------- settlement ----------

  /** No pending fence: the reservation this Open proposed was never published, or it is resolved and known. */
  lemma NotYetReserved(sh: Shared, p: Process, st: Startup)
    requires FencesOk(sh) && RequestsOk(sh) && StartupOk(sh, p, st)
    requires sh.record.pendingEpoch.None? && !st.reserved && st.attempted.Some?
    ensures st.attempted.value !in sh.fenced
  {
  }

  lemma LookMove(sh: Shared, own: Binding, p: Process, st: Startup)
    requires AnchorOk(sh) && FencesOk(sh) && RequestsOk(sh) && StartupOk(sh, p, st)
    ensures GoodMove(sh, p, SettleLook(sh, own, st))
  {
    hide Sends, FencesOk, RequestsOk;
    NothingSent(sh, p);
    if sh.record.pendingEpoch.None? && !st.reserved && st.attempted.Some? {
      NotYetReserved(sh, p, st);
    }
  }

  lemma RecoverMoves(sh: Shared, p: Process, st: Startup, pc: SettlePc)
    requires Recovers(pc)
    requires StartupOk(sh, p, st) && SettleOk(sh, p, st, pc)
    ensures GoodMove(sh, p, RecoverMove(sh, p, st, pc))
  {
    hide Sends;
    NothingSent(sh, p);
    if pc.RecoverCommitted? {
      CasSent(sh, p, pc.v, Finalized(pc.rec));
      assert TailIds(SendCas(sh, p, pc.v, Finalized(pc.rec))) == TailIds(sh);
    } else if pc.RecoverRejected? {
      CasSent(sh, p, pc.v, Cleared(pc.rec));
      assert TailIds(SendCas(sh, p, pc.v, Cleared(pc.rec))) == TailIds(sh);
    }
  }

  lemma ReserveSent(sh: Shared, p: Process, st: Startup, rec: Record, v: nat)
    requires st.attempted.Some? && StartupOk(sh, p, st) && MayReserve(sh, st, rec, v)
    requires rec.bootstrap && rec.epoch < MAX_INT64
    ensures GoodMove(sh, p, At(SendCas(sh, p, v, Reserved(rec, st.attempted.value)), st, Reserving(rec, |sh.cas|)))
  {
    hide Sends;
    CasSent(sh, p, v, Reserved(rec, st.attempted.value));
    assert TailIds(SendCas(sh, p, v, Reserved(rec, st.attempted.value))) == TailIds(sh);
  }

  lemma ReserveMinted(sh: Shared, p: Process, st: Startup, rec: Record, v: nat, id: string)
    requires IdsOk(sh) && id !in TailIds(sh)
    requires st.attempted.None? && StartupOk(sh, p, st) && MayReserve(sh, st, rec, v)
    requires rec.bootstrap && rec.epoch < MAX_INT64 && Fresh(sh, id)
    ensures GoodMove(sh, p, BeginMove(sh, p, st, BeginCas(rec, v), id))
  {
    hide Sends;
    assert id !in sh.fenced;
    MintedCasSent(sh, p, id, true, v, Reserved(rec, id));
  }

  lemma FreshHasNoTail(sh: Shared, id: string)
    requires IdsOk(sh) && RequestsOk(sh) && Fresh(sh, id)
    ensures id !in TailIds(sh)
  {
  }

  lemma BeginMoves(sh: Shared, p: Process, st: Startup, pc: SettlePc, uuid: string)
    requires Begins(pc)
    requires IdsOk(sh) && RequestsOk(sh) && AppliedOk(sh)
    requires StartupOk(sh, p, st) && SettleOk(sh, p, st, pc)
    ensures GoodMove(sh, p, BeginMove(sh, p, st, pc, uuid))
  {
    hide Sends, IdsOk, RequestsOk, Fresh;
    NothingSent(sh, p);
    if pc.BeginCas? && pc.rec.epoch < MAX_INT64 {
      if st.attempted.Some? {
        ReserveSent(sh, p, st, pc.rec, pc.v);
      } else if Fresh(sh, uuid) {
        FreshHasNoTail(sh, uuid);
        ReserveMinted(sh, p, st, pc.rec, pc.v, uuid);
      }
    }
  }

  lemma PrepareMoves(sh: Shared, p: Process, st: Startup, pc: SettlePc)
    requires pc.FenceCheck? || pc.PrepareExists? || pc.PrepareVerify? || pc.FenceMigrate?
    requires StartupOk(sh, p, st) && SettleOk(sh, p, st, pc)
    ensures GoodMove(sh, p, FenceMove(sh, st, pc))
  {
    hide Sends;
    NothingSent(sh, p);
    PreparationSent(sh, p);
    assert TailIds(sh.(migrates := true)) == TailIds(sh) == TailIds(sh.(creates := sh.creates + {sh.initial}));
  }

  lemma ExecuteMoves(sh: Shared, p: Process, st: Startup, pc: SettlePc)
    requires pc.FenceMarker? || pc.FenceExecute? || pc.FenceOutcome?
    requires StartupOk(sh, p, st) && SettleOk(sh, p, st, pc)
    ensures GoodMove(sh, p, FenceMove(sh, st, pc))
  {
    hide Sends;
    NothingSent(sh, p);
    if pc.FenceExecute? {
      TailSent(sh, p, pc.rec.pendingId, PairOf(pc.rec), pc.rec.pendingEpoch.value);
    }
  }

  /** The pending pair in the database proves that its request committed. */
  lemma RowProvesCommit(sh: Shared, id: string, epoch: int)
    requires DbOk(sh, sh.db) && IdsOk(sh) && id in sh.minted
    requires sh.db.row == Some(Pair(epoch, id))
    ensures OutcomeIs(sh, id, Committed)
  {
    assert sh.db.log != [];
    assert sh.db.log[|sh.db.log| - 1] == id;
  }

  lemma CatchUpMoves(sh: Shared, own: Binding, p: Process, st: Startup, pc: SettlePc)
    requires pc.CatchUp? || pc.CatchUpMarker? || pc.Publishing? || pc.StartupRead? || pc.StartupVerify?
    requires StartupOk(sh, p, st) && SettleOk(sh, p, st, pc)
    ensures GoodMove(sh, p, FinishMove(sh, own, p, st, pc))
  {
    hide Sends;
    NothingSent(sh, p);
    PreparationSent(sh, p);
    assert TailIds(sh.(migrates := true)) == TailIds(sh);
  }

  lemma FinalizeSent(sh: Shared, own: Binding, p: Process, st: Startup, cur: Record, v: nat)
    requires StartupOk(sh, p, st) && SettleOk(sh, p, st, FinalizeCas(cur, v))
    ensures GoodMove(sh, p, FinishMove(sh, own, p, st, FinalizeCas(cur, v)))
  {
    hide Sends;
    CasSent(sh, p, v, Finalized(cur));
    assert TailIds(SendCas(sh, p, v, Finalized(cur))) == TailIds(sh);
  }

  lemma FinalizeMoves(sh: Shared, own: Binding, p: Process, st: Startup, pc: SettlePc)
    requires pc.FinalizeRead? || pc.FinalizePair? || pc.FinalizeMarker?
    requires AnchorOk(sh) && IdsOk(sh) && DbOk(sh, sh.db)
    requires StartupOk(sh, p, st) && SettleOk(sh, p, st, pc)
    ensures GoodMove(sh, p, FinishMove(sh, own, p, st, pc))
  {
    hide Sends, DbOk, StartupOk, ValidUuid;
    NothingSent(sh, p);
    if pc.FinalizePair? {
      hide AnchorOk, IdsOk;
      if sh.db.row == Some(PendingPair(pc.rec)) {
        PendingRowProvesCommit(sh, pc.cur, pc.v);
      }
    }
  }

  lemma PendingRowProvesCommit(sh: Shared, cur: Record, v: nat)
    requires IdsOk(sh) && DbOk(sh, sh.db) && ReadAt(sh, cur, v) && cur.pendingEpoch.Some?
        && sh.db.row == Some(PendingPair(cur))
    ensures OutcomeIs(sh, cur.pendingId, Committed)
  {
    hide DbOk, ValidUuid;
    RowProvesCommit(sh, cur.pendingId, cur.pendingEpoch.value);
  }

  lemma PeerMoves(sh: Shared, own: Binding, p: Process, st: Startup, pc: SettlePc, uuid: string)
    requires pc.PeerCheck? && StartupOk(sh, p, st) && SettleOk(sh, p, st, pc)
    ensures GoodMove(sh, p, SettleMove(sh, own, p, st, pc, uuid))
  {
    hide Sends, StartupOk, SettleLook, RecoverMove, BeginMove, FenceMove, FinishMove;
    NothingSent(sh, p);
  }

  lemma SettleMoves(sh: Shared, own: Binding, p: Process, st: Startup, pc: SettlePc, uuid: string)
    requires Core(sh) && StartupOk(sh, p, st) && SettleOk(sh, p, st, pc)
    ensures GoodMove(sh, p, SettleMove(sh, own, p, st, pc, uuid))
  {
    hide AnchorOk, HistoryOk, IdsOk, FencesOk, RequestsOk, CassesOk, AppliedOk, AnswersOk, StartupOk, DbOk;
    hide GoodMove, SettleOk, SettleLook, RecoverMove, BeginMove, FenceMove, FinishMove;
    match pc
    case Idle => LookMove(sh, own, p, st);
    case PeerCheck(_, _) => PeerMoves(sh, own, p, st, pc, uuid);
    case Recover(_, _) => RecoverMoves(sh, p, st, pc);
    case RecoverCommitted(_, _) => RecoverMoves(sh, p, st, pc);
    case RecoverRejected(_, _) => RecoverMoves(sh, p, st, pc);
    case MarkerCheck(_, _) => BeginMoves(sh, p, st, pc, uuid);
    case BeginExists(_, _) => BeginMoves(sh, p, st, pc, uuid);
    case BeginVerify(_, _) => BeginMoves(sh, p, st, pc, uuid);
    case BeginCas(_, _) => BeginMoves(sh, p, st, pc, uuid);
    case Reserving(_, _) => BeginMoves(sh, p, st, pc, uuid);
    case FenceCheck(_) => PrepareMoves(sh, p, st, pc);
    case PrepareExists(_) => PrepareMoves(sh, p, st, pc);
    case PrepareVerify(_) => PrepareMoves(sh, p, st, pc);
    case FenceMigrate(_) => PrepareMoves(sh, p, st, pc);
    case FenceMarker(_) => ExecuteMoves(sh, p, st, pc);
    case FenceExecute(_) => ExecuteMoves(sh, p, st, pc);
    case FenceOutcome(_) => ExecuteMoves(sh, p, st, pc);
    case FinalizeRead(_) => FinalizeMoves(sh, own, p, st, pc);
    case FinalizePair(_, _, _) => FinalizeMoves(sh, own, p, st, pc);
    case FinalizeMarker(_, _) => FinalizeMoves(sh, own, p, st, pc);
    case FinalizeCas(cur, v) => FinalizeSent(sh, own, p, st, cur, v);
    case _ => CatchUpMoves(sh, own, p, st, pc);
  }

  // ---------- writes and reads ----------

  lemma WriteReserves(sh: Shared, own: Binding, p: Process, cur: Record, v: nat, id: string)
    requires IdsOk(sh) && ReadAt(sh, cur, v) && cur.pendingEpoch.None? && cur.epoch < MAX_INT64 && Fresh(sh, id)
    ensures GoodMove(sh, p, WriteMove(sh, own, p, WReserve(cur, v), id))
  {
    hide Sends;
    assert id !in sh.fenced && id !in sh.startupIds;
    MintedCasSent(sh, p, id, false, v, Reserved(cur, id));
  }

  lemma WriteFinalizes(sh: Shared, own: Binding, p: Process, cur: Record, id: string, v: nat, uuid: string)
    requires AnchorOk(sh) && HoldsFence(sh, p, cur, id, v) && OutcomeIs(sh, id, Committed)
    ensures GoodMove(sh, p, WriteMove(sh, own, p, WFinalize(cur, id, v), uuid))
  {
    hide Sends;
    CasSent(sh, p, v, cur.(epoch := cur.epoch + 1, token := id, pendingEpoch := None, pendingId := "",
      bootstrap := false));
  }

  lemma WriteAborts(sh: Shared, own: Binding, p: Process, cur: Record, id: string, v: nat, uuid: string)
    requires AnchorOk(sh) && HoldsFence(sh, p, cur, id, v) && OutcomeIs(sh, id, Rejected)
    ensures GoodMove(sh, p, WriteMove(sh, own, p, WAbort(cur, id, v), uuid))
  {
    hide Sends;
    CasSent(sh, p, v, cur.(pendingEpoch := None, pendingId := ""));
  }

  /** A write whose finalization landed is in the finalized history. */
  lemma FinalizedIsHistory(sh: Shared, c: nat, id: string)
    requires IdsOk(sh) && AppliedOk(sh) && c in sh.applied && sh.cas[c].next.token == id && id in sh.minted
    ensures id in sh.finalized
  {
  }

  lemma WriteMoves(sh: Shared, own: Binding, p: Process, pc: WritePc, uuid: string)
    requires AnchorOk(sh) && IdsOk(sh) && AppliedOk(sh) && WriteOk(sh, p, pc)
    ensures GoodMove(sh, p, WriteMove(sh, own, p, pc, uuid))
  {
    hide Sends, IdsOk;
    NothingSent(sh, p);
    match pc
    case WReserve(cur, v) =>
      if Fresh(sh, uuid) && cur.epoch < MAX_INT64 {
        WriteReserves(sh, own, p, cur, v, uuid);
      }
    case WExecute(cur, id, v) => TailSent(sh, p, id, PairOf(cur), cur.epoch + 1);
    case WFinalize(cur, id, v) => WriteFinalizes(sh, own, p, cur, id, v, uuid);
    case WFinalizing(id, c) =>
      if c in sh.applied {
        FinalizedIsHistory(sh, c, id);
        AckSent(sh, p, id);
      }
    case WAbort(cur, id, v) => WriteAborts(sh, own, p, cur, id, v, uuid);
    case _ =>
  }

  lemma ReadMoves(sh: Shared, own: Binding, p: Process, pc: ReadPc)
    requires AnchorOk(sh) && HistoryOk(sh) && DbOk(sh, sh.db) && ReadOk(sh, pc)
    ensures GoodMove(sh, p, ReadMove(sh, own, p, pc))
  {
    hide Sends;
    NothingSent(sh, p);
    if pc.RVerify? && sh.db.row == Some(PairOf(pc.first)) && pc.v == sh.rv {
      assert |sh.db.log| == |sh.finalized|;
      assert pc.rows == sh.finalized;
    }
    if pc.RRecheck? && sh.rv == pc.v {
      AnswerSent(sh, p, Answer(p, pc.start, pc.rows, sh.commits));
    }
  }

  /** Every move of every process keeps the invariant and its own knowledge. */
  lemma MoveKeeps(sh: Shared, own: Binding, p: Process, proc: Proc, uuid: string)
    requires Core(sh) && ProcOk(sh, p, proc) && Move(sh, own, p, proc, uuid).Some?
    ensures var e := Move(sh, own, p, proc, uuid).value;
            Core(e.sh) && Evolves(sh, e.sh, p) && Sends(sh, e.sh, p) && (e.proc.Some? ==> ProcOk(e.sh, p, e.proc.value))
  {
    hide AnchorOk, HistoryOk, IdsOk, FencesOk, RequestsOk, CassesOk, AppliedOk, AnswersOk, StartupOk, DbOk, Sends,
         Evolves,
         SettleMove, WriteMove, ReadMove, SettleOk, WriteOk, ReadOk;
    match proc {
      case Opening(st, pc) => SettleMoves(sh, own, p, st, pc, uuid);
      case Settled =>
      case Writer(pc) => WriteMoves(sh, own, p, pc, uuid);
      case Reader(pc) => ReadMoves(sh, own, p, pc);
    }
    var e := Move(sh, own, p, proc, uuid).value;
    SendsKeep(sh, e.sh, p);
    SendsEvolve(sh, e.sh, p);
  }
}
