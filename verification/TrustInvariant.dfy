/**
 What every step of the fencing protocol keeps.

 `Core` speaks of the anchor, the database and the messages and survives restores;
 `ProcOk` is what each process still knows; `Evolves` is what the rest of the system
 may do to that knowledge.
 */
module TrustInvariant {
  import opened Prelude
  import opened AnchorRecord
  import opened TrustState

  // ---------- shared state ----------

  function LastOr(ids: seq<string>, token: string): string {
    if ids == [] then token else ids[|ids| - 1]
  }

  ghost predicate Pends(sh: Shared, id: string) {
    sh.record.pendingEpoch.Some? && sh.record.pendingId == id
  }

  ghost predicate OutcomeIs(sh: Shared, id: string, o: Outcome) {
    id in sh.outcomes && sh.outcomes[id] == o
  }

  ghost predicate IsFence(sh: Shared, id: string, base: Pair) {
    id in sh.fenced && sh.fenced[id].base == base
  }

  ghost function TailIds(sh: Shared): set<string> {
    set t | t in sh.tails :: t.id
  }

  ghost predicate AnchorOk(sh: Shared) {
    && ValidStructure(sh.record) && InRange(sh.record)
    && sh.record.epoch == sh.initial.epoch + |sh.finalized|
    && sh.record.token == LastOr(sh.finalized, sh.initial.token)
    && (sh.record.bootstrap <==> sh.finalized == [])
    && (sh.legacy ==> sh.record.generation == 0 && sh.record.transition.None? && sh.record.receipt.None?)
    && (sh.legacy ==> sh.finalized == [] && sh.record.pendingEpoch.None?)
    && (sh.record.pendingEpoch.Some? ==>
          && sh.record.transition.None?
          && IsFence(sh, sh.record.pendingId, PairOf(sh.record))
          && sh.record.pendingId !in sh.finalized
          && (sh.record.pendingId in sh.startupIds ==> sh.record.bootstrap))
  }

  ghost predicate HistoryOk(sh: Shared) {
    && (forall i, j :: 0 <= i < j < |sh.finalized| ==> sh.finalized[i] != sh.finalized[j])
    && (forall i :: 0 <= i < |sh.finalized| ==> sh.finalized[i] in sh.fenced)
    && (forall i :: 0 < i < |sh.finalized| ==> sh.finalized[i] !in sh.startupIds)
    && (forall id :: id in sh.acked ==> id in sh.finalized)
  }

  ghost predicate IdsOk(sh: Shared) {
    && (forall id :: id in sh.fenced ==> id in sh.minted)
    && (forall id :: id in sh.startupIds ==> id in sh.minted)
    && (forall id :: id in sh.minted ==> ValidUuid(id))
    && sh.initial.token !in sh.minted
  }

  ghost predicate FencesOk(sh: Shared) {
    forall id :: id in sh.fenced ==>
      && (Pends(sh, id) || id in sh.outcomes)
      && sh.fenced[id].via < |sh.cas|
      && sh.fenced[id].via in sh.applied
      && sh.cas[sh.fenced[id].via].next.pendingId == id
      && id in sh.minted && sh.cas[sh.fenced[id].via].origin == sh.minted[id]
  }

  ghost predicate RequestsOk(sh: Shared) {
    && (forall t :: t in sh.tails ==> IsFence(sh, t.id, t.base) && t.epoch == t.base.epoch + 1)
    && (forall id :: id in sh.outcomes ==> id in TailIds(sh))
    && (forall id :: OutcomeIs(sh, id, Committed) ==> Pends(sh, id) || id in sh.finalized)
    && (forall pair :: pair in sh.creates ==> pair == sh.initial)
  }

  /** A compare-and-swap that would still land is one of the three the code may take from the current record. */
  ghost predicate CasOk(sh: Shared, m: Cas) {
    && Sound(sh.record)
    && if sh.record.pendingEpoch.None? then
         && m.next == Reserved(sh.record, m.next.pendingId)
         && m.next.pendingId in sh.minted && sh.minted[m.next.pendingId] == m.origin
         && m.next.pendingId !in sh.fenced
         && sh.record.epoch < MAX_INT64
         && (m.next.pendingId in sh.startupIds ==> sh.record.bootstrap)
       else
         || (OutcomeIs(sh, sh.record.pendingId, Committed) && m.next == Finalized(sh.record))
         || (OutcomeIs(sh, sh.record.pendingId, Rejected) && m.next == Cleared(sh.record))
  }

  ghost predicate CassesOk(sh: Shared) {
    forall i :: 0 <= i < |sh.cas| ==>
      sh.cas[i].expected <= sh.rv && (sh.cas[i].expected == sh.rv ==> CasOk(sh, sh.cas[i]))
  }

  ghost predicate AppliedOk(sh: Shared) {
    forall c :: c in sh.applied ==>
      && c < |sh.cas|
      && sh.cas[c].expected < sh.applied[c] <= sh.rv
      && (sh.applied[c] == sh.rv ==> sh.record == sh.cas[c].next)
      && (sh.cas[c].next.pendingEpoch.Some? ==>
            sh.cas[c].next.pendingId in sh.fenced
              && sh.fenced[sh.cas[c].next.pendingId] == Fence(PairOf(sh.cas[c].next), c))
      && (sh.cas[c].next.token == sh.initial.token || sh.cas[c].next.token in sh.finalized)
  }

  /** A version of the database holds a prefix of the finalized history, or that plus the committed pending request. */
  ghost predicate DbOk(sh: Shared, d: Database) {
    && (d.row.None? ==> d.log == [])
    && (d.row.Some? ==> d.row.value == Pair(sh.initial.epoch + |d.log|, LastOr(d.log, sh.initial.token)))
    && (forall i :: 0 <= i < |d.log| ==> OutcomeIs(sh, d.log[i], Committed))
    && (|| d.log <= sh.finalized
        || (sh.record.pendingEpoch.Some? && d.log == sh.finalized + [sh.record.pendingId]))
  }

  ghost predicate DbsOk(sh: Shared) {
    && DbOk(sh, sh.db)
    && (forall i :: 0 <= i < |sh.past| ==> DbOk(sh, sh.past[i]) && sh.past[i].log <= sh.db.log)
    && (forall i, j :: 0 <= i < j < |sh.past| ==> sh.past[i].log <= sh.past[j].log)
  }

  ghost predicate AckedIn(start: ReadStart) {
    forall id :: id in start.acked ==> id in start.finalized
  }

  ghost predicate AnswersOk(sh: Shared) {
    forall i :: 0 <= i < |sh.answers| ==>
      && sh.answers[i].rows == sh.answers[i].start.finalized
      && sh.answers[i].commits == sh.answers[i].start.commits
      && AckedIn(sh.answers[i].start)
  }

  ghost predicate Core(sh: Shared) {
    && AnchorOk(sh) && HistoryOk(sh) && IdsOk(sh) && FencesOk(sh) && RequestsOk(sh)
    && CassesOk(sh) && AppliedOk(sh) && DbsOk(sh) && AnswersOk(sh)
  }

  // ---------- processes ----------

  /** `rec` was the anchor at version `v`; it still is while the version stands. */
  ghost predicate ReadAt(sh: Shared, rec: Record, v: nat) {
    && Sound(rec)
    && v <= sh.rv
    && (v == sh.rv ==> sh.record == rec)
    && (rec.bootstrap ==> PairOf(rec) == sh.initial)
    && (rec.pendingEpoch.Some? ==> IsFence(sh, rec.pendingId, PairOf(rec)))
  }

  ghost predicate StartupOk(sh: Shared, p: Process, st: Startup) {
    && (st.reserved ==> st.attempted.Some? && st.attempted.value in sh.fenced)
    && (st.attempted.Some? ==>
          && st.attempted.value in sh.minted && sh.minted[st.attempted.value] == p
          && st.attempted.value in sh.startupIds
          && (!st.reserved ==> st.attempted.value !in TailIds(sh)))
  }

  /** The record of this Open's own published reservation. */
  ghost predicate OwnFence(sh: Shared, st: Startup, rec: Record) {
    && st.reserved
    && st.attempted == Some(rec.pendingId)
    && rec.pendingEpoch == Some(rec.epoch + 1)
    && IsFence(sh, rec.pendingId, PairOf(rec))
    && (rec.bootstrap ==> PairOf(rec) == sh.initial)
  }

  /** No reservation of this Open can be taken twice from the version it read. */
  ghost predicate MayReserve(sh: Shared, st: Startup, rec: Record, v: nat) {
    && ReadAt(sh, rec, v)
    && rec.pendingEpoch.None?
    && !st.reserved
    && (st.attempted.Some? && st.attempted.value in sh.fenced ==> v < sh.rv)
  }

  ghost predicate SettleOk(sh: Shared, p: Process, st: Startup, pc: SettlePc) {
    match pc
    case Idle => true
    case PeerCheck(rec, v) => ReadAt(sh, rec, v) && rec.pendingEpoch.Some?
    case Recover(rec, v) => ReadAt(sh, rec, v) && rec.pendingEpoch.Some?
    case RecoverCommitted(rec, v) => ReadAt(sh, rec, v) && rec.pendingEpoch.Some?
      && OutcomeIs(sh, rec.pendingId, Committed)
    case RecoverRejected(rec, v) => ReadAt(sh, rec, v) && rec.pendingEpoch.Some?
      && OutcomeIs(sh, rec.pendingId, Rejected)
    case MarkerCheck(rec, v) => MayReserve(sh, st, rec, v)
    case BeginExists(rec, v) => MayReserve(sh, st, rec, v) && rec.bootstrap
    case BeginVerify(rec, v) => MayReserve(sh, st, rec, v) && rec.bootstrap
    case BeginCas(rec, v) => MayReserve(sh, st, rec, v) && rec.bootstrap
    case Reserving(rec, c) =>
      && c < |sh.cas| && st.attempted.Some?
      && sh.cas[c].next == Reserved(rec, st.attempted.value)
      && (rec.bootstrap ==> PairOf(rec) == sh.initial)
    case FenceCheck(rec) => OwnFence(sh, st, rec)
    case PrepareExists(rec) => OwnFence(sh, st, rec)
    case PrepareVerify(rec) => OwnFence(sh, st, rec)
    case FenceMigrate(rec) => OwnFence(sh, st, rec)
    case FenceMarker(rec) => OwnFence(sh, st, rec)
    case FenceExecute(rec) => OwnFence(sh, st, rec)
    case FenceOutcome(rec) => OwnFence(sh, st, rec)
    case CatchUp(target) => target.Some? ==> IsFence(sh, target.value.pendingId, PairOf(target.value))
    case CatchUpMarker(target) => target.Some? ==> IsFence(sh, target.value.pendingId, PairOf(target.value))
    case FinalizeRead(rec) => IsFence(sh, rec.pendingId, PairOf(rec))
    case FinalizePair(rec, cur, v) =>
      && ReadAt(sh, cur, v) && cur.pendingEpoch.Some? && cur.pendingEpoch == rec.pendingEpoch
         && cur.pendingId == rec.pendingId
    case FinalizeMarker(cur, v) => ReadAt(sh, cur, v) && cur.pendingEpoch.Some?
      && OutcomeIs(sh, cur.pendingId, Committed)
    case FinalizeCas(cur, v) => ReadAt(sh, cur, v) && cur.pendingEpoch.Some? && OutcomeIs(sh, cur.pendingId, Committed)
    case Publishing(c) => c < |sh.cas|
    case StartupRead => true
    case StartupVerify(rec) => true
  }

  /** The writer's fence is published; the anchor still shows it while version `v` stands. */
  ghost predicate HoldsFence(sh: Shared, p: Process, cur: Record, id: string, v: nat) {
    && Sound(cur)
    && cur.pendingEpoch.None?
    && IsFence(sh, id, PairOf(cur))
    && id in sh.minted && sh.minted[id] == p
    && v <= sh.rv
    && (v == sh.rv ==> sh.record == Reserved(cur, id))
  }

  ghost predicate WriteOk(sh: Shared, p: Process, pc: WritePc) {
    match pc
    case WBegin => true
    case WVerify(cur, v) => ReadAt(sh, cur, v) && cur.pendingEpoch.None?
    case WReserve(cur, v) => ReadAt(sh, cur, v) && cur.pendingEpoch.None?
    case WReserving(cur, id, c) =>
      && c < |sh.cas| && Sound(cur) && cur.pendingEpoch.None?
      && sh.cas[c].next == Reserved(cur, id)
      && id in sh.minted && sh.minted[id] == p
    case WExecute(cur, id, v) => HoldsFence(sh, p, cur, id, v)
    case WOutcome(cur, id, v) => HoldsFence(sh, p, cur, id, v)
    case WFinalize(cur, id, v) => HoldsFence(sh, p, cur, id, v) && OutcomeIs(sh, id, Committed)
    case WFinalizing(id, c) => c < |sh.cas| && sh.cas[c].next.token == id && id in sh.minted
    case WClear(cur, id, v) => HoldsFence(sh, p, cur, id, v) && OutcomeIs(sh, id, Rejected)
    case WAbort(cur, id, v) => HoldsFence(sh, p, cur, id, v) && OutcomeIs(sh, id, Rejected)
    case WAborting(c) => c < |sh.cas|
  }

  /** While version `v` stands nothing was finalized or committed since the first look. */
  ghost predicate Sandwich(sh: Shared, first: Record, v: nat, start: ReadStart) {
    && ReadAt(sh, first, v)
    && first.pendingEpoch.None?
    && AckedIn(start)
    && (v == sh.rv ==> sh.finalized == start.finalized && sh.commits == start.commits)
  }

  ghost predicate ReadOk(sh: Shared, pc: ReadPc) {
    match pc
    case RBegin => true
    case RQuery(first, v, start) => Sandwich(sh, first, v, start)
    case RVerify(first, v, start, rows) =>
      Sandwich(sh, first, v, start) && (v == sh.rv ==> rows <= sh.finalized && sh.db.log <= rows)
    case RRecheck(first, v, start, rows) =>
      Sandwich(sh, first, v, start) && (v == sh.rv ==> rows == sh.finalized)
  }

  ghost predicate ProcOk(sh: Shared, p: Process, proc: Proc) {
    match proc
    case Opening(st, pc) => StartupOk(sh, p, st) && SettleOk(sh, p, st, pc)
    case Settled => true
    case Writer(pc) => WriteOk(sh, p, pc)
    case Reader(pc) => ReadOk(sh, pc)
  }

  // ---------- what others may do ----------

  /** `q` or the environment moved; every other process keeps what it knows. */
  ghost predicate Evolves(sh: Shared, sh': Shared, q: Process) {
    && sh'.initial == sh.initial
    && sh.rv <= sh'.rv
    && (sh'.rv == sh.rv ==> sh'.record == sh.record && sh'.finalized == sh.finalized && sh'.fenced == sh.fenced)
    && (sh'.rv == sh.rv && sh.record.pendingEpoch.None? ==> sh'.commits == sh.commits && sh'.db.log <= sh.db.log)
    && (forall id :: id in sh.outcomes ==> id in sh'.outcomes && sh'.outcomes[id] == sh.outcomes[id])
    && (forall id :: id in sh.fenced ==> id in sh'.fenced && sh'.fenced[id] == sh.fenced[id])
    && (forall id :: id in sh.minted ==> id in sh'.minted && sh'.minted[id] == sh.minted[id])
    && sh.startupIds <= sh'.startupIds
    && (forall id :: id in TailIds(sh') && id !in TailIds(sh) ==> id in sh'.minted && sh'.minted[id] == q)
    && |sh.cas| <= |sh'.cas|
    && (forall i :: 0 <= i < |sh.cas| ==> sh'.cas[i].origin == sh.cas[i].origin && sh'.cas[i].next == sh.cas[i].next)
    && (forall c :: c in sh.applied ==> c in sh'.applied && sh'.applied[c] == sh.applied[c])
  }

  lemma SettleStable(sh: Shared, sh': Shared, q: Process, p: Process, st: Startup, pc: SettlePc)
    requires Evolves(sh, sh', q) && p != q
    requires StartupOk(sh, p, st) && SettleOk(sh, p, st, pc)
    ensures StartupOk(sh', p, st) && SettleOk(sh', p, st, pc)
  {
  }

  lemma WriteStable(sh: Shared, sh': Shared, q: Process, p: Process, pc: WritePc)
    requires Evolves(sh, sh', q) && WriteOk(sh, p, pc)
    ensures WriteOk(sh', p, pc)
  {
  }

  lemma ReadStable(sh: Shared, sh': Shared, q: Process, pc: ReadPc)
    requires Evolves(sh, sh', q) && ReadOk(sh, pc)
    ensures ReadOk(sh', pc)
  {
    if pc.RVerify? && pc.v == sh'.rv {
      assert sh'.db.log <= sh.db.log <= pc.rows;
    }
  }

  /** Knowledge is stable under everybody else's steps. */
  lemma ProcStable(sh: Shared, sh': Shared, q: Process, p: Process, proc: Proc)
    requires Evolves(sh, sh', q) && p != q && ProcOk(sh, p, proc)
    ensures ProcOk(sh', p, proc)
  {
    match proc
    case Opening(st, pc) => SettleStable(sh, sh', q, p, st, pc);
    case Settled =>
    case Writer(pc) => WriteStable(sh, sh', q, p, pc);
    case Reader(pc) => ReadStable(sh, sh', q, pc);
  }
}
