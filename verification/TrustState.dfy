/**
 The fencing protocol between the external trust anchor and the replicated
 database, as a step function (internal/store/rhiza_sql.go, internal/store/store.go).

 Any number of processes open the store, each with the binding it was deployed with, and write,
 read, fail, time out and crash.
 Each compare-and-swap and each SQL request is a message that stays in flight for
 ever, so it can be lost, answered without the answer arriving, or applied late.

 Assumptions about the parts outside the repository:
   - every anchor write changes `resourceVersion` and no version comes back (`rv` counts up);
   - a minted UUID was never minted before;
   - a request ID gets at most one outcome, and it outlives a restore;
   - database reads are linearizable (they read `db`);
   - a restore goes back: it keeps a version the database had, and only the versions before it;
   - epochs stay below the int64 maximum.
 */
module TrustState {
  import opened Prelude
  import opened AnchorRecord

  type Process = nat

  /** The row of `trust_state`, or the anchored half of a record. */
  datatype Pair = Pair(epoch: int, token: string)

  function PairOf(r: Record): Pair {
    Pair(r.epoch, r.token)
  }

  function PendingPair(r: Record): Pair
    requires r.pendingEpoch.Some?
  {
    Pair(r.pendingEpoch.value, r.pendingId)
  }

  datatype Outcome = Committed | Rejected

  /** A fenced request: its guarded tail moves the row from `base` to `(epoch, id)`. */
  datatype Tail = Tail(id: string, base: Pair, epoch: int)

  /**
   `log` is the business content: the fenced requests whose statements the database holds.
   `migrated` is the durable schema marker.
   */
  datatype Database = Database(row: Option<Pair>, log: seq<string>, migrated: bool)

  datatype Cas = Cas(origin: Process, expected: nat, next: Record)

  /** History of a fence: the pair it was reserved over and the message that published it. */
  datatype Fence = Fence(base: Pair, via: nat)

  /** What was known when a read took its first look at the anchor. */
  datatype ReadStart = ReadStart(acked: set<string>, finalized: seq<string>, commits: nat)

  /** A read that returned rows. */
  datatype Answer = Answer(reader: Process, start: ReadStart, rows: seq<string>, commits: nat)

  datatype Shared = Shared(
    initial: Pair,
    // the anchor
    record: Record,
    legacy: bool,
    rv: nat,
    // the database, and the earlier versions a restore can bring back
    db: Database,
    past: seq<Database>,
    outcomes: map<string, Outcome>,
    // messages in flight
    cas: seq<Cas>,
    applied: map<nat, nat>,
    tails: set<Tail>,
    creates: set<Pair>,
    migrates: bool,
    // history, read by no step
    minted: map<string, Process>,
    startupIds: set<string>,
    fenced: map<string, Fence>,
    finalized: seq<string>,
    commits: nat,
    acked: set<string>,
    answers: seq<Answer>)

  /** One Open's memory of its own reservation; it survives every retry of that Open. */
  datatype Startup = Startup(attempted: Option<string>, reserved: bool)

  /** Where one attempt of `settleTrustAnchorOnce` stands. */
  datatype SettlePc =
    | Idle
    | PeerCheck(rec: Record, v: nat)
    | Recover(rec: Record, v: nat)
    | RecoverCommitted(rec: Record, v: nat)
    | RecoverRejected(rec: Record, v: nat)
    | MarkerCheck(rec: Record, v: nat)
    | BeginExists(rec: Record, v: nat)
    | BeginVerify(rec: Record, v: nat)
    | BeginCas(rec: Record, v: nat)
    | Reserving(rec: Record, c: nat)
    | FenceCheck(rec: Record)
    | PrepareExists(rec: Record)
    | PrepareVerify(rec: Record)
    | FenceMigrate(rec: Record)
    | FenceMarker(rec: Record)
    | FenceExecute(rec: Record)
    | FenceOutcome(rec: Record)
    | CatchUp(target: Option<Record>)
    | CatchUpMarker(target: Option<Record>)
    | FinalizeRead(rec: Record)
    | FinalizePair(rec: Record, cur: Record, v: nat)
    | FinalizeMarker(cur: Record, v: nat)
    | FinalizeCas(cur: Record, v: nat)
    | Publishing(c: nat)
    | StartupRead
    | StartupVerify(rec: Record)

  /** Where `execute` stands. */
  datatype WritePc =
    | WBegin
    | WVerify(cur: Record, v: nat)
    | WReserve(cur: Record, v: nat)
    | WReserving(cur: Record, id: string, c: nat)
    | WExecute(cur: Record, id: string, v: nat)
    | WOutcome(cur: Record, id: string, v: nat)
    | WFinalize(cur: Record, id: string, v: nat)
    | WFinalizing(id: string, c: nat)
    | WClear(cur: Record, id: string, v: nat)
    | WAbort(cur: Record, id: string, v: nat)
    | WAborting(c: nat)

  /** Where `QueryContext` stands. */
  datatype ReadPc =
    | RBegin
    | RQuery(first: Record, v: nat, start: ReadStart)
    | RVerify(first: Record, v: nat, start: ReadStart, rows: seq<string>)
    | RRecheck(first: Record, v: nat, start: ReadStart, rows: seq<string>)

  /** An opening process, a process that published its anchor, or one call on such a process. */
  datatype Proc =
    | Opening(startup: Startup, pc: SettlePc)
    | Settled
    | Writer(w: WritePc)
    | Reader(r: ReadPc)

  /** Each process has the binding it was opened with; a call has its process's. */
  datatype State = State(sh: Shared, procs: map<Process, Proc>, bound: map<Process, Binding>, next: Process)

  function BoundTo(s: State, p: Process): Binding {
    if p in s.bound then s.bound[p] else Binding("", "")
  }

  /** What one move of a process does; a call that returned is gone. */
  datatype Effect = Effect(sh: Shared, proc: Option<Proc>)

  // ---------- messages ----------

  function SendCas(sh: Shared, p: Process, expected: nat, next: Record): Shared {
    sh.(cas := sh.cas + [Cas(p, expected, next)])
  }

  function SendTail(sh: Shared, id: string, base: Pair, epoch: int): Shared {
    sh.(tails := sh.tails + {Tail(id, base, epoch)})
  }

  predicate Fresh(sh: Shared, id: string) {
    ValidUuid(id) && id !in sh.minted && id != sh.initial.token
  }

  function Mint(sh: Shared, p: Process, id: string, startup: bool): Shared {
    sh.(minted := sh.minted[id := p], startupIds := if startup then sh.startupIds + {id} else sh.startupIds)
  }

  // ---------- startup settlement ----------

  function At(sh: Shared, st: Startup, pc: SettlePc): Option<Effect> {
    Some(Effect(sh, Some(Opening(st, pc))))
  }

  function Branch(sh: Shared, st: Startup, ok: bool, pc: SettlePc): Option<Effect> {
    At(sh, st, if ok then pc else Idle)
  }

  /** The first look at the anchor decides whose obligation this is. */
  function SettleLook(sh: Shared, own: Binding, st: Startup): Option<Effect> {
    if !Valid(own, sh.record) then None
    else if sh.record.pendingEpoch.Some? then
      if st.attempted == Some(sh.record.pendingId) then At(sh, st.(reserved := true), FenceCheck(sh.record))
      else At(sh, st, PeerCheck(sh.record, sh.rv))
    else if st.reserved then At(sh, st, StartupRead)
    else At(sh, st, MarkerCheck(sh.record, sh.rv))
  }

  /** In `recoverPendingTrust`. */
  predicate Recovers(pc: SettlePc) {
    pc.Recover? || pc.RecoverCommitted? || pc.RecoverRejected?
  }

  /** In `beginMigrationFence`, or before it at the marker. */
  predicate Begins(pc: SettlePc) {
    pc.MarkerCheck? || pc.BeginExists? || pc.BeginVerify? || pc.BeginCas? || pc.Reserving?
  }

  /** In `finishMigrationFence`. */
  predicate Fences(pc: SettlePc) {
    || pc.FenceCheck? || pc.PrepareExists? || pc.PrepareVerify? || pc.FenceMigrate? || pc.FenceMarker?
    || pc.FenceExecute? || pc.FenceOutcome?
  }

  /** In catch-up, finalization or the last verification. */
  predicate Finishes(pc: SettlePc) {
    || pc.CatchUp? || pc.CatchUpMarker? || pc.FinalizeRead? || pc.FinalizePair? || pc.FinalizeMarker?
    || pc.FinalizeCas? || pc.Publishing? || pc.StartupRead? || pc.StartupVerify?
  }

  /** `recoverPendingTrust`: a peer's fence that the database does not show. */
  function RecoverMove(sh: Shared, p: Process, st: Startup, pc: SettlePc): Option<Effect>
    requires Recovers(pc)
  {
    match pc
    case Recover(rec, v) =>
      if rec.pendingId in sh.outcomes then
        At(sh, st, if sh.outcomes[rec.pendingId].Committed? then RecoverCommitted(rec, v) else RecoverRejected(rec, v))
      else At(sh, st, Idle)
    case RecoverCommitted(rec, v) =>
      if rec.pendingEpoch.Some? && sh.db.row == Some(PendingPair(rec))
      then At(SendCas(sh, p, v, Finalized(rec)), st, Publishing(|sh.cas|))
      else At(sh, st, Idle)
    case RecoverRejected(rec, v) =>
      if sh.db.row == Some(PairOf(rec))
      then At(SendCas(sh, p, v, Cleared(rec)), st, Publishing(|sh.cas|))
      else At(sh, st, Idle)
  }

  /** `beginMigrationFence`, from the schema marker to the reservation's answer. */
  function BeginMove(sh: Shared, p: Process, st: Startup, pc: SettlePc, uuid: string): Option<Effect>
    requires Begins(pc)
  {
    match pc
    case MarkerCheck(rec, v) =>
      At(sh, st, if sh.db.migrated then StartupRead else if rec.bootstrap then BeginExists(rec, v) else CatchUp(None))
    case BeginExists(rec, v) =>
      At(sh, st, if sh.db.row.Some? then BeginVerify(rec, v) else BeginCas(rec, v))
    case BeginVerify(rec, v) =>
      Branch(sh, st, sh.db.row == Some(PairOf(rec)), BeginCas(rec, v))
    case BeginCas(rec, v) =>
      if rec.epoch >= MAX_INT64 then None
      else if st.attempted.Some? then
        At(SendCas(sh, p, v, Reserved(rec, st.attempted.value)), st, Reserving(rec, |sh.cas|))
      else if !Fresh(sh, uuid) then None
      else
        At(SendCas(Mint(sh, p, uuid, true), p, v, Reserved(rec, uuid)), st.(attempted := Some(uuid)),
          Reserving(rec, |sh.cas|))
    case Reserving(rec, c) =>
      if c in sh.applied && st.attempted.Some?
      then At(sh, st.(reserved := true), FenceCheck(Reserved(rec, st.attempted.value)))
      else None
  }

  /** `finishMigrationFence`: prepare the row, migrate, execute the one authorized request. */
  function FenceMove(sh: Shared, st: Startup, pc: SettlePc): Option<Effect>
    requires Fences(pc)
  {
    match pc
    case FenceCheck(rec) =>
      At(sh, st,
         if rec.pendingEpoch.Some? && sh.db.row == Some(PendingPair(rec))
         then CatchUp(Some(rec))
         else PrepareExists(rec))
    case PrepareExists(rec) =>
      if sh.db.row.Some? then At(sh, st, PrepareVerify(rec))
      else if rec.bootstrap then At(sh.(creates := sh.creates + {PairOf(rec)}), st, PrepareVerify(rec))
      else At(sh, st, Idle)
    case PrepareVerify(rec) =>
      Branch(sh, st, sh.db.row == Some(PairOf(rec)), FenceMigrate(rec))
    case FenceMigrate(rec) =>
      At(sh.(migrates := true), st, FenceMarker(rec))
    case FenceMarker(rec) =>
      Branch(sh, st, sh.db.migrated, FenceExecute(rec))
    case FenceExecute(rec) =>
      if rec.pendingEpoch.None? then At(sh, st, Idle)
      else At(SendTail(sh, rec.pendingId, PairOf(rec), rec.pendingEpoch.value), st, FenceOutcome(rec))
    case FenceOutcome(rec) =>
      if rec.pendingId in sh.outcomes then Branch(sh, st, sh.outcomes[rec.pendingId].Committed?, FinalizeRead(rec))
      else None
  }

  /** `convergeFence`, `catchUpMigration`, `finalizeTrustFence` and `finishTrustStartup`. */
  function FinishMove(sh: Shared, own: Binding, p: Process, st: Startup, pc: SettlePc): Option<Effect>
    requires Finishes(pc)
  {
    match pc
    case CatchUp(target) =>
      At(if sh.db.migrated then sh else sh.(migrates := true), st, CatchUpMarker(target))
    case CatchUpMarker(target) =>
      Branch(sh, st, sh.db.migrated, if target.Some? then FinalizeRead(target.value) else StartupRead)
    case FinalizeRead(rec) =>
      if !Valid(own, sh.record) then None
      else Branch(sh, st,
                  sh.record.pendingEpoch.Some? && sh.record.pendingEpoch == rec.pendingEpoch
                    && sh.record.pendingId == rec.pendingId,
                  FinalizePair(rec, sh.record, sh.rv))
    case FinalizePair(rec, cur, v) =>
      Branch(sh, st, rec.pendingEpoch.Some? && sh.db.row == Some(PendingPair(rec)), FinalizeMarker(cur, v))
    case FinalizeMarker(cur, v) =>
      Branch(sh, st, sh.db.migrated, FinalizeCas(cur, v))
    case FinalizeCas(cur, v) =>
      if cur.pendingEpoch.None? then At(sh, st, Idle)
      else At(SendCas(sh, p, v, Finalized(cur)), st, Publishing(|sh.cas|))
    case Publishing(c) =>
      if c in sh.applied then Some(Effect(sh, Some(Settled))) else None
    case StartupRead =>
      if !Valid(own, sh.record) then None
      else Branch(sh, st, sh.record.pendingEpoch.None?, StartupVerify(sh.record))
    case StartupVerify(rec) =>
      if sh.db.row == Some(PairOf(rec)) then Some(Effect(sh, Some(Settled))) else At(sh, st, Idle)
  }

  function SettleMove(sh: Shared, own: Binding, p: Process, st: Startup, pc: SettlePc, uuid: string): Option<Effect> {
    match pc
    case Idle => SettleLook(sh, own, st)
    case PeerCheck(rec, v) =>
      At(sh, st,
         if rec.pendingEpoch.Some? && sh.db.row == Some(PendingPair(rec)) then CatchUp(Some(rec)) else Recover(rec, v))
    case Recover(_, _) => RecoverMove(sh, p, st, pc)
    case RecoverCommitted(_, _) => RecoverMove(sh, p, st, pc)
    case RecoverRejected(_, _) => RecoverMove(sh, p, st, pc)
    case MarkerCheck(_, _) => BeginMove(sh, p, st, pc, uuid)
    case BeginExists(_, _) => BeginMove(sh, p, st, pc, uuid)
    case BeginVerify(_, _) => BeginMove(sh, p, st, pc, uuid)
    case BeginCas(_, _) => BeginMove(sh, p, st, pc, uuid)
    case Reserving(_, _) => BeginMove(sh, p, st, pc, uuid)
    case FenceCheck(_) => FenceMove(sh, st, pc)
    case PrepareExists(_) => FenceMove(sh, st, pc)
    case PrepareVerify(_) => FenceMove(sh, st, pc)
    case FenceMigrate(_) => FenceMove(sh, st, pc)
    case FenceMarker(_) => FenceMove(sh, st, pc)
    case FenceExecute(_) => FenceMove(sh, st, pc)
    case FenceOutcome(_) => FenceMove(sh, st, pc)
    case _ => FinishMove(sh, own, p, st, pc)
  }

  // ---------- the fenced write ----------

  function WAt(sh: Shared, pc: WritePc): Option<Effect> {
    Some(Effect(sh, Some(Writer(pc))))
  }

  function Return(sh: Shared): Option<Effect> {
    Some(Effect(sh, None))
  }

  function WriteMove(sh: Shared, own: Binding, p: Process, pc: WritePc, uuid: string): Option<Effect> {
    match pc
    case WBegin =>
      if !Valid(own, sh.record) then None
      else if sh.record.pendingEpoch.Some? then Return(sh)
      else WAt(sh, WVerify(sh.record, sh.rv))
    case WVerify(cur, v) =>
      if sh.db.row == Some(PairOf(cur)) then WAt(sh, WReserve(cur, v)) else Return(sh)
    case WReserve(cur, v) =>
      if !Fresh(sh, uuid) || cur.epoch >= MAX_INT64 then None
      else WAt(SendCas(Mint(sh, p, uuid, false), p, v, Reserved(cur, uuid)), WReserving(cur, uuid, |sh.cas|))
    case WReserving(cur, id, c) =>
      if c in sh.applied then WAt(sh, WExecute(cur, id, sh.applied[c])) else None
    case WExecute(cur, id, v) =>
      WAt(SendTail(sh, id, PairOf(cur), cur.epoch + 1), WOutcome(cur, id, v))
    case WOutcome(cur, id, v) =>
      if id !in sh.outcomes then None
      else WAt(sh, if sh.outcomes[id].Committed? then WFinalize(cur, id, v) else WClear(cur, id, v))
    case WFinalize(cur, id, v) =>
      WAt(SendCas(sh, p, v,
        cur.(epoch := cur.epoch + 1, token := id, pendingEpoch := None, pendingId := "", bootstrap := false)),
          WFinalizing(id, |sh.cas|))
    case WFinalizing(id, c) =>
      if c in sh.applied then Return(sh.(acked := sh.acked + {id})) else None
    case WClear(cur, id, v) =>
      if sh.db.row == Some(PairOf(cur)) then WAt(sh, WAbort(cur, id, v)) else Return(sh)
    case WAbort(cur, id, v) =>
      WAt(SendCas(sh, p, v, cur.(pendingEpoch := None, pendingId := "")), WAborting(|sh.cas|))
    case WAborting(c) =>
      if c in sh.applied then Return(sh) else None
  }

  // ---------- the sandwiched read ----------

  function RAt(sh: Shared, pc: ReadPc): Option<Effect> {
    Some(Effect(sh, Some(Reader(pc))))
  }

  function ReadMove(sh: Shared, own: Binding, p: Process, pc: ReadPc): Option<Effect> {
    match pc
    case RBegin =>
      if !Valid(own, sh.record) then None
      else if sh.record.pendingEpoch.Some? then Return(sh)
      else RAt(sh, RQuery(sh.record, sh.rv, ReadStart(sh.acked, sh.finalized, sh.commits)))
    case RQuery(first, v, start) =>
      RAt(sh, RVerify(first, v, start, sh.db.log))
    case RVerify(first, v, start, rows) =>
      if sh.db.row == Some(PairOf(first)) then RAt(sh, RRecheck(first, v, start, rows)) else Return(sh)
    case RRecheck(first, v, start, rows) =>
      if !Valid(own, sh.record) then None
      else if sh.rv == v && sh.record.pendingEpoch.None? && PairOf(sh.record) == PairOf(first)
      then Return(sh.(answers := sh.answers + [Answer(p, start, rows, sh.commits)]))
      else Return(sh)
  }

  function Move(sh: Shared, own: Binding, p: Process, proc: Proc, uuid: string): Option<Effect> {
    match proc
    case Opening(st, pc) => SettleMove(sh, own, p, st, pc, uuid)
    case Settled => None
    case Writer(pc) => WriteMove(sh, own, p, pc, uuid)
    case Reader(pc) => ReadMove(sh, own, p, pc)
  }

  // ---------- the anchor server ----------

  function Advance(sh: Shared, db: Database): Shared {
    sh.(db := db, past := sh.past + [sh.db])
  }

  predicate CanApplyCas(sh: Shared, c: nat) {
    c < |sh.cas| && c !in sh.applied && sh.cas[c].expected == sh.rv
  }

  /** The write of a record in the common representation. */
  function ApplyCas(sh: Shared, c: nat): Shared
    requires CanApplyCas(sh, c)
  {
    var next := sh.cas[c].next;
    sh.(record := next,
        rv := sh.rv + 1,
        applied := sh.applied[c := sh.rv + 1],
        fenced := if next.pendingEpoch.Some? then sh.fenced[next.pendingId := Fence(PairOf(next), c)] else sh.fenced,
        finalized := if sh.record.pendingEpoch.Some? && next.epoch != sh.record.epoch then sh.finalized + [next.token]
                     else sh.finalized)
  }

  /**
   A compare-and-swap that finds the eight-key shape first writes the same record in the twelve-key
   shape, and lands on the version that write created; `goesOn` is false when the caller died between the two.
   */
  function MigrateShape(sh: Shared, c: nat, goesOn: bool): Shared
    requires CanApplyCas(sh, c)
  {
    sh.(legacy := false,
        rv := sh.rv + 1,
        cas := if goesOn then sh.cas[c := sh.cas[c].(expected := sh.rv + 1)] else sh.cas)
  }

  predicate CanRecoveryReserve(sh: Shared, t: Transition) {
    && !sh.legacy && ValidStructure(sh.record) && sh.record.pendingEpoch.None? && !sh.record.bootstrap
       && sh.record.transition.None?
    && t.generation == sh.record.generation && t.anchorId != ""
  }

  function RecoveryReserve(sh: Shared, t: Transition): Shared {
    sh.(record := sh.record.(transition := Some(t)), rv := sh.rv + 1)
  }

  predicate CanRecoveryCommit(sh: Shared, b: Binding, r: Receipt) {
    && !sh.legacy && ValidStructure(sh.record) && sh.record.transition.Some? && b.clusterId != "" && b.storageId != ""
    && sh.record.generation < MAX_UINT64
    && r.generation == sh.record.generation + 1
  }

  function RecoveryCommit(sh: Shared, b: Binding, r: Receipt): Shared {
    sh.(record := sh.record.(clusterId := b.clusterId, storageId := b.storageId, generation := r.generation,
                             transition := None, receipt := Some(r)),
        rv := sh.rv + 1)
  }

  // ---------- the database ----------

  predicate CanCommit(sh: Shared, t: Tail) {
    t in sh.tails && t.id !in sh.outcomes && sh.db.row == Some(t.base)
  }

  /** The request's own statements and its guarded tail, in one transaction. */
  function CommitTail(sh: Shared, t: Tail): Shared {
    Advance(sh, Database(Some(Pair(t.epoch, t.id)), sh.db.log + [t.id], sh.db.migrated))
      .(outcomes := sh.outcomes[t.id := Committed], commits := sh.commits + 1)
  }

  predicate CanReject(sh: Shared, t: Tail) {
    t in sh.tails && t.id !in sh.outcomes
  }

  function RejectTail(sh: Shared, t: Tail): Shared {
    sh.(outcomes := sh.outcomes[t.id := Rejected])
  }

  /** CREATE TABLE and INSERT fail as one transaction when the table exists. */
  predicate CanCreate(sh: Shared, pair: Pair) {
    pair in sh.creates && sh.db.row.None?
  }

  function CreateRow(sh: Shared, pair: Pair): Shared {
    Advance(sh, sh.db.(row := Some(pair)))
  }

  function ApplyMigrate(sh: Shared): Shared {
    Advance(sh, sh.db.(migrated := true))
  }

  /** The whole database goes back to an earlier version. */
  function Restore(sh: Shared, i: nat): Shared
    requires i < |sh.past|
  {
    sh.(db := sh.past[i], past := sh.past[..i])
  }

  // ---------- steps and runs ----------

  datatype Step =
    | Open(own: Binding)
    | StartWrite(from: Process)
    | StartRead(from: Process)
    | Act(p: Process, uuid: string)
    | Misread(p: Process)
    | Fail(p: Process)
    | Crash(p: Process)
    | AnchorApply(c: nat)
    | AnchorMigrate(c: nat, goesOn: bool)
    | AnchorRecoveryReserve(t: Transition)
    | AnchorRecoveryCommit(b: Binding, r: Receipt)
    | DbCommit(tail: Tail)
    | DbReject(tail: Tail)
    | DbCreate(pair: Pair)
    | DbMigrate
    | DbRestore(i: nat)

  /** A step of the anchor server or the database; no process moves. */
  function Environment(sh: Shared, step: Step): Option<Shared> {
    match step
    case AnchorApply(c) => if CanApplyCas(sh, c) && !sh.legacy then Some(ApplyCas(sh, c)) else None
    case AnchorMigrate(c, goesOn) => if CanApplyCas(sh, c) && sh.legacy then Some(MigrateShape(sh, c, goesOn)) else None
    case AnchorRecoveryReserve(t) => if CanRecoveryReserve(sh, t) then Some(RecoveryReserve(sh, t)) else None
    case AnchorRecoveryCommit(b, r) => if CanRecoveryCommit(sh, b, r) then Some(RecoveryCommit(sh, b, r)) else None
    case DbCommit(t) => if CanCommit(sh, t) then Some(CommitTail(sh, t)) else None
    case DbReject(t) => if CanReject(sh, t) then Some(RejectTail(sh, t)) else None
    case DbCreate(pair) => if CanCreate(sh, pair) then Some(CreateRow(sh, pair)) else None
    case DbMigrate => if sh.migrates then Some(ApplyMigrate(sh)) else None
    case DbRestore(i) => if i < |sh.past| then Some(Restore(sh, i)) else None
    case _ => None
  }

  function Spawn(s: State, proc: Proc, own: Binding): State {
    s.(procs := s.procs[s.next := proc], bound := s.bound[s.next := own], next := s.next + 1)
  }

  predicate IsSettled(s: State, p: Process) {
    p in s.procs && s.procs[p].Settled?
  }

  /** Where settlement takes a failed read of the row for a row that does not match. */
  predicate MayMisread(proc: Proc) {
    proc.Opening? && (proc.pc.PeerCheck? || proc.pc.FenceCheck?)
  }

  function Misreads(pc: SettlePc): SettlePc {
    match pc
    case PeerCheck(rec, v) => Recover(rec, v)
    case FenceCheck(rec) => PrepareExists(rec)
    case _ => Idle
  }

  /** An I/O error, a timeout or a lost answer: settlement tries again, a call returns its error. */
  function AfterFailure(s: State, p: Process): State
    requires p in s.procs
  {
    match s.procs[p]
    case Opening(st, _) => s.(procs := s.procs[p := Opening(st, Idle)])
    case Settled => s
    case Writer(_) => s.(procs := s.procs - {p})
    case Reader(_) => s.(procs := s.procs - {p})
  }

  ghost predicate Next(s: State, step: Step, s': State) {
    match step
    case Open(own) => s' == Spawn(s, Opening(Startup(None, false), Idle), own)
    case StartWrite(from) => IsSettled(s, from) && s' == Spawn(s, Writer(WBegin), BoundTo(s, from))
    case StartRead(from) => IsSettled(s, from) && s' == Spawn(s, Reader(RBegin), BoundTo(s, from))
    case Act(p, uuid) =>
      && p in s.procs
      && var e := Move(s.sh, BoundTo(s, p), p, s.procs[p], uuid);
      && e.Some?
      && s' == s.(sh := e.value.sh, procs := if e.value.proc.Some? then s.procs[p := e.value.proc.value]
         else s.procs - {p})
    case Misread(p) =>
      && p in s.procs && MayMisread(s.procs[p])
      && s' == s.(procs := s.procs[p := Opening(s.procs[p].startup, Misreads(s.procs[p].pc))])
    case Fail(p) => p in s.procs && s' == AfterFailure(s, p)
    case Crash(p) => p in s.procs && s' == s.(procs := s.procs - {p})
    case _ =>
      && Environment(s.sh, step).Some?
      && s' == s.(sh := Environment(s.sh, step).value)
  }

  /** The deployment applied a greenfield anchor; the database has no trust row, migrated or not. */
  ghost predicate Init(s: State) {
    && s.procs == map[] && s.bound == map[]
    && s.sh.record.bootstrap
    && s.sh.record.epoch == 0
    && s.sh.record.pendingEpoch.None?
    && (s.sh.legacy ==> s.sh.record.generation == 0 && s.sh.record.receipt.None?)
    && Sound(s.sh.record) && InRange(s.sh.record)
    && s.sh.initial == PairOf(s.sh.record)
    && s.sh.db.row.None? && s.sh.db.log == [] && s.sh.past == []
    && s.sh.outcomes == map[] && s.sh.cas == [] && s.sh.applied == map[] && s.sh.tails == {} && s.sh.creates == {}
       && !s.sh.migrates
    && s.sh.minted == map[] && s.sh.startupIds == {} && s.sh.fenced == map[] && s.sh.finalized == []
    && s.sh.commits == 0 && s.sh.acked == {} && s.sh.answers == []
  }

  /** `trace` is a run: it starts anywhere and every step is taken. */
  ghost predicate Run(trace: seq<State>, steps: seq<Step>) {
    && |trace| == |steps| + 1
    && forall i :: 0 <= i < |steps| ==> Next(trace[i], steps[i], trace[i + 1])
  }

  ghost predicate NoRestore(steps: seq<Step>) {
    forall i :: 0 <= i < |steps| ==> !steps[i].DbRestore?
  }
}
