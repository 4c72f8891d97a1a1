/** The guarantees of the fencing protocol, over every run of any number of processes. */
module TrustTheorems {
  import opened Prelude
  import opened AnchorRecord
  import opened TrustState
  import opened TrustInvariant
  import opened TrustRuns
  import Env = TrustEnvironment
  import Processes = TrustProcesses

  // ---------- the database keeps up with the anchor ----------

  /** The database holds everything finalized, and the pending request if that committed. */
  ghost predicate KeepsUp(sh: Shared) {
    && sh.finalized <= sh.db.log
    && (sh.record.pendingEpoch.Some? && OutcomeIs(sh, sh.record.pendingId, Committed) ==>
          sh.db.log == sh.finalized + [sh.record.pendingId])
  }

  /** Past these points a process relies on the schema marker. */
  predicate NeedsMarker(proc: Proc) {
    match proc
    case Opening(_, pc) =>
      pc.FenceExecute? || pc.FenceOutcome? || pc.FinalizeCas? || pc.Publishing? || pc.StartupRead? || pc.StartupVerify?
    case _ => true
  }

  /** A fenced request was only sent to a migrated database, which is under everybody who relies on it. */
  ghost predicate Marked(s: State) {
    && (s.sh.tails != {} ==> s.sh.db.migrated)
    && (forall p :: p in s.procs && NeedsMarker(s.procs[p]) ==> s.sh.db.migrated)
  }

  lemma ApplyKeepsUp(sh: Shared, c: nat)
    requires Core(sh) && KeepsUp(sh) && CanApplyCas(sh, c) && !sh.legacy
    ensures KeepsUp(ApplyCas(sh, c))
  {
    Env.LandingOk(sh, c);
    if sh.record.pendingEpoch.Some? {
      if OutcomeIs(sh, sh.record.pendingId, Committed) {
        Env.FinalizeLands(sh, c, 0);
      } else {
        Env.AbortLands(sh, c, 0);
      }
    } else {
      var id := sh.cas[c].next.pendingId;
      assert id !in sh.fenced;
      assert !OutcomeIs(sh, id, Committed);
    }
  }

  lemma CommitKeepsUp(sh: Shared, t: Tail)
    requires Core(sh) && KeepsUp(sh) && CanCommit(sh, t)
    ensures KeepsUp(CommitTail(sh, t))
  {
    Env.CommitIsPending(sh, t);
  }

  lemma EnvironmentKeepsUp(sh: Shared, step: Step)
    requires Core(sh) && KeepsUp(sh) && Environment(sh, step).Some? && !step.DbRestore?
    ensures KeepsUp(Environment(sh, step).value)
  {
    hide Core;
    match step
    case AnchorApply(c) => ApplyKeepsUp(sh, c); hide KeepsUp;
    case DbCommit(t) => CommitKeepsUp(sh, t); hide KeepsUp;
    case DbReject(t) => RejectKeepsUp(sh, t); hide KeepsUp;
    case _ => hide CanRecoveryReserve, CanRecoveryCommit, ApplyCas, CommitTail, RejectTail;
  }

  lemma RejectKeepsUp(sh: Shared, t: Tail)
    requires KeepsUp(sh) && CanReject(sh, t)
    ensures KeepsUp(RejectTail(sh, t))
  {
  }

  /** A process that sees an outcome, or its own fence gone, knows the database was migrated. */
  lemma OutcomeNeedsTail(sh: Shared, id: string)
    requires RequestsOk(sh) && id in sh.outcomes
    ensures sh.tails != {}
  {
    assert id in TailIds(sh);
  }

  lemma ReservedThenResolved(sh: Shared, p: Process, st: Startup)
    requires FencesOk(sh) && RequestsOk(sh) && StartupOk(sh, p, st) && st.reserved && sh.record.pendingEpoch.None?
    ensures sh.tails != {}
  {
    OutcomeNeedsTail(sh, st.attempted.value);
  }

  /** What a settling process relies on next is already durable. */
  ghost predicate MarkerKnown(sh: Shared, e: Effect) {
    && (e.sh.tails == sh.tails || sh.db.migrated)
    && (e.proc.Some? && NeedsMarker(e.proc.value) ==> sh.db.migrated)
  }

  lemma FenceMarked(sh: Shared, st: Startup, pc: SettlePc)
    requires Fences(pc)
    requires NeedsMarker(Opening(st, pc)) ==> sh.db.migrated
    requires FenceMove(sh, st, pc).Some?
    ensures MarkerKnown(sh, FenceMove(sh, st, pc).value)
  {
  }

  lemma FinishMarked(sh: Shared, own: Binding, p: Process, st: Startup, pc: SettlePc)
    requires Finishes(pc)
    requires NeedsMarker(Opening(st, pc)) ==> sh.db.migrated
    requires FinishMove(sh, own, p, st, pc).Some?
    ensures MarkerKnown(sh, FinishMove(sh, own, p, st, pc).value)
  {
  }

  lemma LookMarked(sh: Shared, own: Binding, p: Process, st: Startup)
    requires FencesOk(sh) && RequestsOk(sh) && StartupOk(sh, p, st)
    requires sh.tails != {} ==> sh.db.migrated
    requires SettleLook(sh, own, st).Some?
    ensures MarkerKnown(sh, SettleLook(sh, own, st).value)
  {
    hide FencesOk, RequestsOk, StartupOk;
    if st.reserved && sh.record.pendingEpoch.None? {
      ReservedThenResolved(sh, p, st);
    }
  }

  lemma RecoverMarked(sh: Shared, p: Process, st: Startup, pc: SettlePc)
    requires Recovers(pc)
    requires RequestsOk(sh) && SettleOk(sh, p, st, pc)
    requires sh.tails != {} ==> sh.db.migrated
    requires RecoverMove(sh, p, st, pc).Some?
    ensures MarkerKnown(sh, RecoverMove(sh, p, st, pc).value)
  {
    hide RequestsOk;
    if !pc.Recover? {
      OutcomeNeedsTail(sh, pc.rec.pendingId);
    }
  }

  lemma SettleMarked(sh: Shared, own: Binding, p: Process, st: Startup, pc: SettlePc, uuid: string)
    requires FencesOk(sh) && RequestsOk(sh) && StartupOk(sh, p, st) && SettleOk(sh, p, st, pc)
    requires sh.tails != {} ==> sh.db.migrated
    requires NeedsMarker(Opening(st, pc)) ==> sh.db.migrated
    requires SettleMove(sh, own, p, st, pc, uuid).Some?
    ensures MarkerKnown(sh, SettleMove(sh, own, p, st, pc, uuid).value)
  {
    hide FencesOk, RequestsOk, StartupOk, SettleOk, FenceMove, FinishMove, RecoverMove, SettleLook;
    if pc.Idle? {
      LookMarked(sh, own, p, st);
    } else if Recovers(pc) {
      RecoverMarked(sh, p, st, pc);
    } else if Fences(pc) {
      FenceMarked(sh, st, pc);
    } else if Finishes(pc) {
      FinishMarked(sh, own, p, st, pc);
    }
  }

  /** A restore that loses no fenced write, or another step, keeps the database level with the anchor. */
  lemma StepKeepsUp(s: State, step: Step, s': State)
    requires Inv(s) && KeepsUp(s.sh) && Next(s, step, s')
    requires step.DbRestore? ==> s'.sh.db.log == s.sh.db.log
    ensures KeepsUp(s'.sh)
  {
    hide AnchorOk, HistoryOk, IdsOk, FencesOk, RequestsOk, CassesOk, AppliedOk, DbsOk, AnswersOk, ProcOk, MintsOk,
         Evolves, Environment, Move, Processes.Sends, KeepsUp;
    match step {
      case Open(_) =>
      case StartWrite(_) =>
      case StartRead(_) =>
      case Misread(_) =>
      case Fail(_) =>
      case Crash(_) =>
      case Act(p, uuid) =>
        Processes.MoveKeeps(s.sh, BoundTo(s, p), p, s.procs[p], uuid);
        SendsKeepUp(s.sh, s'.sh, p);
      case DbRestore(i) => RestoreKeepsUp(s.sh, i, s'.sh);
      case _ => EnvironmentKeepsUp(s.sh, step);
    }
  }

  lemma SendsKeepUp(sh: Shared, sh': Shared, p: Process)
    requires KeepsUp(sh) && Processes.Sends(sh, sh', p)
    ensures KeepsUp(sh')
  {
  }

  lemma RestoreKeepsUp(sh: Shared, i: nat, sh': Shared)
    requires KeepsUp(sh) && Environment(sh, DbRestore(i)) == Some(sh') && sh'.db.log == sh.db.log
    ensures KeepsUp(sh')
  {
  }

  /** Only a restore can take the marker away. */
  lemma EnvironmentKeepsMarker(sh: Shared, step: Step)
    requires Environment(sh, step).Some? && !step.DbRestore?
    ensures Environment(sh, step).value.tails == sh.tails
    ensures sh.db.migrated ==> Environment(sh, step).value.db.migrated
  {
    hide CanRecoveryReserve, CanRecoveryCommit;
  }

  lemma ActMarked(s: State, p: Process, uuid: string, s': State)
    requires Inv(s) && Marked(s) && Next(s, Act(p, uuid), s')
    ensures Marked(s')
  {
    hide AnchorOk, HistoryOk, IdsOk, FencesOk, RequestsOk, CassesOk, AppliedOk, DbsOk, AnswersOk, StartupOk, SettleOk,
         WriteOk, ReadOk, SettleMove, WriteMove, ReadMove, MintsOk, Processes.Sends, Evolves;
    Processes.MoveKeeps(s.sh, BoundTo(s, p), p, s.procs[p], uuid);
    SendsLeaveDatabase(s.sh, s'.sh, p);
    if s.procs[p].Opening? {
      SettleMarked(s.sh, BoundTo(s, p), p, s.procs[p].startup, s.procs[p].pc, uuid);
    }
  }

  lemma SendsLeaveDatabase(sh: Shared, sh': Shared, p: Process)
    requires Processes.Sends(sh, sh', p)
    ensures sh'.db == sh.db
  {
  }

  /** A restore to a migrated version, or another step, keeps the marker under whoever relies on it. */
  lemma StepMarked(s: State, step: Step, s': State)
    requires Inv(s) && Marked(s) && Next(s, step, s')
    requires step.DbRestore? && s.sh.db.migrated ==> s'.sh.db.migrated
    ensures Marked(s')
  {
    hide Inv, Environment, Move;
    match step {
      case Open(_) =>
      case StartWrite(from) => StartNeedsSettled(s, from);
      case StartRead(from) => StartNeedsSettled(s, from);
      case Misread(_) =>
      case Fail(_) =>
      case Crash(_) =>
      case Act(p, uuid) => ActMarked(s, p, uuid, s');
      case DbRestore(i) => RestoreSendsNothing(s.sh, i);
      case _ => EnvironmentKeepsMarker(s.sh, step);
    }
  }

  lemma RestoreSendsNothing(sh: Shared, i: nat)
    requires Environment(sh, DbRestore(i)).Some?
    ensures Environment(sh, DbRestore(i)).value.tails == sh.tails
  {
  }

  lemma StartNeedsSettled(s: State, from: Process)
    requires IsSettled(s, from) && Marked(s)
    ensures s.sh.db.migrated
  {
  }

  // ---------- runs whose restores lose nothing, or keep the marker ----------

  /** Up to step `n` no restore lost a fenced write. */
  ghost predicate LosesNothing(trace: seq<State>, steps: seq<Step>, n: nat)
    requires Run(trace, steps) && n <= |steps|
  {
    forall i :: 0 <= i < n && steps[i].DbRestore? ==> trace[i + 1].sh.db.log == trace[i].sh.db.log
  }

  /** Step `i` restores a migrated database to a version before its migration. */
  ghost predicate DropsMarker(trace: seq<State>, steps: seq<Step>, i: nat)
    requires Run(trace, steps) && i < |steps|
  {
    steps[i].DbRestore? && trace[i].sh.db.migrated && !trace[i + 1].sh.db.migrated
  }

  lemma {:induction false} RunKeepsUp(trace: seq<State>, steps: seq<Step>, i: nat)
    requires Run(trace, steps) && Init(trace[0]) && i < |trace| && LosesNothing(trace, steps, i)
    ensures Inv(trace[i]) && KeepsUp(trace[i].sh)
  {
    hide Inv, Next, KeepsUp;
    if i == 0 {
      InitHolds(trace[0]);
      InitKeepsUp(trace[0]);
    } else {
      RunKeepsUp(trace, steps, i - 1);
      assert Next(trace[i - 1], steps[i - 1], trace[i - 1 + 1]);
      StepKeeps(trace[i - 1], steps[i - 1], trace[i]);
      StepKeepsUp(trace[i - 1], steps[i - 1], trace[i]);
    }
  }

  lemma InitKeepsUp(s: State)
    requires Init(s)
    ensures KeepsUp(s.sh) && Marked(s)
  {
  }

  lemma {:induction false} RunMarked(trace: seq<State>, steps: seq<Step>, i: nat)
    requires Run(trace, steps) && Init(trace[0]) && i < |trace|
    requires forall k :: 0 <= k < i ==> !DropsMarker(trace, steps, k)
    ensures Inv(trace[i]) && Marked(trace[i])
  {
    hide Inv, Next, Marked;
    if i == 0 {
      InitHolds(trace[0]);
      InitKeepsUp(trace[0]);
    } else {
      RunMarked(trace, steps, i - 1);
      assert Next(trace[i - 1], steps[i - 1], trace[i - 1 + 1]);
      StepKeeps(trace[i - 1], steps[i - 1], trace[i]);
      assert !DropsMarker(trace, steps, i - 1);
      StepMarked(trace[i - 1], steps[i - 1], trace[i]);
    }
  }

  /** The fence: where the row of the database may stand, and which request may still commit. */
  ghost predicate FenceHolds(sh: Shared) {
    && (sh.db.row.None? ==> sh.record.bootstrap && sh.finalized == [])
    && (sh.db.row.Some? ==>
          || sh.db.row.value == PairOf(sh.record)
          || (sh.record.pendingEpoch.Some? && sh.db.row.value == PendingPair(sh.record)))
    && (sh.record.pendingEpoch.None? ==> forall t :: !CanCommit(sh, t))
    && (forall t :: CanCommit(sh, t) ==> Pends(sh, t.id) && t.base == PairOf(sh.record))
    && (sh.record.pendingEpoch.Some? && OutcomeIs(sh, sh.record.pendingId, Committed) <==>
          sh.record.pendingEpoch.Some? && sh.db.row == Some(PendingPair(sh.record)))
  }

  lemma KeepsUpFences(sh: Shared)
    requires AnchorOk(sh) && IdsOk(sh) && FencesOk(sh) && RequestsOk(sh) && DbOk(sh, sh.db) && KeepsUp(sh)
    ensures FenceHolds(sh)
  {
    assert sh.db.log == sh.finalized
      || (sh.record.pendingEpoch.Some? && sh.db.log == sh.finalized + [sh.record.pendingId]);
    forall t | CanCommit(sh, t) ensures Pends(sh, t.id) && t.base == PairOf(sh.record) {
      assert IsFence(sh, t.id, t.base);
    }
    if sh.record.pendingEpoch.Some? && sh.db.row == Some(PendingPair(sh.record)) {
      assert sh.db.log[|sh.db.log| - 1] == sh.record.pendingId;
    }
  }

  /** Fence invariant, with crashes, lost answers, late messages, and every restore that loses no fenced write. */
  lemma FenceInvariant(trace: seq<State>, steps: seq<Step>, i: nat)
    requires Run(trace, steps) && Init(trace[0]) && i < |trace| && LosesNothing(trace, steps, i)
    ensures FenceHolds(trace[i].sh)
  {
    hide AnchorOk, IdsOk, FencesOk, RequestsOk, DbOk, KeepsUp, FenceHolds, Next, Init, MintsOk, HistoryOk, CassesOk,
         AppliedOk, AnswersOk, ProcOk, LosesNothing;
    RunKeepsUp(trace, steps, i);
    KeepsUpFences(trace[i].sh);
  }

  /** The other restores are exactly the ones that break it. */
  lemma RestoreBreaksFenceIff(trace: seq<State>, steps: seq<Step>, i: nat)
    requires Run(trace, steps) && Init(trace[0]) && i < |steps| && LosesNothing(trace, steps, i) && steps[i].DbRestore?
    ensures FenceHolds(trace[i + 1].sh) <==> trace[i + 1].sh.db.log == trace[i].sh.db.log
  {
    hide Inv, Next, Init, KeepsUp, FenceHolds, DbOk;
    RunKeepsUp(trace, steps, i);
    assert Next(trace[i], steps[i], trace[i + 1]);
    StepKeeps(trace[i], steps[i], trace[i + 1]);
    if trace[i + 1].sh.db.log == trace[i].sh.db.log {
      assert LosesNothing(trace, steps, i + 1);
      FenceInvariant(trace, steps, i + 1);
    } else if FenceHolds(trace[i + 1].sh) {
      InvDb(trace[i]);
      InvDb(trace[i + 1]);
      FencedLogLength(trace[i].sh);
      FencedLogLength(trace[i + 1].sh);
      FenceInvariant(trace, steps, i);
      RestoreGoesBack(trace[i], steps[i].i, trace[i + 1]);
      assert false;
    }
  }

  lemma InvDb(s: State)
    requires Inv(s)
    ensures DbOk(s.sh, s.sh.db) && AnchorOk(s.sh)
  {
    hide AnchorOk, HistoryOk, IdsOk, FencesOk, RequestsOk, CassesOk, AppliedOk, DbOk, AnswersOk, MintsOk, ProcsOk;
  }

  /** How much the database holds where the fence does. */
  function HeldWrites(sh: Shared): nat {
    |sh.finalized| + if sh.record.pendingEpoch.Some? && sh.record.pendingId in sh.outcomes
                        && sh.outcomes[sh.record.pendingId].Committed? then 1 else 0
  }

  lemma FencedLogLength(sh: Shared)
    requires DbOk(sh, sh.db) && AnchorOk(sh)
    ensures FenceHolds(sh) ==> |sh.db.log| == HeldWrites(sh)
  {
    hide ValidUuid;
  }

  /** A restore only shortens the log, and leaves the anchor and the outcomes alone. */
  lemma RestoreGoesBack(s: State, i: nat, s': State)
    requires Inv(s) && Next(s, DbRestore(i), s')
    ensures s'.sh.db.log <= s.sh.db.log && HeldWrites(s'.sh) == HeldWrites(s.sh)
  {
    hide AnchorOk, HistoryOk, IdsOk, FencesOk, RequestsOk, CassesOk, AppliedOk, DbOk, AnswersOk, MintsOk, ProcsOk;
  }

  /**
   A process that published its anchor, and every call on one, stands on a migrated database, in
   every run in which no restore took a migration back.
   */
  lemma SettledImpliesMigrated(trace: seq<State>, steps: seq<Step>, i: nat, p: Process)
    requires Run(trace, steps) && Init(trace[0]) && i < |trace|
    requires forall k :: 0 <= k < i ==> !DropsMarker(trace, steps, k)
    requires p in trace[i].procs && !trace[i].procs[p].Opening?
    ensures trace[i].sh.db.migrated
  {
    hide Inv, Next, Init, DropsMarker;
    RunMarked(trace, steps, i);
    assert NeedsMarker(trace[i].procs[p]);
  }

  /** Every acknowledged write is in the database, in every run whose restores lose no fenced write. */
  lemma AcknowledgedStays(trace: seq<State>, steps: seq<Step>, i: nat, id: string)
    requires Run(trace, steps) && Init(trace[0]) && i < |trace| && LosesNothing(trace, steps, i)
    requires id in trace[i].sh.acked
    ensures id in trace[i].sh.db.log
  {
    hide AnchorOk, IdsOk, FencesOk, RequestsOk, DbsOk, Next, Init, MintsOk, CassesOk, AppliedOk, AnswersOk, ProcOk,
         LosesNothing;
    RunKeepsUp(trace, steps, i);
    assert id in trace[i].sh.finalized;
  }
}
