/**
 Guarantees that survive restores: what a read returns, what a rolled-back database
 refuses, and how often the deployment's bootstrap can be spent.
 */
module TrustReads {
  import opened Prelude
  import opened AnchorRecord
  import opened TrustState
  import opened TrustInvariant
  import opened TrustRuns
  import Env = TrustEnvironment
  import Processes = TrustProcesses

  // ---------- the sandwiched read ----------

  /** `p` is past its first look at the anchor and remembers what it saw, or it is gone for good. */
  ghost predicate Remembers(s: State, p: Process, start: ReadStart) {
    && p < s.next
    && (p in s.procs ==>
          && s.procs[p].Reader? && !s.procs[p].r.RBegin?
          && s.procs[p].r.start == start)
  }

  lemma StepRemembers(s: State, step: Step, s': State, p: Process, start: ReadStart)
    requires Next(s, step, s') && Remembers(s, p, start)
    ensures Remembers(s', p, start)
  {
    hide SettleMove, WriteMove, Environment;
  }

  lemma FirstLook(s: State, p: Process, uuid: string, s': State)
    requires Inv(s) && Next(s, Act(p, uuid), s') && s.procs[p] == Reader(RBegin)
    ensures Remembers(s', p, ReadStart(s.sh.acked, s.sh.finalized, s.sh.commits))
  {
    hide Core, ProcOk, MintsOk;
  }

  lemma {:induction false} RunRemembers(trace: seq<State>, steps: seq<Step>, j: nat, k: nat, p: Process,
      start: ReadStart)
    requires Run(trace, steps) && j <= k < |trace| && Remembers(trace[j], p, start)
    ensures Remembers(trace[k], p, start)
  {
    hide Next, Remembers;
    if j == k {
    } else {
      RunRemembers(trace, steps, j, k - 1, p, start);
      assert Next(trace[k - 1], steps[k - 1], trace[k - 1 + 1]);
      StepRemembers(trace[k - 1], steps[k - 1], trace[k], p, start);
    }
  }

  /** The answer a step of `p` adds. */
  lemma AnswerIsCurrent(s: State, p: Process, uuid: string, s': State, start: ReadStart)
    requires Inv(s) && Next(s, Act(p, uuid), s') && s'.sh.answers != s.sh.answers
    requires Remembers(s, p, start)
    ensures |s'.sh.answers| == |s.sh.answers| + 1
    ensures s'.sh.answers[|s.sh.answers|].rows == s.sh.finalized == start.finalized
    ensures s.sh.commits == start.commits && s.sh.record.pendingEpoch.None?
    ensures AckedIn(start)
  {
    hide AnchorOk, HistoryOk, IdsOk, FencesOk, RequestsOk, CassesOk, AppliedOk, DbsOk, MintsOk, SettleMove, WriteMove,
         SettleOk, WriteOk, StartupOk;
  }

  /**
   A read that looked at the anchor at step `j` and returned rows at step `k` saw exactly the writes
   finalized by both looks: nothing committed in between, nothing newer was lost to a restore, and
   every write acknowledged before it began is in the rows. Restores may happen at any point.
   */
  lemma ReadsAreCurrent(trace: seq<State>, steps: seq<Step>, j: nat, k: nat, p: Process, first: string, last: string)
    requires Run(trace, steps) && Init(trace[0]) && j < k < |steps|
    requires steps[j] == Act(p, first) && p in trace[j].procs && trace[j].procs[p] == Reader(RBegin)
    requires steps[k] == Act(p, last) && trace[k + 1].sh.answers != trace[k].sh.answers
    ensures |trace[k + 1].sh.answers| == |trace[k].sh.answers| + 1
    ensures var rows := trace[k + 1].sh.answers[|trace[k].sh.answers|].rows;
            && rows == trace[j].sh.finalized == trace[k].sh.finalized
            && (forall id :: id in trace[j].sh.acked ==> id in rows)
    ensures trace[j].sh.commits == trace[k].sh.commits
  {
    hide Inv, Init, Next, Remembers;
    Reachable(trace, steps, j);
    Reachable(trace, steps, k);
    var start := ReadStart(trace[j].sh.acked, trace[j].sh.finalized, trace[j].sh.commits);
    assert Next(trace[j], steps[j], trace[j + 1]);
    assert Next(trace[k], steps[k], trace[k + 1]);
    FirstLook(trace[j], p, first, trace[j + 1]);
    RunRemembers(trace, steps, j + 1, k, p, start);
    AnswerIsCurrent(trace[k], p, last, trace[k + 1], start);
  }

  // ---------- rollback ----------

  /** The database lacks a finalized write. */
  ghost predicate Behind(sh: Shared) {
    |sh.db.log| < |sh.finalized|
  }

  /** The row differs from every pair the anchor stands for. */
  ghost predicate RowIsStale(sh: Shared) {
    && sh.db.row != Some(PairOf(sh.record))
    && (sh.record.pendingEpoch.Some? ==> sh.db.row != Some(PendingPair(sh.record)))
    && (sh.db.row.None? ==> !sh.record.bootstrap)
  }

  /** A stale row is visible exactly when a finalized write is missing. */
  lemma StaleIffBehind(sh: Shared)
    requires Core(sh)
    ensures RowIsStale(sh) <==> Behind(sh)
  {
    hide HistoryOk, IdsOk, FencesOk, RequestsOk, CassesOk, AppliedOk, AnswersOk;
    assert DbOk(sh, sh.db);
  }

  /** A reservation in flight for the version that still stands. */
  predicate LiveMessage(sh: Shared, c: nat) {
    && c < |sh.cas| && c !in sh.applied
    && sh.cas[c].expected == sh.rv
    && sh.cas[c].next.pendingEpoch.Some?
  }

  /**
   A call that compared the row at the version that still stands: a write about to reserve, a read about to look
   again.
   */
  predicate LiveCall(sh: Shared, proc: Proc) {
    match proc
    case Writer(WReserve(_, v)) => v == sh.rv
    case Reader(RRecheck(_, v, _, _)) => v == sh.rv
    case _ => false
  }

  predicate LiveWriter(s: State, p: Process) {
    p in s.procs && s.procs[p].Writer? && LiveCall(s.sh, s.procs[p])
  }

  predicate LiveReader(s: State, p: Process) {
    p in s.procs && s.procs[p].Reader? && LiveCall(s.sh, s.procs[p])
  }

  /** Neither the epochs nor the identities are used up. */
  ghost predicate MayMint(sh: Shared) {
    sh.record.epoch < MAX_INT64 && exists id :: Fresh(sh, id)
  }

  /** Something in the state can still publish a fence. */
  ghost predicate Reservable(s: State) {
    || (exists c :: LiveMessage(s.sh, c))
    || (MayMint(s.sh) && exists p :: LiveWriter(s, p))
  }

  /** From a rolled-back state nothing comes alive: what lives later lived already, or a live write sent it. */
  ghost predicate Narrows(s: State, s': State) {
    && Behind(s'.sh)
    && s'.sh.commits == s.sh.commits
    && s'.sh.initial == s.sh.initial
    && s.sh.rv <= s'.sh.rv
    && (s'.sh.rv == s.sh.rv ==> s'.sh.record == s.sh.record)
    && (forall id :: id in s.sh.minted ==> id in s'.sh.minted)
    && |s.sh.cas| <= |s'.sh.cas|
    && (forall c :: 0 <= c < |s.sh.cas| ==> s'.sh.cas[c].origin == s.sh.cas[c].origin)
    && (forall p :: LiveWriter(s', p) ==> s'.sh.rv == s.sh.rv && LiveWriter(s, p))
    && (forall p :: LiveReader(s', p) ==> s'.sh.rv == s.sh.rv && LiveReader(s, p))
    && MessagesNarrow(s, s')
    && AnswersNarrow(s, s')
  }

  ghost predicate MessagesNarrow(s: State, s': State) {
    forall c :: LiveMessage(s'.sh, c) ==>
      s'.sh.rv == s.sh.rv && (LiveMessage(s.sh, c) || SentLate(s, s'.sh, c))
  }

  /** Sent by a write that was live in `s`. */
  ghost predicate SentLate(s: State, sh': Shared, c: nat) {
    |s.sh.cas| <= c < |sh'.cas| && LiveWriter(s, sh'.cas[c].origin) && MayMint(s.sh)
  }

  ghost predicate AnswersNarrow(s: State, s': State) {
    && s.sh.answers <= s'.sh.answers
    && (forall i :: |s.sh.answers| <= i < |s'.sh.answers| ==> LiveReader(s, s'.sh.answers[i].reader))
  }

  lemma NarrowsRefl(s: State)
    requires Behind(s.sh)
    ensures Narrows(s, s)
  {
  }

  lemma MintingNarrows(s: State, s': State)
    requires Narrows(s, s') && s'.sh.rv == s.sh.rv && MayMint(s'.sh)
    ensures MayMint(s.sh)
  {
    hide MessagesNarrow, AnswersNarrow;
    var id :| Fresh(s'.sh, id);
    assert Fresh(s.sh, id);
  }

  lemma NarrowsTrans(a: State, b: State, c: State)
    requires Narrows(a, b) && Narrows(b, c)
    ensures Narrows(a, c)
  {
    hide LiveMessage, LiveWriter, LiveReader, MayMint, Behind;
    forall m | LiveMessage(c.sh, m)
      ensures c.sh.rv == a.sh.rv && (LiveMessage(a.sh, m) || SentLate(a, c.sh, m))
    {
      if !LiveMessage(b.sh, m) {
        MintingNarrows(a, b);
      }
    }
  }

  // ---------- a step from a rolled-back state ----------

  lemma EnvironmentStaysBehind(sh: Shared, step: Step)
    requires Core(sh) && Behind(sh) && Environment(sh, step).Some?
    ensures Behind(Environment(sh, step).value)
    ensures !step.DbCommit?
    ensures Environment(sh, step).value.commits == sh.commits && Environment(sh, step).value.answers == sh.answers
  {
    hide AnchorOk, HistoryOk, IdsOk, FencesOk, RequestsOk, CassesOk, AppliedOk, AnswersOk, DbOk;
    if step.DbCommit? {
      BehindCommitsNothing(sh, step.tail);
    } else if step.DbRestore? {
      assert sh.past[step.i].log <= sh.db.log;
    } else {
      hide DbsOk;
    }
  }

  lemma BehindCommitsNothing(sh: Shared, t: Tail)
    requires Core(sh) && Behind(sh)
    ensures !CanCommit(sh, t)
  {
    hide AnchorOk, HistoryOk, IdsOk, FencesOk, RequestsOk, CassesOk, AppliedOk, AnswersOk, DbsOk;
    if CanCommit(sh, t) {
      Env.CommitIsPending(sh, t);
    }
  }

  /** An anchor that lost a finalized write is in the twelve-key shape, and its bootstrap is spent. */
  lemma BehindIsEstablished(sh: Shared)
    requires AnchorOk(sh) && Behind(sh)
    ensures !sh.legacy && !sh.record.bootstrap
  {
  }

  lemma AnchoredIsNotBehind(sh: Shared)
    requires AnchorOk(sh) && DbOk(sh, sh.db) && Behind(sh)
    ensures sh.db.row != Some(PairOf(sh.record)) && !sh.record.bootstrap
  {
  }

  /** Either the version moved, or messages, record and identities are as they were. */
  lemma EnvironmentVersions(sh: Shared, step: Step)
    requires Environment(sh, step).Some? && !sh.legacy
    ensures var sh' := Environment(sh, step).value;
            && sh'.cas == sh.cas && sh'.initial == sh.initial && sh'.minted == sh.minted
            && (sh'.rv == sh.rv + 1 || (sh'.rv == sh.rv && sh'.record == sh.record && sh'.applied == sh.applied))
  {
  }

  lemma LiveAtVersion(s: State, p: Process)
    requires ProcsOk(s) && p in s.procs
    ensures forall sh: Shared :: sh.rv > s.sh.rv ==> !LiveCall(sh, s.procs[p])
  {
    assert ProcOk(s.sh, p, s.procs[p]);
    hide ValidStructure;
  }

  lemma EnvironmentNarrows(s: State, step: Step, s': State)
    requires Inv(s) && Behind(s.sh) && Environment(s.sh, step).Some? && s' == s.(sh := Environment(s.sh, step).value)
    ensures Narrows(s, s') && !step.DbCommit?
  {
    hide Environment, Behind, ProcsOk, MintsOk, AnchorOk, HistoryOk, IdsOk, FencesOk, RequestsOk, AppliedOk, DbsOk,
         AnswersOk, CasOk;
    EnvironmentStaysBehind(s.sh, step);
    BehindIsEstablished(s.sh);
    EnvironmentVersions(s.sh, step);
    forall p | p in s'.procs && s'.sh.rv > s.sh.rv ensures !LiveCall(s'.sh, s'.procs[p]) {
      LiveAtVersion(s, p);
    }
    hide LiveCall;
  }

  /**
   What a move may bring: a live reservation only from a live write, an answer only from a live read, never a live
   call.
   */
  ghost predicate Quiets(sh: Shared, p: Process, proc: Proc, e: Effect) {
    && (forall i ::
          |sh.cas| <= i < |e.sh.cas| && e.sh.cas[i].next.pendingEpoch.Some? && e.sh.cas[i].expected == sh.rv ==>
          proc.Writer? && LiveCall(sh, proc) && MayMint(sh))
    && (|| e.sh.answers == sh.answers
        || (proc.Reader? && LiveCall(sh, proc) && |e.sh.answers| == |sh.answers| + 1 && sh.answers <= e.sh.answers
            && e.sh.answers[|sh.answers|].reader == p))
    && (e.proc.Some? ==> !LiveCall(sh, e.proc.value))
  }

  /** A settling move that sends nothing, or nothing that can still reserve. */
  lemma SettlingQuiets(sh: Shared, p: Process, proc: Proc, e: Effect)
    requires e.sh.answers == sh.answers && (e.proc.Some? ==> e.proc.value.Opening? || e.proc.value.Settled?)
    requires e.sh.cas == sh.cas ||
             exists m: Cas :: e.sh.cas == sh.cas + [m] && (m.next.pendingEpoch.None? || m.expected < sh.rv)
    ensures Quiets(sh, p, proc, e)
  {
    hide MayMint;
  }

  /** The reservation of an opening process rests on a bootstrap that is spent. */
  lemma BeginQuiets(sh: Shared, p: Process, st: Startup, pc: SettlePc, uuid: string)
    requires Begins(pc)
    requires SettleOk(sh, p, st, pc) && !sh.record.bootstrap && BeginMove(sh, p, st, pc, uuid).Some?
    ensures Quiets(sh, p, Opening(st, pc), BeginMove(sh, p, st, pc, uuid).value)
  {
    hide Quiets, ValidStructure, ValidUuid;
    var e := BeginMove(sh, p, st, pc, uuid).value;
    if pc.BeginCas? {
      hide Fresh;
      assert e.sh.cas == sh.cas + [e.sh.cas[|sh.cas|]] && e.sh.cas[|sh.cas|].expected < sh.rv;
    }
    SettlingQuiets(sh, p, Opening(st, pc), e);
  }

  lemma FinishQuiets(sh: Shared, own: Binding, p: Process, st: Startup, pc: SettlePc)
    requires Finishes(pc)
    requires FinishMove(sh, own, p, st, pc).Some?
    ensures Quiets(sh, p, Opening(st, pc), FinishMove(sh, own, p, st, pc).value)
  {
    hide Quiets, Valid;
    var e := FinishMove(sh, own, p, st, pc).value;
    if pc.FinalizeCas? && pc.cur.pendingEpoch.Some? {
      assert e.sh.cas == sh.cas + [Cas(p, pc.v, Finalized(pc.cur))];
    }
    SettlingQuiets(sh, p, Opening(st, pc), e);
  }

  lemma RecoverQuiets(sh: Shared, p: Process, st: Startup, pc: SettlePc)
    requires Recovers(pc)
    requires RecoverMove(sh, p, st, pc).Some?
    ensures Quiets(sh, p, Opening(st, pc), RecoverMove(sh, p, st, pc).value)
  {
    hide Quiets;
    var e := RecoverMove(sh, p, st, pc).value;
    assert e.sh.cas == sh.cas
      || (e.sh.cas == sh.cas + [e.sh.cas[|sh.cas|]] && e.sh.cas[|sh.cas|].next.pendingEpoch.None?);
    SettlingQuiets(sh, p, Opening(st, pc), e);
  }

  lemma FenceQuiets(sh: Shared, p: Process, st: Startup, pc: SettlePc)
    requires Fences(pc)
    requires FenceMove(sh, st, pc).Some?
    ensures Quiets(sh, p, Opening(st, pc), FenceMove(sh, st, pc).value)
  {
    hide Quiets;
    SettlingQuiets(sh, p, Opening(st, pc), FenceMove(sh, st, pc).value);
  }

  lemma OpeningQuiets(sh: Shared, own: Binding, p: Process, st: Startup, pc: SettlePc, uuid: string)
    requires SettleOk(sh, p, st, pc) && !sh.record.bootstrap && SettleMove(sh, own, p, st, pc, uuid).Some?
    ensures Quiets(sh, p, Opening(st, pc), SettleMove(sh, own, p, st, pc, uuid).value)
  {
    hide BeginMove, FinishMove, RecoverMove, FenceMove, SettleOk, MayMint, Valid;
    if Begins(pc) {
      BeginQuiets(sh, p, st, pc, uuid);
    } else if Recovers(pc) {
      RecoverQuiets(sh, p, st, pc);
    } else if Fences(pc) {
      FenceQuiets(sh, p, st, pc);
    } else if !pc.Idle? && !pc.PeerCheck? {
      FinishQuiets(sh, own, p, st, pc);
    }
  }

  lemma WriterQuiets(sh: Shared, own: Binding, p: Process, pc: WritePc, uuid: string)
    requires WriteOk(sh, p, pc) && sh.db.row != Some(PairOf(sh.record))
    requires WriteMove(sh, own, p, pc, uuid).Some?
    ensures Quiets(sh, p, Writer(pc), WriteMove(sh, own, p, pc, uuid).value)
  {
    hide Valid, ValidStructure, ValidUuid;
  }

  lemma ReaderQuiets(sh: Shared, own: Binding, p: Process, pc: ReadPc)
    requires ReadOk(sh, pc) && sh.db.row != Some(PairOf(sh.record))
    requires ReadMove(sh, own, p, pc).Some?
    ensures Quiets(sh, p, Reader(pc), ReadMove(sh, own, p, pc).value)
  {
    hide Valid, ValidStructure, MayMint;
    var e := ReadMove(sh, own, p, pc).value;
    if pc.RRecheck? {
      hide ReadOk;
      assert e.proc.None? && e.sh.cas == sh.cas;
    } else {
      assert e.sh == sh;
      NothingSaidQuiets(sh, p, Reader(pc), e);
    }
  }

  /** A move that leaves messages and answers alone and is not past its check. */
  lemma NothingSaidQuiets(sh: Shared, p: Process, proc: Proc, e: Effect)
    requires e.sh == sh && (e.proc.Some? ==> !LiveCall(sh, e.proc.value))
    ensures Quiets(sh, p, proc, e)
  {
  }

  lemma MoveQuiets(sh: Shared, own: Binding, p: Process, proc: Proc, uuid: string)
    requires AnchorOk(sh) && DbOk(sh, sh.db) && Behind(sh) && ProcOk(sh, p, proc)
    requires Move(sh, own, p, proc, uuid).Some?
    ensures Quiets(sh, p, proc, Move(sh, own, p, proc, uuid).value)
  {
    hide AnchorOk, DbOk, Behind, SettleOk, WriteOk, ReadOk, StartupOk, SettleMove, WriteMove, ReadMove, Quiets;
    AnchoredIsNotBehind(sh);
    match proc
    case Opening(st, pc) => OpeningQuiets(sh, own, p, st, pc, uuid);
    case Settled =>
    case Writer(pc) => WriterQuiets(sh, own, p, pc, uuid);
    case Reader(pc) => ReaderQuiets(sh, own, p, pc);
  }

  /** A process leaves the anchor and the database alone, and its messages carry its name. */
  lemma SendsLeave(sh: Shared, sh': Shared, p: Process)
    requires Processes.Sends(sh, sh', p)
    ensures sh'.rv == sh.rv && sh'.record == sh.record && sh'.db == sh.db && sh'.finalized == sh.finalized
    ensures sh'.applied == sh.applied && sh'.initial == sh.initial && sh'.commits == sh.commits
    ensures sh.cas <= sh'.cas && (forall i :: |sh.cas| <= i < |sh'.cas| ==> sh'.cas[i].origin == p)
    ensures forall id :: id in sh.minted ==> id in sh'.minted
  {
  }

  lemma MoveNarrows(s: State, p: Process, s': State, e: Effect)
    requires p in s.procs && Behind(s.sh) && Processes.Sends(s.sh, e.sh, p) && Quiets(s.sh, p, s.procs[p], e)
    requires s' == s.(sh := e.sh, procs := if e.proc.Some? then s.procs[p := e.proc.value] else s.procs - {p})
    ensures Narrows(s, s')
  {
    hide Processes.Sends, MayMint;
    SendsLeave(s.sh, e.sh, p);
    forall proc ensures LiveCall(e.sh, proc) <==> LiveCall(s.sh, proc) {
    }
    hide LiveCall;
  }

  lemma ActNarrows(s: State, p: Process, uuid: string, s': State)
    requires Inv(s) && Behind(s.sh) && Next(s, Act(p, uuid), s')
    ensures Narrows(s, s')
  {
    hide AnchorOk, HistoryOk, IdsOk, FencesOk, RequestsOk, CassesOk, AppliedOk, DbOk, AnswersOk, MintsOk, ProcOk,
         Evolves, Move,
         Processes.Sends, Quiets, Behind, Narrows;
    var proc := s.procs[p];
    Processes.MoveKeeps(s.sh, BoundTo(s, p), p, proc, uuid);
    MoveQuiets(s.sh, BoundTo(s, p), p, proc, uuid);
    MoveNarrows(s, p, s', Move(s.sh, BoundTo(s, p), p, proc, uuid).value);
  }

  /** A step that only starts, restarts or removes a process. */
  lemma LocalNarrows(s: State, s': State, p: Process, proc: Proc)
    requires Behind(s.sh) && s'.sh == s.sh && !LiveCall(s.sh, proc)
    requires s'.procs == s.procs[p := proc] || s'.procs == s.procs - {p} || s'.procs == s.procs
    ensures Narrows(s, s')
  {
    hide Behind, MayMint;
  }

  lemma StepNarrows(s: State, step: Step, s': State)
    requires Inv(s) && Behind(s.sh) && Next(s, step, s')
    ensures Narrows(s, s') && !step.DbCommit?
  {
    hide Inv, Environment, Move, Behind, Narrows;
    match step {
      case Open(_) => LocalNarrows(s, s', s.next, Opening(Startup(None, false), Idle));
      case StartWrite(_) => LocalNarrows(s, s', s.next, Writer(WBegin));
      case StartRead(_) => LocalNarrows(s, s', s.next, Reader(RBegin));
      case Misread(p) => LocalNarrows(s, s', p, Opening(s.procs[p].startup, Misreads(s.procs[p].pc)));
      case Fail(p) =>
        var st := if s.procs[p].Opening? then s.procs[p].startup else Startup(None, false);
        LocalNarrows(s, s', p, Opening(st, Idle));
      case Crash(p) => LocalNarrows(s, s', p, Settled);
      case Act(p, uuid) => ActNarrows(s, p, uuid, s');
      case _ => EnvironmentNarrows(s, step, s');
    }
  }

  lemma {:induction false} RunNarrows(trace: seq<State>, steps: seq<Step>, k: nat, i: nat)
    requires Run(trace, steps) && k <= i < |trace| && Inv(trace[k]) && Behind(trace[k].sh)
    ensures Inv(trace[i]) && Narrows(trace[k], trace[i]) && Behind(trace[i].sh)
  {
    hide Inv, Next, Behind, Narrows;
    if i == k {
      NarrowsRefl(trace[k]);
    } else {
      RunNarrows(trace, steps, k, i - 1);
      assert Next(trace[i - 1], steps[i - 1], trace[i - 1 + 1]);
      StepKeeps(trace[i - 1], steps[i - 1], trace[i]);
      StepNarrows(trace[i - 1], steps[i - 1], trace[i]);
      NarrowsTrans(trace[k], trace[i - 1], trace[i]);
      NarrowsBehind(trace[k], trace[i]);
    }
  }

  lemma NarrowMessage(s: State, s': State, c: nat)
    requires Narrows(s, s') && LiveMessage(s'.sh, c)
    ensures s'.sh.rv == s.sh.rv && (LiveMessage(s.sh, c) || SentLate(s, s'.sh, c))
  {
    hide LiveMessage, SentLate;
  }

  lemma NarrowsBehind(s: State, s': State)
    requires Narrows(s, s')
    ensures Behind(s'.sh)
  {
  }

  // ---------- what a rollback leaves possible ----------

  lemma StaleIsBehind(s: State)
    requires Inv(s)
    ensures RowIsStale(s.sh) <==> Behind(s.sh)
  {
    hide Core, RowIsStale, Behind, ProcsOk, MintsOk;
    StaleIffBehind(s.sh);
  }

  /** The write of a reservation. */
  predicate PublishesFence(s: State, step: Step) {
    step.AnchorApply? && step.c < |s.sh.cas| && s.sh.cas[step.c].next.pendingEpoch.Some?
  }

  lemma PublishingIsLive(s: State, step: Step, s': State)
    requires Next(s, step, s') && PublishesFence(s, step)
    ensures LiveMessage(s.sh, step.c) && s'.sh.rv == s.sh.rv + 1
  {
  }

  /**
   Rollback rejection. Once a run shows a row that is not a pair the anchor stands for, in every
   continuation (further restores included): the row stays stale, no fenced request commits, rows are
   returned only by reads that were live when the rollback was seen, and a fence is published only by
   a message that was live then or that a write sent that was live then.
   */
  lemma RollbackRejected(trace: seq<State>, steps: seq<Step>, k: nat, i: nat)
    requires Run(trace, steps) && Init(trace[0]) && k <= i < |trace| && RowIsStale(trace[k].sh)
    ensures RowIsStale(trace[i].sh)
    ensures trace[i].sh.commits == trace[k].sh.commits
    ensures trace[k].sh.answers <= trace[i].sh.answers
    ensures forall a :: |trace[k].sh.answers| <= a < |trace[i].sh.answers| ==>
        LiveReader(trace[k], trace[i].sh.answers[a].reader)
    ensures i < |steps| ==> !steps[i].DbCommit?
    ensures i < |steps| && PublishesFence(trace[i], steps[i]) ==>
              LiveMessage(trace[k].sh, steps[i].c) || SentLate(trace[k], trace[i].sh, steps[i].c)
  {
    hide Inv, Next, Init, RowIsStale, Behind, LiveMessage, LiveReader, SentLate;
    Reachable(trace, steps, k);
    StaleIsBehind(trace[k]);
    RunNarrows(trace, steps, k, i);
    StaleIsBehind(trace[i]);
    if i < |steps| {
      assert Next(trace[i], steps[i], trace[i + 1]);
      StepNarrows(trace[i], steps[i], trace[i + 1]);
      if PublishesFence(trace[i], steps[i]) {
        PublishingIsLive(trace[i], steps[i], trace[i + 1]);
        NarrowMessage(trace[k], trace[i], steps[i].c);
      }
    }
  }

  /** After a rollback at most one fence is ever published. */
  lemma OneFenceAfterRollback(trace: seq<State>, steps: seq<Step>, k: nat, i: nat, j: nat)
    requires Run(trace, steps) && Init(trace[0]) && k <= i <= j < |steps| && RowIsStale(trace[k].sh)
    requires PublishesFence(trace[i], steps[i]) && PublishesFence(trace[j], steps[j])
    ensures i == j
  {
    hide Inv, Next, Init, RowIsStale, Behind, LiveMessage;
    Reachable(trace, steps, k);
    StaleIsBehind(trace[k]);
    RunNarrows(trace, steps, k, i);
    assert Next(trace[i], steps[i], trace[i + 1]) && Next(trace[j], steps[j], trace[j + 1]);
    PublishingIsLive(trace[i], steps[i], trace[i + 1]);
    PublishingIsLive(trace[j], steps[j], trace[j + 1]);
    if i < j {
      RunNarrows(trace, steps, i, i + 1);
      RunNarrows(trace, steps, i + 1, j);
      RunNarrows(trace, steps, i, j);
      NarrowMessage(trace[i], trace[j], steps[j].c);
    }
  }

  /** Some continuation publishes a fence. */
  ghost predicate CanPublish(s: State) {
    exists more, moves, i :: Run(more, moves) && more[0] == s && 0 <= i < |moves| && PublishesFence(more[i], moves[i])
  }

  /** Some continuation returns rows from a read. */
  ghost predicate CanAnswer(s: State) {
    exists more: seq<State>, moves, i ::
      Run(more, moves) && more[0] == s && 0 <= i < |more| && more[i].sh.answers != s.sh.answers
  }

  lemma PublishedWasReservable(more: seq<State>, moves: seq<Step>, i: nat)
    requires Run(more, moves) && Inv(more[0]) && Behind(more[0].sh) && i < |moves| && PublishesFence(more[i], moves[i])
    ensures Reservable(more[0])
  {
    hide Inv, Next, Behind, LiveMessage, LiveWriter, LiveReader, MayMint;
    RunNarrows(more, moves, 0, i);
    assert Next(more[i], moves[i], more[i + 1]);
    PublishingIsLive(more[i], moves[i], more[i + 1]);
    NarrowMessage(more[0], more[i], moves[i].c);
  }

  /** A live write can reserve: with an identity left, its message is sent and lands. */
  lemma ReservationMayStillLand(s: State, p: Process, id: string) returns (sent: State, landed: State)
    requires Inv(s) && Behind(s.sh) && s.sh.record.epoch < MAX_INT64 && Fresh(s.sh, id) && LiveWriter(s, p)
    ensures Next(s, Act(p, id), sent) && Next(sent, AnchorApply(|s.sh.cas|), landed)
        && PublishesFence(sent, AnchorApply(|s.sh.cas|))
    ensures landed.sh.record == Reserved(s.sh.record, id)
  {
    hide HistoryOk, IdsOk, FencesOk, RequestsOk, CassesOk, DbsOk, AnswersOk, MintsOk, ValidStructure, Behind;
    BehindIsEstablished(s.sh);
    hide AnchorOk;
    assert ProcOk(s.sh, p, s.procs[p]);
    var e := Move(s.sh, BoundTo(s, p), p, s.procs[p], id).value;
    sent := s.(sh := e.sh, procs := s.procs[p := e.proc.value]);
    assert |s.sh.cas| !in s.sh.applied;
    landed := sent.(sh := ApplyCas(sent.sh, |s.sh.cas|));
  }

  lemma LiveMessageLands(s: State, c: nat)
    requires Inv(s) && Behind(s.sh) && LiveMessage(s.sh, c)
    ensures CanPublish(s)
  {
    hide Inv, Behind;
    assert !s.sh.legacy by {
      InvIsEstablished(s);
    }
    var s' := s.(sh := ApplyCas(s.sh, c));
    var more, moves := [s, s'], [AnchorApply(c)];
    assert Next(s, AnchorApply(c), s');
    hide Next;
    assert Run(more, moves) && PublishesFence(more[0], moves[0]);
  }

  lemma InvIsEstablished(s: State)
    requires Inv(s) && Behind(s.sh)
    ensures !s.sh.legacy
  {
    hide HistoryOk, IdsOk, FencesOk, RequestsOk, CassesOk, AppliedOk, DbsOk, AnswersOk, MintsOk, ProcsOk;
    BehindIsEstablished(s.sh);
  }

  lemma LiveWriterLands(s: State, p: Process)
    requires Inv(s) && Behind(s.sh) && MayMint(s.sh) && LiveWriter(s, p)
    ensures CanPublish(s)
  {
    hide Inv, Behind, Next, LiveWriter, PublishesFence, Fresh;
    var id :| Fresh(s.sh, id);
    var sent, landed := ReservationMayStillLand(s, p, id);
    var more, moves := [s, sent, landed], [Act(p, id), AnchorApply(|s.sh.cas|)];
    assert Run(more, moves) && PublishesFence(more[1], moves[1]);
  }

  /** Exactly when a fence can still be published after a rollback: a reservation or a write is live. */
  lemma RollbackFencesIff(trace: seq<State>, steps: seq<Step>, k: nat)
    requires Run(trace, steps) && Init(trace[0]) && k < |trace| && RowIsStale(trace[k].sh)
    ensures CanPublish(trace[k]) <==> Reservable(trace[k])
  {
    hide Inv, Next, Init, RowIsStale, Behind, LiveMessage, LiveWriter, MayMint, PublishesFence;
    var s := trace[k];
    Reachable(trace, steps, k);
    StaleIsBehind(s);
    if CanPublish(s) {
      var more, moves, i :| Run(more, moves) && more[0] == s && 0 <= i < |moves| && PublishesFence(more[i], moves[i]);
      PublishedWasReservable(more, moves, i);
    }
    if c :| LiveMessage(s.sh, c) {
      LiveMessageLands(s, c);
    }
    if p :| MayMint(s.sh) && LiveWriter(s, p) {
      LiveWriterLands(s, p);
    }
  }

  /** A read remembers a record that its own binding accepted. */
  predicate FirstIsOwn(own: Binding, proc: Proc) {
    proc.Reader? && !proc.r.RBegin? ==> Valid(own, proc.r.first)
  }

  ghost predicate FirstsAreOwn(s: State) {
    forall p :: p in s.procs ==> p < s.next && FirstIsOwn(BoundTo(s, p), s.procs[p])
  }

  lemma MoveIsOwn(sh: Shared, own: Binding, p: Process, proc: Proc, uuid: string)
    requires FirstIsOwn(own, proc) && Move(sh, own, p, proc, uuid).Some?
    ensures var e := Move(sh, own, p, proc, uuid).value; e.proc.Some? ==> FirstIsOwn(own, e.proc.value)
  {
    hide Valid;
    if proc.Opening? {
      SettlesOnly(sh, own, p, proc.startup, proc.pc, uuid);
      hide SettleMove;
    } else if proc.Writer? {
      hide SettleMove, ReadMove;
    } else {
      hide SettleMove, WriteMove;
    }
  }

  lemma SettlesOnly(sh: Shared, own: Binding, p: Process, st: Startup, pc: SettlePc, uuid: string)
    requires SettleMove(sh, own, p, st, pc, uuid).Some?
    ensures var e := SettleMove(sh, own, p, st, pc, uuid).value; e.proc.Some? ==> !e.proc.value.Reader?
  {
    hide Valid;
  }

  lemma StepIsOwn(s: State, step: Step, s': State)
    requires FirstsAreOwn(s) && Next(s, step, s')
    ensures FirstsAreOwn(s')
  {
    hide Valid, Move, Environment;
    if step.Act? {
      MoveIsOwn(s.sh, BoundTo(s, step.p), step.p, s.procs[step.p], step.uuid);
    }
  }

  lemma {:induction false} RunIsOwn(trace: seq<State>, steps: seq<Step>, i: nat)
    requires Run(trace, steps) && Init(trace[0]) && i < |trace|
    ensures FirstsAreOwn(trace[i])
  {
    hide Next, FirstIsOwn;
    if i == 0 {
      assert trace[0].procs == map[];
    } else {
      RunIsOwn(trace, steps, i - 1);
      assert Next(trace[i - 1], steps[i - 1], trace[i - 1 + 1]);
      StepIsOwn(trace[i - 1], steps[i - 1], trace[i]);
    }
  }

  /** A live read returns its rows. */
  lemma ReadMayStillAnswer(s: State, p: Process) returns (s': State)
    requires Inv(s) && FirstsAreOwn(s) && LiveReader(s, p)
    ensures Next(s, Act(p, ""), s') && s'.sh.answers != s.sh.answers
  {
    hide Core, MintsOk;
    assert ProcOk(s.sh, p, s.procs[p]);
    hide ValidStructure;
    var e := Move(s.sh, BoundTo(s, p), p, s.procs[p], "").value;
    s' := s.(sh := e.sh, procs := s.procs - {p});
  }

  lemma LiveReaderAnswers(s: State, p: Process)
    requires Inv(s) && FirstsAreOwn(s) && LiveReader(s, p)
    ensures CanAnswer(s)
  {
    hide Inv, FirstsAreOwn, Next, LiveReader;
    var s' := ReadMayStillAnswer(s, p);
    var more, moves := [s, s'], [Act(p, "")];
    assert Run(more, moves) && more[1].sh.answers != s.sh.answers;
  }

  lemma AnsweredWasLive(more: seq<State>, moves: seq<Step>, i: nat)
    requires Run(more, moves) && Inv(more[0]) && Behind(more[0].sh) && i < |more|
        && more[i].sh.answers != more[0].sh.answers
    ensures exists p :: LiveReader(more[0], p)
  {
    hide Inv, Next, Behind, LiveReader, MessagesNarrow;
    RunNarrows(more, moves, 0, i);
    var n := |more[0].sh.answers|;
    assert LiveReader(more[0], more[i].sh.answers[n].reader);
  }

  /** Exactly when a read can still return rows after a rollback: it compared them at the version that stands. */
  lemma RollbackReadsIff(trace: seq<State>, steps: seq<Step>, k: nat)
    requires Run(trace, steps) && Init(trace[0]) && k < |trace| && RowIsStale(trace[k].sh)
    ensures CanAnswer(trace[k]) <==> exists p :: LiveReader(trace[k], p)
  {
    hide Inv, Next, Init, RowIsStale, Behind, LiveReader, FirstsAreOwn;
    var s := trace[k];
    Reachable(trace, steps, k);
    StaleIsBehind(s);
    RunIsOwn(trace, steps, k);
    if CanAnswer(s) {
      var more: seq<State>, moves, i :| Run(more, moves) && more[0] == s && 0 <= i < |more|
        && more[i].sh.answers != s.sh.answers;
      AnsweredWasLive(more, moves, i);
    }
    if p :| LiveReader(s, p) {
      LiveReaderAnswers(s, p);
    }
  }

  lemma PendingClosesMessages(sh: Shared)
    requires CassesOk(sh) && sh.record.pendingEpoch.Some?
    ensures forall c :: !LiveMessage(sh, c)
  {
    forall c: nat ensures !LiveMessage(sh, c) {
      if c < |sh.cas| && sh.cas[c].expected == sh.rv {
        assert CasOk(sh, sh.cas[c]);
      }
    }
  }

  lemma PendingClosesCalls(sh: Shared, p: Process, proc: Proc)
    requires ProcOk(sh, p, proc) && sh.record.pendingEpoch.Some?
    ensures !LiveCall(sh, proc)
  {
    hide Valid, ValidStructure;
  }

  /** A rollback that finds a fence pending leaves nothing possible: no further fence, and no rows. */
  lemma PendingFenceIsClosed(trace: seq<State>, steps: seq<Step>, k: nat)
    requires Run(trace, steps) && Init(trace[0]) && k < |trace| && trace[k].sh.record.pendingEpoch.Some?
    ensures !Reservable(trace[k]) && forall p :: !LiveReader(trace[k], p)
  {
    hide Next, Init, LiveMessage, LiveCall, MayMint, AnchorOk, HistoryOk, IdsOk, FencesOk, RequestsOk, CassesOk,
         AppliedOk, DbsOk, AnswersOk,
         ProcOk;
    Reachable(trace, steps, k);
    var s := trace[k];
    PendingClosesMessages(s.sh);
    forall p | p in s.procs ensures !LiveCall(s.sh, s.procs[p]) {
      assert ProcOk(s.sh, p, s.procs[p]);
      PendingClosesCalls(s.sh, p, s.procs[p]);
    }
  }

  // ---------- the bootstrap ----------

  lemma BootstrapStep(s: State, step: Step, s': State)
    requires Inv(s) && Next(s, step, s') && !s.sh.record.bootstrap
    ensures !s'.sh.record.bootstrap && |s.sh.finalized| <= |s'.sh.finalized|
  {
    hide HistoryOk, IdsOk, FencesOk, RequestsOk, CassesOk, AppliedOk, DbsOk, AnswersOk, MintsOk, ProcOk, Move, Evolves;
    if step.Act? {
      Processes.MoveKeeps(s.sh, BoundTo(s, step.p), step.p, s.procs[step.p], step.uuid);
    } else if step.AnchorApply? {
      Env.LandingOk(s.sh, step.c);
    }
  }

  /** Bootstrap never comes back. */
  lemma {:induction false} BootstrapStaysSpent(trace: seq<State>, steps: seq<Step>, i: nat, k: nat)
    requires Run(trace, steps) && Init(trace[0]) && i <= k < |trace| && !trace[i].sh.record.bootstrap
    ensures !trace[k].sh.record.bootstrap && |trace[i].sh.finalized| <= |trace[k].sh.finalized|
  {
    hide Inv, Init, Next;
    if i == k {
    } else {
      BootstrapStaysSpent(trace, steps, i, k - 1);
      Reachable(trace, steps, k - 1);
      assert Next(trace[k - 1], steps[k - 1], trace[k - 1 + 1]);
      BootstrapStep(trace[k - 1], steps[k - 1], trace[k]);
    }
  }

  function CountIn(ids: seq<string>, marked: set<string>): nat {
    if ids == [] then 0 else CountIn(ids[..|ids| - 1], marked) + if ids[|ids| - 1] in marked then 1 else 0
  }

  lemma {:induction false} CountOnlyFirst(ids: seq<string>, marked: set<string>)
    requires forall i :: 0 < i < |ids| ==> ids[i] !in marked
    ensures CountIn(ids, marked) <= 1
  {
    if |ids| > 1 {
      CountOnlyFirst(ids[..|ids| - 1], marked);
    }
  }

  /**
   Over any run, restores included, at most one epoch was advanced by a fence that startup reserved,
   and it was the first; a record that still allows a bootstrap has never been finalized.
   */
  lemma BootstrapSpentOnce(trace: seq<State>, steps: seq<Step>, i: nat)
    requires Run(trace, steps) && Init(trace[0]) && i < |trace|
    ensures CountIn(trace[i].sh.finalized, trace[i].sh.startupIds) <= 1
    ensures trace[i].sh.record.epoch == trace[0].sh.record.epoch + |trace[i].sh.finalized|
    ensures trace[i].sh.record.bootstrap <==> trace[i].sh.finalized == []
  {
    hide IdsOk, FencesOk, RequestsOk, CassesOk, AppliedOk, DbsOk, AnswersOk, MintsOk, ProcOk, Next;
    Reachable(trace, steps, i);
    CountOnlyFirst(trace[i].sh.finalized, trace[i].sh.startupIds);
    RunInitial(trace, steps, i);
  }

  lemma {:induction false} RunInitial(trace: seq<State>, steps: seq<Step>, i: nat)
    requires Run(trace, steps) && Init(trace[0]) && i < |trace|
    ensures trace[i].sh.initial == trace[0].sh.initial
  {
    hide Next, Init, Inv, Move, Environment;
    if i == 0 {
    } else {
      RunInitial(trace, steps, i - 1);
      Reachable(trace, steps, i - 1);
      assert Next(trace[i - 1], steps[i - 1], trace[i - 1 + 1]);
      StepInitial(trace[i - 1], steps[i - 1], trace[i]);
    }
  }

  lemma StepInitial(s: State, step: Step, s': State)
    requires Inv(s) && Next(s, step, s')
    ensures s'.sh.initial == s.sh.initial
  {
    hide Core, MintsOk, ProcOk, Move, Evolves;
    if step.Act? {
      Processes.MoveKeeps(s.sh, BoundTo(s, step.p), step.p, s.procs[step.p], step.uuid);
      EvolvesInitial(s.sh, s'.sh, step.p);
    }
  }

  lemma EvolvesInitial(sh: Shared, sh': Shared, p: Process)
    requires Evolves(sh, sh', p)
    ensures sh'.initial == sh.initial
  {
  }

  /**
   A settling process takes a pending fence for its own exactly when its own compare-and-swap
   published it, whether or not the answer arrived.
   */
  lemma OwnFenceIffOwnCas(trace: seq<State>, steps: seq<Step>, i: nat, p: Process)
    requires Run(trace, steps) && Init(trace[0]) && i < |trace|
    requires trace[i].sh.record.pendingEpoch.Some? && p in trace[i].procs && trace[i].procs[p].Opening?
    ensures var s, id := trace[i], trace[i].sh.record.pendingId;
            && id in s.sh.fenced && s.sh.fenced[id].via < |s.sh.cas| && s.sh.fenced[id].via in s.sh.applied
            && s.sh.cas[s.sh.fenced[id].via].next.pendingId == id
            && (s.procs[p].startup.attempted == Some(id) <==> s.sh.cas[s.sh.fenced[id].via].origin == p)
  {
    hide HistoryOk, RequestsOk, CassesOk, AppliedOk, DbsOk, AnswersOk, Next, Init;
    Reachable(trace, steps, i);
    assert ProcOk(trace[i].sh, p, trace[i].procs[p]);
  }
}
