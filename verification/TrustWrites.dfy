/**
 What becomes of a write whose request the database rejects, and what every comparison of the row
 decides (internal/store/rhiza_sql.go, internal/store/store.go).
 */
module TrustWrites {
  import opened Prelude
  import opened AnchorRecord
  import opened TrustState
  import opened TrustInvariant
  import opened TrustRuns
  import opened TrustProgress

  // ---------- a rejected write ----------

  /** The request was rejected; the fence is still there. */
  ghost predicate Rejecting(sh: Shared, was: Shared, uuid: string) {
    && !sh.legacy && |sh.cas| !in sh.applied
    && sh.record == Reserved(was.record, uuid) && sh.finalized == was.finalized && sh.acked == was.acked
    && sh.db == was.db && OutcomeIs(sh, uuid, Rejected)
  }

  lemma WriterIsRejected(from: State, s: State, p: Process, sh: Shared, was: Shared, uuid: string, n: nat)
      returns (sh': Shared)
    requires Executing(sh, was, uuid, n)
    requires Leads(from, With(s, p, sh, Writer(WReserving(was.record, uuid, n))))
    ensures Rejecting(sh', was, uuid) && Leads(from, With(s, p, sh', Writer(WClear(was.record, uuid, sh'.rv))))
  {
    var cur, v := was.record, sh.rv;
    var tail := Tail(uuid, PairOf(cur), cur.epoch + 1);
    var sent := SendTail(sh, uuid, PairOf(cur), cur.epoch + 1);
    sh' := RejectTail(sent, tail);
    hide Leads, With, SettleMove, ReadMove;
    MoveOn(from, s, p, sh, Writer(WReserving(cur, uuid, n)), uuid, sh, Writer(WExecute(cur, uuid, v)));
    MoveOn(from, s, p, sh, Writer(WExecute(cur, uuid, v)), uuid, sent, Writer(WOutcome(cur, uuid, v)));
    EnvironmentOn(from, s, p, sent, Writer(WOutcome(cur, uuid, v)), DbReject(tail), sh');
    MoveOn(from, s, p, sh', Writer(WOutcome(cur, uuid, v)), uuid, sh', Writer(WClear(cur, uuid, v)));
  }

  /** What a rejected write leaves: everything as before it. */
  ghost predicate Unwritten(sh: Shared, sh': Shared, uuid: string) {
    && sh'.record == sh.record && sh'.db == sh.db && sh'.finalized == sh.finalized && sh'.acked == sh.acked
    && OutcomeIs(sh', uuid, Rejected) && !sh'.legacy
  }

  function Clearing(sh: Shared, p: Process, cur: Record): Shared {
    SendCas(sh, p, sh.rv, cur.(pendingEpoch := None, pendingId := ""))
  }

  lemma ClearingRestores(sh: Shared, was: Shared, p: Process, uuid: string) returns (done: Shared)
    requires Rejecting(sh, was, uuid) && was.record.pendingEpoch.None? && was.record.pendingId == ""
    ensures CanApplyCas(Clearing(sh, p, was.record), |sh.cas|) && |sh.cas| in done.applied
    ensures done == ApplyCas(Clearing(sh, p, was.record), |sh.cas|)
    ensures Unwritten(was, done, uuid)
  {
    done := ApplyCas(Clearing(sh, p, was.record), |sh.cas|);
  }

  lemma WriterClears(from: State, s: State, p: Process, sh: Shared, was: Shared, uuid: string) returns (s': State)
    requires Rejecting(sh, was, uuid) && was.record.pendingEpoch.None? && was.record.pendingId == ""
    requires was.db.row == Some(PairOf(was.record))
    requires Leads(from, With(s, p, sh, Writer(WClear(was.record, uuid, sh.rv))))
    ensures Leads(from, s') && Unwritten(was, s'.sh, uuid) && s'.procs == s.procs - {p}
  {
    var cur, v, c := was.record, sh.rv, |sh.cas|;
    var sent := Clearing(sh, p, cur);
    var done := ClearingRestores(sh, was, p, uuid);
    hide Leads, With, Unwritten, ApplyCas, SettleMove, ReadMove;
    s' := s.(sh := done, procs := s.procs - {p});
    MoveOn(from, s, p, sh, Writer(WClear(cur, uuid, v)), uuid, sh, Writer(WAbort(cur, uuid, v)));
    MoveOn(from, s, p, sh, Writer(WAbort(cur, uuid, v)), uuid, sent, Writer(WAborting(c)));
    EnvironmentOn(from, s, p, sent, Writer(WAborting(c)), AnchorApply(c), done);
    ReturnOn(from, s, p, done, Writer(WAborting(c)), uuid, done);
  }

  lemma UnwrittenIsQuiet(s: State, s': State, own: Binding, uuid: string)
    requires Quiet(s, own) && Leads(s, s') && Unwritten(s.sh, s'.sh, uuid)
    ensures Quiet(s', own)
  {
    hide Leads;
    LeadsKeeps(s, s');
    hide Inv, Valid;
  }

  lemma FreshIsUnacknowledged(s: State, uuid: string)
    requires Inv(s) && Fresh(s.sh, uuid)
    ensures uuid !in s.sh.acked
  {
    hide AnchorOk, FencesOk, RequestsOk, CassesOk, AppliedOk, DbsOk, AnswersOk, ProcsOk, MintsOk, ValidUuid;
    assert uuid !in s.sh.fenced;
    assert forall i :: 0 <= i < |s.sh.finalized| ==> s.sh.finalized[i] in s.sh.fenced;
  }

  /**
   From any quiet state an undisturbed write whose request is rejected takes its fence back: anchor,
   database and history are as before, nothing is acknowledged, and the state is quiet again.
   */
  lemma RejectedWriteClears(s: State, p: Process, uuid: string) returns (s': State)
    requires Quiet(s, BoundTo(s, p)) && Fresh(s.sh, uuid) && p in s.procs && s.procs[p] == Writer(WBegin)
    ensures Leads(s, s') && Quiet(s', BoundTo(s, p)) && s'.procs == s.procs - {p}
    ensures s'.sh.record == s.sh.record && s'.sh.db == s.sh.db && s'.sh.finalized == s.sh.finalized
    ensures s'.sh.outcomes[uuid := Rejected] == s'.sh.outcomes && uuid !in s'.sh.acked && s'.sh.acked == s.sh.acked
  {
    FreshIsUnacknowledged(s, uuid);
    hide Leads, Quiet, Ready, Inv, Fresh, Executing, Rejecting, With;
    QuietRow(s, BoundTo(s, p));
    var reserved := ReservationLands(s, p, uuid);
    var rejected := WriterIsRejected(s, s, p, reserved, s.sh, uuid, |s.sh.cas|);
    s' := WriterClears(s, s, p, rejected, s.sh, uuid);
    UnwrittenIsQuiet(s, s', BoundTo(s, p), uuid);
  }

  // ---------- what a comparison of the row decides ----------

  /** The pair that a process is about to compare with the database. */
  function Compared(proc: Proc): Option<Pair> {
    match proc
    case Opening(_, PeerCheck(rec, _)) => if rec.pendingEpoch.Some? then Some(PendingPair(rec)) else None
    case Opening(_, FenceCheck(rec)) => if rec.pendingEpoch.Some? then Some(PendingPair(rec)) else None
    case Opening(_, RecoverCommitted(rec, _)) => if rec.pendingEpoch.Some? then Some(PendingPair(rec)) else None
    case Opening(_, RecoverRejected(rec, _)) => Some(PairOf(rec))
    case Opening(_, BeginVerify(rec, _)) => Some(PairOf(rec))
    case Opening(_, PrepareVerify(rec)) => Some(PairOf(rec))
    case Opening(_, FinalizePair(rec, _, _)) => if rec.pendingEpoch.Some? then Some(PendingPair(rec)) else None
    case Opening(_, StartupVerify(rec)) => Some(PairOf(rec))
    case Writer(WVerify(cur, _)) => Some(PairOf(cur))
    case Writer(WClear(cur, _, _)) => Some(PairOf(cur))
    case Reader(RVerify(first, _, _, _)) => Some(PairOf(first))
    case _ => None
  }

  /** A process that goes on as the code does when the row is not the pair. */
  predicate GivesUp(proc: Option<Proc>) {
    match proc
    case None => true
    case Some(Opening(_, pc)) => pc.Idle? || pc.Recover? || pc.PrepareExists?
    case Some(_) => false
  }

  lemma SettlingCompares(sh: Shared, own: Binding, p: Process, st: Startup, pc: SettlePc, uuid: string, pair: Pair)
    requires Compared(Opening(st, pc)) == Some(pair)
    ensures SettleMove(sh, own, p, st, pc, uuid).Some?
    ensures var e := SettleMove(sh, own, p, st, pc, uuid).value;
            && (GivesUp(e.proc) <==> sh.db.row != Some(pair))
            && (sh.db.row != Some(pair) ==> e.sh == sh)
  {
    hide Valid;
  }

  /**
   Every comparison decides by the row alone: with the pair in it the process goes on, and with
   anything else it gives up, sends nothing and answers nothing.
   */
  lemma ComparisonDecides(s: State, p: Process, uuid: string, s': State, pair: Pair)
    requires Next(s, Act(p, uuid), s') && Compared(s.procs[p]) == Some(pair)
    ensures var proc' := if p in s'.procs then Some(s'.procs[p]) else None;
            GivesUp(proc') <==> s.sh.db.row != Some(pair)
    ensures s.sh.db.row != Some(pair) ==> s'.sh == s.sh
  {
    if s.procs[p].Opening? {
      SettlingCompares(s.sh, BoundTo(s, p), p, s.procs[p].startup, s.procs[p].pc, uuid, pair);
      hide SettleMove;
    } else {
      hide SettleMove;
    }
  }

  // ---------- a fence is only cleared over the pair it was reserved over ----------

  /** Step `i` compared the row for the clearing that `p` is about to send, and found the pair. */
  ghost predicate ComparedForClearing(trace: seq<State>, i: nat, p: Process, cur: Record, id: string, v: nat)
    requires i < |trace|
  {
    && p in trace[i].procs && trace[i].procs[p] == Writer(WClear(cur, id, v))
    && trace[i].sh.db.row == Some(PairOf(cur))
  }

  lemma BecomesClearing(s: State, step: Step, s': State, p: Process, cur: Record, id: string, v: nat)
    requires Next(s, step, s') && p in s'.procs && s'.procs[p] == Writer(WAbort(cur, id, v))
    requires !(p in s.procs && s.procs[p] == Writer(WAbort(cur, id, v)))
    ensures p in s.procs && s.procs[p] == Writer(WClear(cur, id, v)) && s.sh.db.row == Some(PairOf(cur))
  {
    if step.Act? {
      if s.procs[step.p].Opening? {
        NoWriterOpens(s.sh, BoundTo(s, step.p), step.p, s.procs[step.p].startup, s.procs[step.p].pc, step.uuid);
      }
      hide SettleMove, ReadMove;
    } else {
      hide Move, Environment;
    }
  }

  lemma NoWriterOpens(sh: Shared, own: Binding, p: Process, st: Startup, pc: SettlePc, uuid: string)
    requires SettleMove(sh, own, p, st, pc, uuid).Some?
    ensures var e := SettleMove(sh, own, p, st, pc, uuid).value; e.proc.Some? ==> !e.proc.value.Writer?
  {
    hide Valid;
  }

  /** In every run, a writer sends a clearing only after it found the row at the pair it had reserved over. */
  lemma {:induction false} ClearingWasCompared(trace: seq<State>, steps: seq<Step>, j: nat, p: Process, cur: Record,
      id: string, v: nat)
    requires Run(trace, steps) && Init(trace[0]) && j < |trace|
    requires p in trace[j].procs && trace[j].procs[p] == Writer(WAbort(cur, id, v))
    ensures exists i :: 0 <= i < j && ComparedForClearing(trace, i, p, cur, id, v)
  {
    hide Next, ComparedForClearing;
    if j == 0 {
    } else {
      assert Next(trace[j - 1], steps[j - 1], trace[j - 1 + 1]);
      if p in trace[j - 1].procs && trace[j - 1].procs[p] == Writer(WAbort(cur, id, v)) {
        ClearingWasCompared(trace, steps, j - 1, p, cur, id, v);
      } else {
        BecomesClearing(trace[j - 1], steps[j - 1], trace[j], p, cur, id, v);
        assert ComparedForClearing(trace, j - 1, p, cur, id, v) by {
          hide Next;
          ItIsCompared(trace, j - 1, p, cur, id, v);
        }
      }
    }
  }

  lemma ItIsCompared(trace: seq<State>, i: nat, p: Process, cur: Record, id: string, v: nat)
    requires i < |trace| && p in trace[i].procs && trace[i].procs[p] == Writer(WClear(cur, id, v))
    requires trace[i].sh.db.row == Some(PairOf(cur))
    ensures ComparedForClearing(trace, i, p, cur, id, v)
  {
  }
}
