/**
 The protocol gets its work done when nobody interferes: from any quiet state a write completes
 and a read answers, and from an initial state an Open settles exactly when the database was
 not migrated before its anchor. Safety is therefore not bought by standing still.
 */
module TrustProgress {
  import opened Prelude
  import opened AnchorRecord
  import opened TrustState
  import opened TrustInvariant
  import opened TrustRuns
  import Reads = TrustReads

  /** Some run goes from one state to the other. */
  ghost predicate Leads(s: State, s': State) {
    exists trace, steps :: Run(trace, steps) && NoRestore(steps) && trace[0] == s && trace[|steps|] == s'
  }

  lemma LeadsByStep(s: State, step: Step, s': State)
    requires Next(s, step, s') && !step.DbRestore?
    ensures Leads(s, s')
  {
    hide Next;
    var trace, steps := [s, s'], [step];
    assert Run(trace, steps) && NoRestore(steps) && trace[0] == s && trace[|steps|] == s';
  }

  lemma LeadsOn(s: State, mid: State, s': State)
    requires Leads(s, mid) && Leads(mid, s')
    ensures Leads(s, s')
  {
    hide Next;
    var t1, p1 :| Run(t1, p1) && NoRestore(p1) && t1[0] == s && t1[|p1|] == mid;
    var t2, p2 :| Run(t2, p2) && NoRestore(p2) && t2[0] == mid && t2[|p2|] == s';
    var trace, steps := t1 + t2[1..], p1 + p2;
    forall i | 0 <= i < |steps| ensures Next(trace[i], steps[i], trace[i + 1]) {
      if i < |p1| {
        assert Next(t1[i], p1[i], t1[i + 1]);
      } else {
        assert Next(t2[i - |p1|], p2[i - |p1|], t2[i - |p1| + 1]);
      }
    }
    assert Run(trace, steps) && NoRestore(steps) && trace[0] == s && trace[|steps|] == s';
  }

  /** The state with one process and the shared part replaced. */
  function With(s: State, p: Process, sh: Shared, proc: Proc): State {
    s.(sh := sh, procs := s.procs[p := proc])
  }

  lemma WithIs(s: State, p: Process, sh: Shared, proc: Proc)
    ensures var s' := With(s, p, sh, proc);
            && s'.sh == sh && p in s'.procs && s'.procs[p] == proc && s'.next == s.next && s'.bound == s.bound
  {
  }

  lemma MoveOn(from: State, s: State, p: Process, sh: Shared, proc: Proc, uuid: string, sh': Shared, proc': Proc)
    requires Leads(from, With(s, p, sh, proc))
        && Move(sh, BoundTo(s, p), p, proc, uuid) == Some(Effect(sh', Some(proc')))
    ensures Leads(from, With(s, p, sh', proc'))
  {
    hide Move, Leads;
    assert s.procs[p := proc][p := proc'] == s.procs[p := proc'];
    LeadsByStep(With(s, p, sh, proc), Act(p, uuid), With(s, p, sh', proc'));
    LeadsOn(from, With(s, p, sh, proc), With(s, p, sh', proc'));
  }

  lemma EnvironmentOn(from: State, s: State, p: Process, sh: Shared, proc: Proc, step: Step, sh': Shared)
    requires Leads(from, With(s, p, sh, proc)) && Environment(sh, step) == Some(sh') && !step.DbRestore?
    ensures Leads(from, With(s, p, sh', proc))
  {
    hide Leads;
    LeadsByStep(With(s, p, sh, proc), step, With(s, p, sh', proc));
    LeadsOn(from, With(s, p, sh, proc), With(s, p, sh', proc));
  }

  lemma ReturnOn(from: State, s: State, p: Process, sh: Shared, proc: Proc, uuid: string, sh': Shared)
    requires Leads(from, With(s, p, sh, proc)) && Move(sh, BoundTo(s, p), p, proc, uuid) == Some(Effect(sh', None))
    ensures Leads(from, s.(sh := sh', procs := s.procs - {p}))
  {
    hide Move, Leads;
    assert s.procs[p := proc] - {p} == s.procs - {p};
    LeadsByStep(With(s, p, sh, proc), Act(p, uuid), s.(sh := sh', procs := s.procs - {p}));
    LeadsOn(from, With(s, p, sh, proc), s.(sh := sh', procs := s.procs - {p}));
  }

  // ---------- a write ----------

  /** Nothing pending, the database at the anchored pair, and the record accepted by this binding. */
  ghost predicate Ready(s: State, own: Binding) {
    && Inv(s) && !s.sh.legacy && Valid(own, s.sh.record)
    && s.sh.record.pendingEpoch.None?
    && s.sh.db.row == Some(PairOf(s.sh.record))
  }

  /** Ready, with an epoch left for a write. */
  ghost predicate Quiet(s: State, own: Binding) {
    Ready(s, own) && s.sh.record.epoch < MAX_INT64
  }

  function Reserving(sh: Shared, p: Process, uuid: string): Shared {
    SendCas(Mint(sh, p, uuid, false), p, sh.rv, Reserved(sh.record, uuid))
  }

  lemma WriterReserves(s: State, p: Process, uuid: string)
    requires Quiet(s, BoundTo(s, p)) && Fresh(s.sh, uuid) && p in s.procs && s.procs[p] == Writer(WBegin)
    ensures Leads(s, With(s, p, Reserving(s.sh, p, uuid), Writer(WReserving(s.sh.record, uuid, |s.sh.cas|))))
  {
    var sh, cur, v := s.sh, s.sh.record, s.sh.rv;
    hide Leads, Inv, Valid;
    assert With(s, p, sh, Writer(WBegin)) == s;
    LeadsByStep(s, Act(p, uuid), With(s, p, sh, Writer(WVerify(cur, v))));
    MoveOn(s, s, p, sh, Writer(WVerify(cur, v)), uuid, sh, Writer(WReserve(cur, v)));
    MoveOn(s, s, p, sh, Writer(WReserve(cur, v)), uuid, Reserving(sh, p, uuid),
      Writer(WReserving(cur, uuid, |sh.cas|)));
  }

  /** What the anchor and the database hold while the write is on its way. */
  ghost predicate Executing(sh: Shared, was: Shared, uuid: string, n: nat) {
    && !sh.legacy && |sh.cas| == n + 1 && sh.rv == was.rv + 1
    && (forall c :: c in sh.applied ==> c <= n) && n in sh.applied && sh.applied[n] == sh.rv
    && sh.record == Reserved(was.record, uuid)
    && sh.db == was.db && uuid !in sh.outcomes
    && sh.finalized == was.finalized && sh.acked == was.acked
  }

  lemma ReservationIsApplied(s: State, own: Binding, p: Process, uuid: string)
    requires Quiet(s, own) && Fresh(s.sh, uuid)
    ensures var sh1, n := Reserving(s.sh, p, uuid), |s.sh.cas|;
            CanApplyCas(sh1, n) && !sh1.legacy && Executing(ApplyCas(sh1, n), s.sh, uuid, n)
  {
    UnusedIsUnknown(s, uuid);
    hide ProcOk, MintsOk, Valid;
  }

  lemma UnusedIsUnknown(s: State, uuid: string)
    requires Inv(s) && Fresh(s.sh, uuid)
    ensures uuid !in s.sh.outcomes && (forall c :: c in s.sh.applied ==> c < |s.sh.cas|)
  {
    hide ProcOk, MintsOk, ValidUuid;
    assert uuid in s.sh.outcomes ==> uuid in TailIds(s.sh);
  }

  lemma ReservationLands(s: State, p: Process, uuid: string) returns (sh: Shared)
    requires Quiet(s, BoundTo(s, p)) && Fresh(s.sh, uuid) && p in s.procs && s.procs[p] == Writer(WBegin)
    ensures Executing(sh, s.sh, uuid, |s.sh.cas|)
    ensures Leads(s, With(s, p, sh, Writer(WReserving(s.sh.record, uuid, |s.sh.cas|))))
  {
    var n := |s.sh.cas|;
    WriterReserves(s, p, uuid);
    ReservationIsApplied(s, BoundTo(s, p), p, uuid);
    hide Leads, Quiet, Fresh, Reserving, Executing;
    sh := ApplyCas(Reserving(s.sh, p, uuid), n);
    EnvironmentOn(s, s, p, Reserving(s.sh, p, uuid), Writer(WReserving(s.sh.record, uuid, n)), AnchorApply(n), sh);
  }

  /** The request committed; the fence is still there. */
  ghost predicate Committing(sh: Shared, was: Shared, uuid: string) {
    && !sh.legacy && |sh.cas| !in sh.applied
    && sh.record == Reserved(was.record, uuid) && sh.finalized == was.finalized && sh.acked == was.acked
    && sh.db.row == Some(Pair(was.record.epoch + 1, uuid)) && sh.db.log == was.db.log + [uuid]
  }

  lemma WriterCommits(from: State, s: State, p: Process, sh: Shared, was: Shared, uuid: string, n: nat)
      returns (sh': Shared)
    requires Executing(sh, was, uuid, n) && was.db.row == Some(PairOf(was.record))
    requires Leads(from, With(s, p, sh, Writer(WReserving(was.record, uuid, n))))
    ensures Committing(sh', was, uuid) && Leads(from, With(s, p, sh', Writer(WFinalize(was.record, uuid, sh'.rv))))
  {
    var cur, v := was.record, sh.rv;
    var tail := Tail(uuid, PairOf(cur), cur.epoch + 1);
    var sent := SendTail(sh, uuid, PairOf(cur), cur.epoch + 1);
    sh' := CommitTail(sent, tail);
    hide Leads;
    MoveOn(from, s, p, sh, Writer(WReserving(cur, uuid, n)), uuid, sh, Writer(WExecute(cur, uuid, v)));
    MoveOn(from, s, p, sh, Writer(WExecute(cur, uuid, v)), uuid, sent, Writer(WOutcome(cur, uuid, v)));
    EnvironmentOn(from, s, p, sent, Writer(WOutcome(cur, uuid, v)), DbCommit(tail), sh');
    MoveOn(from, s, p, sh', Writer(WOutcome(cur, uuid, v)), uuid, sh', Writer(WFinalize(cur, uuid, v)));
  }

  function Confirming(sh: Shared, p: Process, cur: Record, uuid: string): Shared {
    SendCas(sh, p, sh.rv,
      cur.(epoch := cur.epoch + 1, token := uuid, pendingEpoch := None, pendingId := "", bootstrap := false))
  }

  /** What a completed write leaves. */
  ghost predicate Completed(sh: Shared, sh': Shared, uuid: string) {
    && sh'.acked == sh.acked + {uuid}
    && sh'.db.log == sh.db.log + [uuid]
    && sh'.finalized == sh.finalized + [uuid]
    && sh'.record == sh.record.(epoch := sh.record.epoch + 1, token := uuid, bootstrap := false)
    && sh'.db.row == Some(PairOf(sh'.record)) && !sh'.legacy
  }

  lemma ConfirmationCompletes(sh: Shared, was: Shared, p: Process, uuid: string) returns (done: Shared)
    requires Committing(sh, was, uuid) && was.record.pendingEpoch.None? && was.record.pendingId == ""
    ensures CanApplyCas(Confirming(sh, p, was.record, uuid), |sh.cas|) && |sh.cas| in done.applied
    ensures done == ApplyCas(Confirming(sh, p, was.record, uuid), |sh.cas|)
    ensures Completed(was, done.(acked := done.acked + {uuid}), uuid)
  {
    done := ApplyCas(Confirming(sh, p, was.record, uuid), |sh.cas|);
  }

  lemma WriterConfirms(from: State, s: State, p: Process, sh: Shared, was: Shared, uuid: string) returns (s': State)
    requires Committing(sh, was, uuid) && was.record.pendingEpoch.None? && was.record.pendingId == ""
    requires Leads(from, With(s, p, sh, Writer(WFinalize(was.record, uuid, sh.rv))))
    ensures Leads(from, s') && Completed(was, s'.sh, uuid)
    ensures s'.procs == s.procs - {p} && s'.bound == s.bound && s'.next == s.next
  {
    var cur, v, c := was.record, sh.rv, |sh.cas|;
    var sent := Confirming(sh, p, cur, uuid);
    var done := ConfirmationCompletes(sh, was, p, uuid);
    var acked := done.(acked := done.acked + {uuid});
    hide Leads, Completed, ApplyCas;
    s' := s.(sh := acked, procs := s.procs - {p});
    MoveOn(from, s, p, sh, Writer(WFinalize(cur, uuid, v)), uuid, sent, Writer(WFinalizing(uuid, c)));
    EnvironmentOn(from, s, p, sent, Writer(WFinalizing(uuid, c)), AnchorApply(c), done);
    ReturnOn(from, s, p, done, Writer(WFinalizing(uuid, c)), uuid, acked);
  }

  lemma LeadsKeeps(s: State, s': State)
    requires Inv(s) && Leads(s, s')
    ensures Inv(s')
  {
    hide Next, Inv;
    var trace, steps :| Run(trace, steps) && NoRestore(steps) && trace[0] == s && trace[|steps|] == s';
    RunKeeps(trace, steps, |steps|);
  }

  lemma CompletedIsReady(s: State, s': State, own: Binding, uuid: string)
    requires Quiet(s, own) && Leads(s, s') && Completed(s.sh, s'.sh, uuid) && ValidUuid(uuid)
    ensures Ready(s', own)
  {
    hide Leads;
    LeadsKeeps(s, s');
    hide Inv, ValidUuid;
  }

  /** From any quiet state an undisturbed write is acknowledged, and leaves the state ready at the next epoch. */
  lemma WriteCompletes(s: State, p: Process, uuid: string) returns (s': State)
    requires Quiet(s, BoundTo(s, p)) && Fresh(s.sh, uuid) && p in s.procs && s.procs[p] == Writer(WBegin)
    ensures Leads(s, s') && Completed(s.sh, s'.sh, uuid) && Ready(s', BoundTo(s, p)) && s'.procs == s.procs - {p}
  {
    assert ValidUuid(uuid);
    hide *;
    QuietRow(s, BoundTo(s, p));
    var reserved := ReservationLands(s, p, uuid);
    var committed := WriterCommits(s, s, p, reserved, s.sh, uuid, |s.sh.cas|);
    s' := WriterConfirms(s, s, p, committed, s.sh, uuid);
    CompletedIsReady(s, s', BoundTo(s, p), uuid);
  }

  lemma QuietRow(s: State, own: Binding)
    requires Quiet(s, own)
    ensures s.sh.db.row == Some(PairOf(s.sh.record)) && s.sh.record.pendingEpoch.None? && s.sh.record.pendingId == ""
  {
  }

  // ---------- a read ----------

  /** From any ready state an undisturbed read returns the database's content. */
  lemma ReadAnswers(s: State, p: Process)
    requires Ready(s, BoundTo(s, p)) && p in s.procs && s.procs[p] == Reader(RBegin)
    ensures var start := ReadStart(s.sh.acked, s.sh.finalized, s.sh.commits);
            Leads(s, s.(sh := s.sh.(answers := s.sh.answers + [Answer(p, start, s.sh.db.log, s.sh.commits)]),
              procs := s.procs - {p}))
  {
    var sh, first, v := s.sh, s.sh.record, s.sh.rv;
    var start := ReadStart(sh.acked, sh.finalized, sh.commits);
    hide Leads, Inv, Valid;
    assert With(s, p, sh, Reader(RBegin)) == s;
    LeadsByStep(s, Act(p, ""), With(s, p, sh, Reader(RQuery(first, v, start))));
    MoveOn(s, s, p, sh, Reader(RQuery(first, v, start)), "", sh, Reader(RVerify(first, v, start, sh.db.log)));
    MoveOn(s, s, p, sh, Reader(RVerify(first, v, start, sh.db.log)), "", sh,
      Reader(RRecheck(first, v, start, sh.db.log)));
    ReturnOn(s, s, p, sh, Reader(RRecheck(first, v, start, sh.db.log)), "",
             sh.(answers := sh.answers + [Answer(p, start, sh.db.log, sh.commits)]));
  }

  // ---------- an Open ----------

  predicate SameIds(sh: Shared, sh': Shared) {
    sh'.minted == sh.minted && sh'.initial == sh.initial
  }

  /** The first Open's reservation is published; the database is as the deployment left it. */
  ghost predicate Published(sh: Shared, was: Shared, r: Record) {
    && !sh.legacy && |sh.cas| == 1 && sh.applied.Keys == {0} && sh.record == r
    && sh.db == was.db && sh.past == was.past && sh.outcomes == map[] && sh.tails == {}
  }

  /** The first process to open, with its binding. */
  function Opened(s: State, own: Binding): State {
    s.(bound := s.bound[s.next := own], next := s.next + 1)
  }

  lemma OpenReserves(s: State, own: Binding, uuid: string) returns (sh': Shared)
    requires Init(s) && Valid(own, s.sh.record) && Fresh(s.sh, uuid) && !s.sh.db.migrated
    ensures Published(sh', s.sh, Reserved(s.sh.record, uuid)) && sh'.minted.Keys == {uuid}
        && sh'.initial == s.sh.initial
    ensures Leads(s, With(Opened(s, own), s.next, sh',
        Opening(Startup(Some(uuid), false), SettlePc.Reserving(s.sh.record, 0))))
  {
    var b, p, sh, rec, v := Opened(s, own), s.next, s.sh, s.sh.record, s.sh.rv;
    var st, st' := Startup(None, false), Startup(Some(uuid), false);
    var sent := SendCas(Mint(sh, p, uuid, true), p, v, Reserved(rec, uuid));
    hide Leads, ValidUuid;
    LeadsByStep(s, Open(own), With(b, p, sh, Opening(st, Idle)));
    MoveOn(s, b, p, sh, Opening(st, Idle), uuid, sh, Opening(st, MarkerCheck(rec, v)));
    MoveOn(s, b, p, sh, Opening(st, MarkerCheck(rec, v)), uuid, sh, Opening(st, BeginExists(rec, v)));
    MoveOn(s, b, p, sh, Opening(st, BeginExists(rec, v)), uuid, sh, Opening(st, BeginCas(rec, v)));
    MoveOn(s, b, p, sh, Opening(st, BeginCas(rec, v)), uuid, sent, Opening(st', SettlePc.Reserving(rec, 0)));
    hide Move;
    sh' := ShapeReady(s, b, p, sent, Opening(st', SettlePc.Reserving(rec, 0)));
  }

  /** The message lands, after the migrating write if the anchor still has eight keys. */
  lemma ShapeReady(from: State, b: State, p: Process, sh: Shared, proc: Proc) returns (sh': Shared)
    requires Leads(from, With(b, p, sh, proc)) && |sh.cas| == 1 && sh.applied == map[] && sh.cas[0].expected == sh.rv
    ensures Leads(from, With(b, p, sh', proc)) && !sh'.legacy && |sh'.cas| == 1 && sh'.applied.Keys == {0}
    ensures sh'.record == sh.cas[0].next
    ensures sh'.db == sh.db && sh'.past == sh.past && sh'.outcomes == sh.outcomes && sh'.tails == sh.tails
        && SameIds(sh, sh')
  {
    hide Leads;
    var ready := if sh.legacy then MigrateShape(sh, 0, true) else sh;
    if sh.legacy {
      EnvironmentOn(from, b, p, sh, proc, AnchorMigrate(0, true), ready);
    }
    sh' := ApplyCas(ready, 0);
    EnvironmentOn(from, b, p, ready, proc, AnchorApply(0), sh');
  }

  /** The row is made, the schema migrated. */
  ghost predicate Prepared(sh: Shared, r: Record) {
    && !sh.legacy && |sh.cas| == 1 && sh.applied.Keys == {0} && sh.record == r
    && sh.db.row == Some(PairOf(r)) && sh.db.migrated && sh.outcomes == map[] && StartsEmpty(sh)
  }

  /** The oldest version kept has no trust row. */
  predicate StartsEmpty(sh: Shared) {
    sh.past != [] && sh.past[0].row.None?
  }

  lemma OpenPrepares(from: State, b: State, p: Process, sh: Shared, was: Shared, rec: Record, uuid: string)
      returns (sh': Shared)
    requires Published(sh, was, Reserved(rec, uuid)) && was.db.row.None? && was.past == [] && rec.bootstrap
    requires Leads(from, With(b, p, sh, Opening(Startup(Some(uuid), false), SettlePc.Reserving(rec, 0))))
    ensures Prepared(sh', Reserved(rec, uuid)) && SameIds(sh, sh')
    ensures |sh'.past| == 2 && sh'.past[1] == was.db.(row := Some(PairOf(rec))) && sh'.tails == {}
    ensures Leads(from, With(b, p, sh', Opening(Startup(Some(uuid), true), FenceMarker(Reserved(rec, uuid)))))
  {
    var r, st, st' := Reserved(rec, uuid), Startup(Some(uuid), false), Startup(Some(uuid), true);
    hide Leads, With, WriteMove, ReadMove, SettleLook, RecoverMove, FinishMove;
    MoveOn(from, b, p, sh, Opening(st, SettlePc.Reserving(rec, 0)), uuid, sh, Opening(st', FenceCheck(r)));
    hide BeginMove;
    MoveOn(from, b, p, sh, Opening(st', FenceCheck(r)), uuid, sh, Opening(st', PrepareExists(r)));
    var asked := sh.(creates := sh.creates + {PairOf(r)});
    MoveOn(from, b, p, sh, Opening(st', PrepareExists(r)), uuid, asked, Opening(st', PrepareVerify(r)));
    var made := CreateRow(asked, PairOf(r));
    EnvironmentOn(from, b, p, asked, Opening(st', PrepareVerify(r)), DbCreate(PairOf(r)), made);
    MoveOn(from, b, p, made, Opening(st', PrepareVerify(r)), uuid, made, Opening(st', FenceMigrate(r)));
    var migrating := made.(migrates := true);
    MoveOn(from, b, p, made, Opening(st', FenceMigrate(r)), uuid, migrating, Opening(st', FenceMarker(r)));
    sh' := ApplyMigrate(migrating);
    EnvironmentOn(from, b, p, migrating, Opening(st', FenceMarker(r)), DbMigrate, sh');
  }

  lemma OpenCommits(from: State, b: State, p: Process, sh: Shared, rec: Record, st: Startup, uuid: string)
      returns (sh': Shared)
    requires Prepared(sh, Reserved(rec, uuid))
        && Leads(from, With(b, p, sh, Opening(st, FenceMarker(Reserved(rec, uuid)))))
    ensures !sh'.legacy && |sh'.cas| == 1 && sh'.applied.Keys == {0} && sh'.record == Reserved(rec, uuid)
    ensures sh'.db.row == Some(Pair(rec.epoch + 1, uuid)) && sh'.db.migrated && StartsEmpty(sh') && SameIds(sh, sh')
    ensures Leads(from, With(b, p, sh', Opening(st, FinalizeRead(Reserved(rec, uuid)))))
  {
    var r := Reserved(rec, uuid);
    hide Leads, With, WriteMove, ReadMove, SettleLook, RecoverMove, FinishMove, BeginMove;
    MoveOn(from, b, p, sh, Opening(st, FenceMarker(r)), uuid, sh, Opening(st, FenceExecute(r)));
    var sent := SendTail(sh, uuid, PairOf(r), r.pendingEpoch.value);
    MoveOn(from, b, p, sh, Opening(st, FenceExecute(r)), uuid, sent, Opening(st, FenceOutcome(r)));
    var tail := Tail(uuid, PairOf(r), r.pendingEpoch.value);
    sh' := CommitTail(sent, tail);
    EnvironmentOn(from, b, p, sent, Opening(st, FenceOutcome(r)), DbCommit(tail), sh');
    MoveOn(from, b, p, sh', Opening(st, FenceOutcome(r)), uuid, sh', Opening(st, FinalizeRead(r)));
  }

  lemma OpenFinalizes(from: State, b: State, p: Process, sh: Shared, r: Record, st: Startup)
    requires sh.record == r && r.pendingEpoch.Some?
    requires sh.db.row == Some(PendingPair(r)) && sh.db.migrated && Valid(BoundTo(b, p), r)
    requires Leads(from, With(b, p, sh, Opening(st, FinalizeRead(r))))
    ensures Leads(from, With(b, p, sh, Opening(st, FinalizeCas(r, sh.rv))))
  {
    var v := sh.rv;
    hide Leads, With, WriteMove, ReadMove, SettleLook, RecoverMove, FenceMove, BeginMove;
    MoveOn(from, b, p, sh, Opening(st, FinalizeRead(r)), "", sh, Opening(st, FinalizePair(r, r, v)));
    hide Valid;
    MoveOn(from, b, p, sh, Opening(st, FinalizePair(r, r, v)), "", sh, Opening(st, FinalizeMarker(r, v)));
    MoveOn(from, b, p, sh, Opening(st, FinalizeMarker(r, v)), "", sh, Opening(st, FinalizeCas(r, v)));
  }

  lemma OpenFinishes(from: State, b: State, p: Process, sh: Shared, r: Record, st: Startup) returns (s': State)
    requires !sh.legacy && |sh.cas| !in sh.applied && sh.record == r && r.pendingEpoch.Some?
    requires sh.db.row == Some(PendingPair(r)) && sh.db.migrated && Valid(BoundTo(b, p), r)
    requires Leads(from, With(b, p, sh, Opening(st, FinalizeRead(r))))
    ensures Leads(from, s') && p in s'.procs && s'.procs[p] == Settled && s'.sh.record == Finalized(r)
        && s'.sh.db == sh.db
    ensures s'.sh.past == sh.past && !s'.sh.legacy && s'.next == b.next && s'.bound == b.bound && SameIds(sh, s'.sh)
  {
    var v, n := sh.rv, |sh.cas|;
    hide Leads, With, Valid, WriteMove, ReadMove, SettleLook, RecoverMove, FenceMove, BeginMove;
    OpenFinalizes(from, b, p, sh, r, st);
    var sent := SendCas(sh, p, v, Finalized(r));
    MoveOn(from, b, p, sh, Opening(st, FinalizeCas(r, v)), "", sent, Opening(st, Publishing(n)));
    var done := ApplyCas(sent, n);
    EnvironmentOn(from, b, p, sent, Opening(st, Publishing(n)), AnchorApply(n), done);
    MoveOn(from, b, p, done, Opening(st, Publishing(n)), "", done, Settled);
    s' := With(b, p, done, Settled);
    WithIs(b, p, done, Settled);
  }

  lemma LeadsReachable(s: State, s': State)
    requires Init(s) && Leads(s, s')
    ensures Inv(s')
  {
    hide Init, Leads, Inv;
    InitHolds(s);
    LeadsKeeps(s, s');
  }

  /**
   A database that was not migrated before its anchor: the first Open can settle, at epoch 1, with the bootstrap
   spent.
   */
  lemma OpenSettles(s: State, own: Binding, uuid: string) returns (s': State)
    requires Init(s) && Valid(own, s.sh.record) && Fresh(s.sh, uuid) && !s.sh.db.migrated
    ensures Leads(s, s') && s.next in s'.procs && s'.procs[s.next] == Settled
    ensures PairOf(s'.sh.record) == Pair(1, uuid) && !s'.sh.record.bootstrap
    ensures s'.sh.db.row == Some(PairOf(s'.sh.record)) && s'.sh.db.migrated
    ensures StartsEmpty(s'.sh) && Quiet(s', own) && s'.next == s.next + 1 && s'.bound == Opened(s, own).bound
    ensures s'.sh.minted.Keys == {uuid} && s'.sh.initial == s.sh.initial
  {
    var b, p, rec, r := Opened(s, own), s.next, s.sh.record, Reserved(s.sh.record, uuid);
    var st' := Startup(Some(uuid), true);
    hide Leads, Published, Prepared, Inv, Quiet, Init, Valid, Fresh;
    InitialAnchor(s, own, uuid);
    var sh1 := OpenReserves(s, own, uuid);
    var sh2 := OpenPrepares(s, b, p, sh1, s.sh, rec, uuid);
    var sh3 := OpenCommits(s, b, p, sh2, rec, st', uuid);
    s' := OpenFinishes(s, b, p, sh3, r, st');
    LeadsReachable(s, s');
    assert Quiet(s', own) by {
      FinalizedIsValid(own, rec, uuid);
      hide *;
      QuietAt(s', own);
    }
  }

  lemma InitialAnchor(s: State, own: Binding, uuid: string)
    requires Init(s) && Valid(own, s.sh.record) && Fresh(s.sh, uuid)
    ensures s.sh.record.bootstrap && s.sh.record.epoch == 0 && s.sh.record.pendingEpoch.None? && s.sh.db.row.None?
        && s.sh.past == []
    ensures Valid(own, Reserved(s.sh.record, uuid))
  {
    hide ValidUuid;
  }

  lemma FinalizedIsValid(binding: Binding, rec: Record, uuid: string)
    requires Valid(binding, Reserved(rec, uuid))
    ensures Valid(binding, Finalized(Reserved(rec, uuid)))
  {
    hide ValidUuid;
  }

  lemma QuietAt(s: State, own: Binding)
    requires Inv(s) && !s.sh.legacy && Valid(own, s.sh.record)
    requires s.sh.record.pendingEpoch.None? && s.sh.record.epoch == 1
    requires s.sh.db.row == Some(PairOf(s.sh.record))
    ensures Quiet(s, own)
  {
    hide Inv, Valid;
  }

  // ---------- when no Open can ----------

  /** Migrated before the anchor: nobody reserves, so nobody makes the row the anchor asks for. */
  ghost predicate Shut(s: State) {
    && s.sh.db.migrated && s.sh.db.row.None? && s.sh.record.bootstrap && s.sh.record.pendingEpoch.None?
    && s.sh.cas == [] && s.sh.tails == {} && s.sh.creates == {} && !s.sh.migrates && s.sh.past == []
    && (forall p :: p in s.procs ==> s.procs[p].Opening? && !s.procs[p].startup.reserved
                                     && (s.procs[p].pc.Idle? || s.procs[p].pc.MarkerCheck?
                                        || s.procs[p].pc.StartupRead? || s.procs[p].pc.StartupVerify?))
  }

  lemma ShutMoves(s: State, p: Process, uuid: string, s': State)
    requires Shut(s) && Next(s, Act(p, uuid), s')
    ensures Shut(s')
  {
    hide Valid, RecoverMove, FenceMove, WriteMove, ReadMove;
  }

  lemma ShutStays(s: State, step: Step, s': State)
    requires Shut(s) && Next(s, step, s')
    ensures Shut(s')
  {
    if step.Act? {
      ShutMoves(s, step.p, step.uuid, s');
    } else {
      hide Move, ValidStructure;
    }
  }

  /**
   A database migrated before its anchor was made never settles: together with `OpenSettles`, exactly those do not.
   */
  lemma {:induction false} MigratedFirstNeverSettles(trace: seq<State>, steps: seq<Step>, i: nat, p: Process)
    requires Run(trace, steps) && Init(trace[0]) && trace[0].sh.db.migrated && i < |trace|
    ensures Shut(trace[i])
    ensures p in trace[i].procs ==> trace[i].procs[p] != Settled
  {
    hide Next;
    if i == 0 {
    } else {
      MigratedFirstNeverSettles(trace, steps, i - 1, p);
      assert Next(trace[i - 1], steps[i - 1], trace[i - 1 + 1]);
      ShutStays(trace[i - 1], steps[i - 1], trace[i]);
    }
  }

  // ---------- a rollback under a write, and under a read ----------

  /** A new call on a settled process. */
  function Called(s: State, p: Process): State {
    s.(bound := s.bound[s.next := BoundTo(s, p)], next := s.next + 1)
  }

  lemma WriterChecked(s: State, p: Process) returns (m: State)
    requires Quiet(s, BoundTo(s, p)) && IsSettled(s, p)
    ensures m == With(Called(s, p), s.next, s.sh, Writer(WReserve(s.sh.record, s.sh.rv))) && Leads(s, m)
  {
    var b, q, sh, cur, v := Called(s, p), s.next, s.sh, s.sh.record, s.sh.rv;
    hide Leads, Inv, Valid, Next;
    m := With(b, q, sh, Writer(WReserve(cur, v)));
    CallStarts(s, p);
    LeadsByStep(s, StartWrite(p), With(b, q, sh, Writer(WBegin)));
    MoveOn(s, b, q, sh, Writer(WBegin), "", sh, Writer(WVerify(cur, v)));
    MoveOn(s, b, q, sh, Writer(WVerify(cur, v)), "", sh, Writer(WReserve(cur, v)));
  }

  lemma ReaderChecked(s: State, p: Process, start: ReadStart) returns (m: State)
    requires Ready(s, BoundTo(s, p)) && IsSettled(s, p) && start == ReadStart(s.sh.acked, s.sh.finalized, s.sh.commits)
    ensures m == With(Called(s, p), s.next, s.sh, Reader(RRecheck(s.sh.record, s.sh.rv, start, s.sh.db.log)))
        && Leads(s, m)
  {
    var b, q, sh, cur, v := Called(s, p), s.next, s.sh, s.sh.record, s.sh.rv;
    hide Leads, Inv, Valid, Next;
    m := With(b, q, sh, Reader(RRecheck(cur, v, start, sh.db.log)));
    CallStarts(s, p);
    LeadsByStep(s, StartRead(p), With(b, q, sh, Reader(RBegin)));
    MoveOn(s, b, q, sh, Reader(RBegin), "", sh, Reader(RQuery(cur, v, start)));
    MoveOn(s, b, q, sh, Reader(RQuery(cur, v, start)), "", sh, Reader(RVerify(cur, v, start, sh.db.log)));
    MoveOn(s, b, q, sh, Reader(RVerify(cur, v, start, sh.db.log)), "", sh, Reader(RRecheck(cur, v, start, sh.db.log)));
  }

  lemma CallStarts(s: State, p: Process)
    requires IsSettled(s, p)
    ensures Next(s, StartWrite(p), With(Called(s, p), s.next, s.sh, Writer(WBegin)))
    ensures Next(s, StartRead(p), With(Called(s, p), s.next, s.sh, Reader(RBegin)))
  {
    hide Move, Environment;
  }

  /** The whole database goes back to the version without a trust row. */
  function RolledBack(s: State): State
    requires StartsEmpty(s.sh)
  {
    s.(sh := Restore(s.sh, 0))
  }

  lemma RestoredIsStale(s: State)
    requires StartsEmpty(s.sh) && !s.sh.record.bootstrap
    ensures Next(s, DbRestore(0), RolledBack(s)) && Reads.RowIsStale(RolledBack(s).sh)
  {
  }

  lemma RestoredIsReachable(s: State, checked: State)
    requires Init(s) && Leads(s, checked) && StartsEmpty(checked.sh) && !checked.sh.record.bootstrap
    ensures Inv(RolledBack(checked)) && Reads.Behind(RolledBack(checked).sh) && Reads.FirstsAreOwn(RolledBack(checked))
  {
    hide Init, Leads, Next, Inv, Reads.FirstsAreOwn;
    RestoredIsStale(checked);
    LeadsReachable(s, checked);
    LeadsIsOwn(s, checked);
    StepKeeps(checked, DbRestore(0), RolledBack(checked));
    Reads.StepIsOwn(checked, DbRestore(0), RolledBack(checked));
    hide Reads.RowIsStale, Reads.Behind;
    Reads.StaleIsBehind(RolledBack(checked));
  }

  lemma LeadsIsOwn(s: State, s': State)
    requires Init(s) && Leads(s, s')
    ensures Reads.FirstsAreOwn(s')
  {
    hide Init, Next, Reads.FirstsAreOwn;
    var trace, steps :| Run(trace, steps) && NoRestore(steps) && trace[0] == s && trace[|steps|] == s';
    Reads.RunIsOwn(trace, steps, |steps|);
  }

  /**
   From any initial state that can settle, a run in which the whole database is restored under a
   checked write, and the write's fence is published over the rolled-back database all the same.
   */
  lemma RollbackUnderWrite(s: State, own: Binding, first: string, second: string)
    returns (checked: State, restored: State, sent: State, landed: State)
    requires Init(s) && Valid(own, s.sh.record) && Fresh(s.sh, first) && !s.sh.db.migrated
    requires ValidUuid(second) && second != first && second != s.sh.initial.token
    ensures Leads(s, checked) && Next(checked, DbRestore(0), restored) && Reads.RowIsStale(restored.sh)
    ensures exists p :: Next(restored, Act(p, second), sent)
    ensures Next(sent, AnchorApply(|restored.sh.cas|), landed)
        && landed.sh.record == Reserved(restored.sh.record, second)
  {
    hide Leads, Init, Next, Inv, Valid, ValidUuid, Reads.RowIsStale, Reads.Behind, Reads.PublishesFence,
         Reads.FirstsAreOwn;
    var settled := OpenSettles(s, own, first);
    checked := WriterChecked(settled, s.next);
    LeadsOn(s, settled, checked);
    restored := RolledBack(checked);
    RestoredIsStale(checked);
    RestoredIsReachable(s, checked);
    sent, landed := Reads.ReservationMayStillLand(restored, settled.next, second);
  }

  /** And one in which it is restored under a read that compared the row already: the read still returns its rows. */
  lemma RollbackUnderRead(s: State, own: Binding, first: string)
      returns (checked: State, restored: State, answered: State)
    requires Init(s) && Valid(own, s.sh.record) && Fresh(s.sh, first) && !s.sh.db.migrated
    ensures Leads(s, checked) && Next(checked, DbRestore(0), restored) && Reads.RowIsStale(restored.sh)
    ensures exists p :: Next(restored, Act(p, ""), answered)
    ensures answered.sh.answers != restored.sh.answers
  {
    hide Leads, Init, Next, Inv, Valid, ValidUuid, Reads.RowIsStale, Reads.Behind, Reads.FirstsAreOwn;
    var settled := OpenSettles(s, own, first);
    var start := ReadStart(settled.sh.acked, settled.sh.finalized, settled.sh.commits);
    checked := ReaderChecked(settled, s.next, start);
    LeadsOn(s, settled, checked);
    restored := RolledBack(checked);
    RestoredIsStale(checked);
    RestoredIsReachable(s, checked);
    answered := Reads.ReadMayStillAnswer(restored, settled.next);
  }
}
