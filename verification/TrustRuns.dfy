/** From steps to runs: what every reachable state of the fencing protocol satisfies. */
module TrustRuns {
  import opened Prelude
  import opened AnchorRecord
  import opened TrustState
  import opened TrustInvariant
  import Env = TrustEnvironment
  import Processes = TrustProcesses

  /** An opening process minted at most its own reservation. */
  ghost predicate MintsOk(s: State) {
    forall id :: id in s.sh.minted ==>
      && s.sh.minted[id] < s.next
      && (s.sh.minted[id] in s.procs && s.procs[s.sh.minted[id]].Opening? ==>
            s.procs[s.sh.minted[id]].startup.attempted == Some(id))
  }

  ghost predicate ProcsOk(s: State) {
    forall p :: p in s.procs ==> p < s.next && ProcOk(s.sh, p, s.procs[p])
  }

  ghost predicate Inv(s: State) {
    Core(s.sh) && ProcsOk(s) && MintsOk(s)
  }

  lemma InitHolds(s: State)
    requires Init(s)
    ensures Inv(s)
  {
    assert TailIds(s.sh) == {};
  }

  lemma EnvironmentStep(s: State, step: Step, s': State)
    requires Inv(s) && Environment(s.sh, step).Some? && s' == s.(sh := Environment(s.sh, step).value)
    requires s'.sh.minted == s.sh.minted
    ensures Inv(s')
  {
    hide Core, ProcOk, Environment, Evolves;
    Env.EnvironmentKeeps(s.sh, step, s.next);
    forall p | p in s'.procs ensures ProcOk(s'.sh, p, s'.procs[p]) {
      ProcStable(s.sh, s'.sh, s.next, p, s.procs[p]);
    }
  }

  lemma EnvironmentMintsNothing(sh: Shared, step: Step)
    requires Environment(sh, step).Some?
    ensures Environment(sh, step).value.minted == sh.minted
  {
  }

  /** Identities appear only in the two moves that reserve, and an Open keeps the one it minted. */
  ghost predicate MintsBy(sh: Shared, p: Process, proc: Proc, uuid: string, e: Effect) {
    && (|| e.sh.minted == sh.minted
        || (uuid !in sh.minted && e.sh.minted == sh.minted[uuid := p]))
    && (if proc.Opening? then
          && e.proc.Some?
          && (e.proc.value.Opening? && e.sh.minted == sh.minted ==>
             e.proc.value.startup.attempted == proc.startup.attempted)
          && (e.sh.minted != sh.minted ==>
                proc.startup.attempted.None? && e.proc.value.Opening? && e.proc.value.startup.attempted == Some(uuid))
        else
          e.proc.Some? ==> !e.proc.value.Opening?)
  }

  lemma BeginMints(sh: Shared, p: Process, st: Startup, pc: SettlePc, uuid: string)
    requires Begins(pc)
    requires BeginMove(sh, p, st, pc, uuid).Some?
    ensures MintsBy(sh, p, Opening(st, pc), uuid, BeginMove(sh, p, st, pc, uuid).value)
  {
  }

  lemma LookMints(sh: Shared, own: Binding, p: Process, st: Startup, uuid: string)
    requires SettleLook(sh, own, st).Some?
    ensures MintsBy(sh, p, Opening(st, Idle), uuid, SettleLook(sh, own, st).value)
  {
    hide Valid;
  }

  lemma PeerMints(sh: Shared, own: Binding, p: Process, st: Startup, pc: SettlePc, uuid: string)
    requires pc.PeerCheck?
    ensures SettleMove(sh, own, p, st, pc, uuid).Some?
        && MintsBy(sh, p, Opening(st, pc), uuid, SettleMove(sh, own, p, st, pc, uuid).value)
  {
    hide SettleLook, RecoverMove, BeginMove, FenceMove, FinishMove;
  }

  lemma RecoverMints(sh: Shared, p: Process, st: Startup, pc: SettlePc, uuid: string)
    requires Recovers(pc) && RecoverMove(sh, p, st, pc).Some?
    ensures MintsBy(sh, p, Opening(st, pc), uuid, RecoverMove(sh, p, st, pc).value)
  {
  }

  lemma FenceMints(sh: Shared, p: Process, st: Startup, pc: SettlePc, uuid: string)
    requires Fences(pc)
    requires FenceMove(sh, st, pc).Some?
    ensures MintsBy(sh, p, Opening(st, pc), uuid, FenceMove(sh, st, pc).value)
  {
  }

  lemma FinishMints(sh: Shared, own: Binding, p: Process, st: Startup, pc: SettlePc, uuid: string)
    requires Finishes(pc)
    requires FinishMove(sh, own, p, st, pc).Some?
    ensures MintsBy(sh, p, Opening(st, pc), uuid, FinishMove(sh, own, p, st, pc).value)
  {
    hide Valid;
  }

  lemma SettleMints(sh: Shared, own: Binding, p: Process, st: Startup, pc: SettlePc, uuid: string)
    requires SettleMove(sh, own, p, st, pc, uuid).Some?
    ensures MintsBy(sh, p, Opening(st, pc), uuid, SettleMove(sh, own, p, st, pc, uuid).value)
  {
    hide SettleLook, RecoverMove, BeginMove, FenceMove, FinishMove, MintsBy;
    match pc
    case Idle => LookMints(sh, own, p, st, uuid);
    case PeerCheck(_, _) => PeerMints(sh, own, p, st, pc, uuid);
    case Recover(_, _) => RecoverMints(sh, p, st, pc, uuid);
    case RecoverCommitted(_, _) => RecoverMints(sh, p, st, pc, uuid);
    case RecoverRejected(_, _) => RecoverMints(sh, p, st, pc, uuid);
    case MarkerCheck(_, _) => BeginMints(sh, p, st, pc, uuid);
    case BeginExists(_, _) => BeginMints(sh, p, st, pc, uuid);
    case BeginVerify(_, _) => BeginMints(sh, p, st, pc, uuid);
    case BeginCas(_, _) => BeginMints(sh, p, st, pc, uuid);
    case Reserving(_, _) => BeginMints(sh, p, st, pc, uuid);
    case FenceCheck(_) => FenceMints(sh, p, st, pc, uuid);
    case PrepareExists(_) => FenceMints(sh, p, st, pc, uuid);
    case PrepareVerify(_) => FenceMints(sh, p, st, pc, uuid);
    case FenceMigrate(_) => FenceMints(sh, p, st, pc, uuid);
    case FenceMarker(_) => FenceMints(sh, p, st, pc, uuid);
    case FenceExecute(_) => FenceMints(sh, p, st, pc, uuid);
    case FenceOutcome(_) => FenceMints(sh, p, st, pc, uuid);
    case _ => FinishMints(sh, own, p, st, pc, uuid);
  }

  lemma MintedBy(sh: Shared, own: Binding, p: Process, proc: Proc, uuid: string)
    requires Move(sh, own, p, proc, uuid).Some?
    ensures MintsBy(sh, p, proc, uuid, Move(sh, own, p, proc, uuid).value)
  {
    hide SettleMove, WriteMove, ReadMove, MintsBy;
    match proc
    case Opening(st, pc) => SettleMints(sh, own, p, st, pc, uuid);
    case Settled =>
    case Writer(pc) => WriteMints(sh, own, p, pc, uuid);
    case Reader(pc) => ReadMints(sh, own, p, pc, uuid);
  }

  lemma WriteMints(sh: Shared, own: Binding, p: Process, pc: WritePc, uuid: string)
    requires WriteMove(sh, own, p, pc, uuid).Some?
    ensures MintsBy(sh, p, Writer(pc), uuid, WriteMove(sh, own, p, pc, uuid).value)
  {
    hide Valid;
  }

  lemma ReadMints(sh: Shared, own: Binding, p: Process, pc: ReadPc, uuid: string)
    requires ReadMove(sh, own, p, pc).Some?
    ensures MintsBy(sh, p, Reader(pc), uuid, ReadMove(sh, own, p, pc).value)
  {
    hide Valid;
  }

  lemma ActMints(s: State, p: Process, uuid: string, s': State)
    requires Inv(s) && Next(s, Act(p, uuid), s')
    ensures MintsOk(s')
  {
    hide Core, ProcOk, Move;
    MintedBy(s.sh, BoundTo(s, p), p, s.procs[p], uuid);
    forall id | id in s'.sh.minted
      ensures s'.sh.minted[id] < s'.next
      ensures s'.sh.minted[id] in s'.procs && s'.procs[s'.sh.minted[id]].Opening? ==>
                s'.procs[s'.sh.minted[id]].startup.attempted == Some(id)
    {
      if id in s.sh.minted {
        assert s'.sh.minted[id] == s.sh.minted[id];
      }
    }
  }

  lemma ActStep(s: State, p: Process, uuid: string, s': State)
    requires Inv(s) && Next(s, Act(p, uuid), s')
    ensures Inv(s')
  {
    hide Core, ProcOk, Move, Evolves;
    Processes.MoveKeeps(s.sh, BoundTo(s, p), p, s.procs[p], uuid);
    ActMints(s, p, uuid, s');
    forall q | q in s'.procs ensures q < s'.next && ProcOk(s'.sh, q, s'.procs[q]) {
      if q != p {
        ProcStable(s.sh, s'.sh, p, q, s.procs[q]);
      }
    }
  }

  lemma LocalStep(s: State, step: Step, s': State)
    requires Inv(s) && Next(s, step, s')
    requires step.Open? || step.StartWrite? || step.StartRead? || step.Misread? || step.Fail? || step.Crash?
    ensures Inv(s')
  {
    hide Core;
  }

  /** Every step keeps the invariant. */
  lemma StepKeeps(s: State, step: Step, s': State)
    requires Inv(s) && Next(s, step, s')
    ensures Inv(s')
  {
    hide Inv;
    match step {
      case Open(_) => LocalStep(s, step, s');
      case StartWrite(_) => LocalStep(s, step, s');
      case StartRead(_) => LocalStep(s, step, s');
      case Misread(_) => LocalStep(s, step, s');
      case Fail(_) => LocalStep(s, step, s');
      case Crash(_) => LocalStep(s, step, s');
      case Act(p, uuid) => ActStep(s, p, uuid, s');
      case _ =>
        EnvironmentMintsNothing(s.sh, step);
        EnvironmentStep(s, step, s');
    }
  }

  lemma {:induction false} RunKeeps(trace: seq<State>, steps: seq<Step>, i: nat)
    requires Run(trace, steps) && Inv(trace[0]) && i < |trace|
    ensures Inv(trace[i])
  {
    hide Inv, Next;
    if i == 0 {
    } else {
      RunKeeps(trace, steps, i - 1);
      assert Next(trace[i - 1], steps[i - 1], trace[i - 1 + 1]);
      StepKeeps(trace[i - 1], steps[i - 1], trace[i]);
    }
  }

  /** Every state of every run from a fresh deployment satisfies the invariant. */
  lemma Reachable(trace: seq<State>, steps: seq<Step>, i: nat)
    requires Run(trace, steps) && Init(trace[0]) && i < |trace|
    ensures Inv(trace[i])
  {
    hide Inv, Next;
    InitHolds(trace[0]);
    RunKeeps(trace, steps, i);
  }
}
