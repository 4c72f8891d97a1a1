/** Every anchor write of every run of the fencing protocol passes the admission policy. */
module TrustAdmission {
  import opened Prelude
  import opened AnchorRecord
  import opened TrustState
  import opened TrustInvariant
  import opened TrustRuns
  import Env = TrustEnvironment
  import Processes = TrustProcesses
  import opened AnchorCodec
  import Admission
  import AnchorUpdates

  /** The ConfigMap text of the anchor. */
  function Wire(j: Json, sh: Shared): Data {
    if sh.legacy then Flat(AnchorData(j, sh.record)) else AnchorData(j, sh.record)
  }

  lemma LandingIsStep(sh: Shared, c: nat)
    requires Core(sh) && CanApplyCas(sh, c)
    ensures AnchorUpdates.ApplicationStep(sh.record, sh.cas[c].next)
  {
    hide HistoryOk, FencesOk, RequestsOk, AppliedOk, DbsOk, AnswersOk, ValidUuid;
    Env.LandingOk(sh, c);
  }

  lemma ApplyAdmitted(j: Json, p: Admission.Policy, sh: Shared, c: nat)
    requires Lawful(j) && Core(sh) && CanApplyCas(sh, c) && !sh.legacy
    ensures Admission.AdmitUpdate(p, Wire(j, sh), Wire(j, ApplyCas(sh, c)), false)
  {
    hide HistoryOk, IdsOk, FencesOk, RequestsOk, AppliedOk, DbsOk, AnswersOk, CassesOk, AnchorData, ParseAnchorData,
         AnchorUpdates.ApplicationStep, Admission.AdmitUpdate, Lawful;
    LandingIsStep(sh, c);
    ParseInvertsPrint(j, sh.record);
    AnchorDataShape(j, sh.record);
    AnchorUpdates.ApplicationStepAdmitted(j, p, Wire(j, sh), sh.record, sh.cas[c].next, false);
  }

  lemma ShapeAdmitted(j: Json, p: Admission.Policy, sh: Shared, c: nat, goesOn: bool)
    requires Lawful(j) && Core(sh) && CanApplyCas(sh, c) && sh.legacy
    ensures Admission.AdmitUpdate(p, Wire(j, sh), Wire(j, MigrateShape(sh, c, goesOn)), false)
  {
    hide HistoryOk, IdsOk, FencesOk, RequestsOk, AppliedOk, DbsOk, AnswersOk, CassesOk, AnchorData, ParseAnchorData,
         Flat,
         Admission.AdmitUpdate, Lawful;
    ParseInvertsFlatPrint(j, sh.record);
    AnchorDataShape(j, sh.record);
    AnchorUpdates.MigrationAdmitted(j, p, Wire(j, sh), sh.record, false);
  }

  /** An update that the recovery service sends, under its own account. */
  predicate RecoveryStep(step: Step) {
    step.AnchorRecoveryReserve? || step.AnchorRecoveryCommit?
  }

  lemma RecoveryAdmitted(j: Json, p: Admission.Policy, sh: Shared, step: Step)
    requires Lawful(j) && AnchorOk(sh) && RecoveryStep(step) && Environment(sh, step).Some?
    ensures Admission.AdmitUpdate(p, Wire(j, sh), Wire(j, Environment(sh, step).value), true) <==> p.hasRecoveryAccount
  {
    hide AnchorData, Flat, Admission.AdmitUpdate, Lawful, ValidUuid;
    AnchorUpdates.RecoveryStepAdmitted(j, p, sh.record, Environment(sh, step).value.record, true);
  }

  lemma EnvironmentAdmitted(j: Json, p: Admission.Policy, sh: Shared, step: Step)
    requires Lawful(j) && Core(sh) && Environment(sh, step).Some?
    ensures var sh' := Environment(sh, step).value;
            if sh'.rv == sh.rv then Wire(j, sh') == Wire(j, sh)
            else Admission.AdmitUpdate(p, Wire(j, sh), Wire(j, sh'), RecoveryStep(step))
                 <==> p.hasRecoveryAccount || !RecoveryStep(step)
  {
    hide AnchorOk, HistoryOk, IdsOk, FencesOk, RequestsOk, AppliedOk, DbsOk, AnswersOk, CassesOk, AnchorData, Flat,
         Admission.AdmitUpdate, Lawful;
    match step
    case AnchorApply(c) => ApplyAdmitted(j, p, sh, c);
    case AnchorMigrate(c, goesOn) => ShapeAdmitted(j, p, sh, c, goesOn);
    case AnchorRecoveryReserve(_) => RecoveryAdmitted(j, p, sh, step);
    case AnchorRecoveryCommit(_, _) => RecoveryAdmitted(j, p, sh, step);
    case _ =>
  }

  lemma SendsLeaveAnchor(sh: Shared, sh': Shared, q: Process)
    requires Processes.Sends(sh, sh', q)
    ensures sh'.rv == sh.rv && sh'.record == sh.record && sh'.legacy == sh.legacy
  {
  }

  /**
   A step that writes the anchor is admitted from the text it found, a recovery step exactly under a
   policy with a recovery account; every other step leaves the text alone.
   */
  lemma StepAdmitted(j: Json, p: Admission.Policy, s: State, step: Step, s': State)
    requires Lawful(j) && Inv(s) && Next(s, step, s')
    ensures if s'.sh.rv == s.sh.rv then Wire(j, s'.sh) == Wire(j, s.sh)
            else Admission.AdmitUpdate(p, Wire(j, s.sh), Wire(j, s'.sh), RecoveryStep(step))
                 <==> p.hasRecoveryAccount || !RecoveryStep(step)
  {
    hide Core, ProcOk, MintsOk, Move, Environment, Wire, Processes.Sends, Evolves, Admission.AdmitUpdate, Lawful;
    match step {
      case Act(q, uuid) =>
        Processes.MoveKeeps(s.sh, BoundTo(s, q), q, s.procs[q], uuid);
        SendsLeaveAnchor(s.sh, s'.sh, q);
        WireOf(j, s.sh, s'.sh);
      case Open(_) =>
      case StartWrite(_) =>
      case StartRead(_) =>
      case Misread(_) =>
      case Fail(_) =>
      case Crash(_) =>
      case _ => EnvironmentAdmitted(j, p, s.sh, step);
    }
  }

  lemma WireOf(j: Json, sh: Shared, sh': Shared)
    requires sh'.record == sh.record && sh'.legacy == sh.legacy
    ensures Wire(j, sh') == Wire(j, sh)
  {
  }

  /** Admission refinement over whole runs under any policy, restores, crashes, late and lost messages included. */
  lemma RunsAreAdmitted(j: Json, p: Admission.Policy, trace: seq<State>, steps: seq<Step>, i: nat)
    requires Lawful(j) && Run(trace, steps) && Init(trace[0]) && i < |steps|
    ensures if trace[i + 1].sh.rv == trace[i].sh.rv then Wire(j, trace[i + 1].sh) == Wire(j, trace[i].sh)
            else Admission.AdmitUpdate(p, Wire(j, trace[i].sh), Wire(j, trace[i + 1].sh), RecoveryStep(steps[i]))
                 <==> p.hasRecoveryAccount || !RecoveryStep(steps[i])
  {
    hide Inv, Init, Next, Wire, Admission.AdmitUpdate, Lawful;
    Reachable(trace, steps, i);
    assert Next(trace[i], steps[i], trace[i + 1]);
    StepAdmitted(j, p, trace[i], steps[i], trace[i + 1]);
  }
}
