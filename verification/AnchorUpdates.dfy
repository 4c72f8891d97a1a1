/**
 The updates the Go code issues satisfy the admission policy: the fenced write's and settlement's
 compare-and-swaps, the format migration and the recovery service's two steps.
 */
module AnchorUpdates {
  import opened Prelude
  import opened AnchorRecord
  import opened Decimal
  import opened AnchorCodec
  import opened Admission

  /** One of the compare-and-swaps of `execute`, of settlement and of recovery of a pending write. */
  predicate ApplicationStep(r: Record, next: Record) {
    && r.transition.None?
    && ((r.pendingEpoch.None? && next == Reserved(r, next.pendingId) && r.epoch < MAX_INT64
       && ValidUuid(next.pendingId))
        || (r.pendingEpoch.Some? && (next == Finalized(r) || next == Cleared(r))))
  }

  /** The stored text spells the record, up to the spelling of its evidence. */
  ghost predicate Spells(j: Json, data: Data, r: Record) {
    |data| == 12 && FlatText(data, r) && GuardText(j, data, r) && FLAT_KEYS + GUARD_KEYS <= data.Keys
  }

  lemma AcceptedSpells(j: Json, data: Data, r: Record)
    requires ParseAnchorData(j, data) == Ok(r) && |data| == 12
    ensures Spells(j, data, r) && ValidStructure(r) && InRange(r)
  {
    hide FlatText, ParseFlat, ParseGuards, GuardText, Shape, ValidStructure;
    ShapeExact(data);
    var flat := ParseFlat(data).value;
    FlatTextKept(data, flat);
    GuardTextKept(j, data, flat, r);
    FlatTextOfHalf(data, flat, r);
  }

  lemma PrintedSpells(j: Json, r: Record)
    ensures Spells(j, AnchorData(j, r), r)
  {
    hide AnchorData, FlatText, GuardText, Shape, Flat;
    AnchorDataShape(j, r);
    PrintedText(j, r);
  }

  // ---------- every record the code writes meets the contract ----------

  lemma PrintedUint(n: nat)
    requires n <= MAX_UINT64
    ensures CanonicalUint(FormatNat(n)) && DigitsValue(FormatNat(n)) == n
    ensures n <= MAX_INT64 ==> CelInt(FormatInt(n)) == Some(n)
  {
    FormatNatReads(n);
    ParseEpochExact(FormatInt(n), n);
  }

  lemma EvidenceNotEmpty(j: Json, r: Record)
    requires Lawful(j)
    ensures Get(AnchorData(j, r), RecoveryEvidence) != ""
  {
    assert j.printEvidence(EvidenceOf(r)) != [];
    Base64.EncodesLetters(j.printEvidence(EvidenceOf(r)));
  }

  lemma PrintedApplication(d: Data, r: Record)
    requires FlatText(d, r) && ValidStructure(r) && InRange(r)
    ensures Application(d)
  {
    hide CanonicalUint, CelInt, ValidUuid;
    PrintedUint(r.epoch);
    if r.pendingEpoch.Some? {
      PrintedUint(r.pendingEpoch.value);
      FormatIntNotEmpty(r.pendingEpoch.value);
      assert r.pendingId != "" by {
        UuidNotEmpty(r.pendingId);
      }
    }
  }

  lemma UuidNotEmpty(id: string)
    requires ValidUuid(id)
    ensures id != ""
  {
  }

  lemma PrintedGuards(j: Json, r: Record)
    requires Lawful(j) && InRange(r)
    ensures Guards(AnchorData(j, r))
  {
    hide AnchorData, FlatText, CanonicalUint;
    PrintedText(j, r);
    PrintedUint(r.generation);
    EvidenceNotEmpty(j, r);
    if r.transition.Some? {
      assert LooksLikeObject(j.printTransition(r.transition.value));
    }
    if r.receipt.Some? {
      assert LooksLikeObject(j.printReceipt(r.receipt.value));
    }
  }

  /** The text of a structurally valid record meets the contract. */
  lemma PrintedContract(j: Json, p: Policy, r: Record)
    requires Lawful(j) && ValidStructure(r) && InRange(r)
    ensures Composite(AnchorData(j, r)) && Contract(p, AnchorData(j, r))
  {
    hide AnchorData, FlatText, GuardText, Application, Guards, Shape, Flat, ValidStructure;
    AnchorDataShape(j, r);
    PrintedText(j, r);
    PrintedApplication(AnchorData(j, r), r);
    PrintedGuards(j, r);
  }

  // ---------- the transitions ----------

  lemma ReserveText(o: Data, n: Data, r: Record, id: string)
    requires FlatText(o, r) && FlatText(n, Reserved(r, id)) && ValidStructure(r)
    requires r.pendingEpoch.None? && r.epoch < MAX_INT64 && ValidUuid(id)
    ensures SameBinding(o, n) && Reserves(o, n)
  {
    hide CelInt, ValidUuid;
    PrintedUint(r.epoch);
  }

  lemma SettleText(o: Data, n: Data, r: Record, next: Record)
    requires FlatText(o, r) && FlatText(n, next) && r.pendingEpoch.Some?
    requires next == Finalized(r) || next == Cleared(r)
    ensures SameBinding(o, n) && (Finalizes(o, n) || Aborts(o, n))
  {
    FormatIntNotEmpty(r.pendingEpoch.value);
  }

  lemma StepIsTransition(o: Data, n: Data, r: Record, next: Record)
    requires FlatText(o, r) && FlatText(n, next) && ValidStructure(r) && ApplicationStep(r, next)
    ensures ApplicationTransition(o, n)
  {
    hide FlatText, ValidStructure, Reserves, Finalizes, Aborts, SameBinding;
    if r.pendingEpoch.None? {
      ReserveText(o, n, r, next.pendingId);
    } else {
      SettleText(o, n, r, next);
    }
  }

  lemma StepKeepsRecord(r: Record, next: Record)
    requires ValidStructure(r) && InRange(r) && ApplicationStep(r, next)
    ensures ValidStructure(next) && InRange(next)
    ensures next.generation == r.generation && next.transition.None? && next.receipt == r.receipt
    ensures forall binding :: Valid(binding, r) ==> Valid(binding, next)
  {
  }

  lemma GuardsKept(j: Json, o: Data, n: Data, r: Record, next: Record)
    requires GuardText(j, o, r) && GuardText(j, n, next)
    requires r.transition.None? && next.transition.None? && next.generation == r.generation && next.receipt == r.receipt
    ensures Get(o, RecoveryTransition) == RECOVERY_NULL
    ensures Same(o, n, RecoveryGeneration) && Same(o, n, RecoveryTransition) && Same(o, n, RecoveryReceipt)
  {
  }

  /** Reserve, finalize and abort are admitted from any stored spelling of the record they are based on. */
  lemma ApplicationStepAdmitted(j: Json, p: Policy, data: Data, r: Record, next: Record, recovery: bool)
    requires Lawful(j) && ParseAnchorData(j, data) == Ok(r) && |data| == 12 && ApplicationStep(r, next)
    ensures AdmitUpdate(p, data, AnchorData(j, next), recovery)
  {
    hide AnchorData, FlatText, GuardText, ParseAnchorData, ValidStructure, InRange, Contract, Composite,
         ApplicationStep, ApplicationTransition;
    AcceptedSpells(j, data, r);
    StepKeepsRecord(r, next);
    PrintedContract(j, p, next);
    PrintedSpells(j, next);
    StepIsTransition(data, AnchorData(j, next), r, next);
    StepHasNoTransition(r, next);
    GuardsKept(j, data, AnchorData(j, next), r, next);
  }

  lemma StepHasNoTransition(r: Record, next: Record)
    requires ApplicationStep(r, next)
    ensures r.transition.None?
  {
  }

  /** The format migration of an accepted eight-key record is admitted. */
  lemma MigrationAdmitted(j: Json, p: Policy, data: Data, r: Record, recovery: bool)
    requires Lawful(j) && ParseAnchorData(j, data) == Ok(r) && |data| == 8 && ValidStructure(r)
    ensures AdmitUpdate(p, data, AnchorData(j, r), recovery)
  {
    hide AnchorData, FlatText, Contract, Composite, ParseFlat, Shape, ValidStructure, Flat;
    FlatTextKept(data, r);
    PrintedContract(j, p, r);
    PrintedText(j, r);
    AnchorDataShape(j, r);
    ShapeExact(data);
    MigrationKeepsFlatValues(j, data, r);
    MigratesText(data, AnchorData(j, r), r);
  }

  lemma MigratesText(o: Data, n: Data, r: Record)
    requires FlatText(o, r) && FlatText(n, r)
    requires Get(n, RecoveryGeneration) == "0" && Get(n, RecoveryTransition) == "null"
        && Get(n, RecoveryReceipt) == "null"
    ensures Migrates(o, n)
  {
  }

  lemma StepMovesPending(o: Data, n: Data, r: Record, next: Record)
    requires FlatText(o, r) && FlatText(n, next) && ApplicationStep(r, next)
    ensures !Same(o, n, PendingEpoch)
  {
    if r.pendingEpoch.None? {
      FormatIntNotEmpty(r.epoch + 1);
    } else {
      FormatIntNotEmpty(r.pendingEpoch.value);
    }
  }

  /** Writing the caller's record over eight keys in one request would be denied. */
  lemma DirectWriteDenied(j: Json, p: Policy, data: Data, r: Record, next: Record, recovery: bool)
    requires ParseAnchorData(j, data) == Ok(r) && |data| == 8 && ApplicationStep(r, next)
    ensures !AdmitUpdate(p, data, AnchorData(j, next), recovery)
  {
    hide AnchorData, Contract, ParseFlat, Flat, GuardText, FlatText, ApplicationStep, FLAT_KEYS, GUARD_KEYS, Same;
    FlatTextKept(data, r);
    PrintedText(j, next);
    AnchorDataShape(j, next);
    StepMovesPending(data, AnchorData(j, next), r, next);
  }

  /** The recovery service freezes a transition: nothing else moves. */
  predicate Freezes(r: Record, next: Record) {
    && r.pendingEpoch.None? && !r.bootstrap
    && r.transition.None? && next.transition.Some? && next == r.(transition := next.transition)
  }

  /** It commits the transition: binding, generation and receipt move together. */
  predicate Commits(r: Record, next: Record) {
    && r.transition.Some? && next.receipt.Some? && next.generation == r.generation + 1
    && next == r.(clusterId := next.clusterId, storageId := next.storageId, generation := next.generation,
                  transition := None, receipt := next.receipt)
  }

  lemma ObjectIsNotNull(s: string)
    requires LooksLikeObject(s)
    ensures s != RECOVERY_NULL
  {
  }

  lemma TransitionText(j: Json, t: Option<AnchorRecord.Transition>)
    requires Lawful(j)
    ensures PrintTransition(j, t) == RECOVERY_NULL <==> t.None?
  {
    if t.Some? {
      ObjectIsNotNull(j.printTransition(t.value));
    }
  }

  lemma FreezeText(j: Json, o: Data, n: Data, r: Record, next: Record)
    requires Lawful(j) && FlatText(o, r) && FlatText(n, next) && GuardText(j, o, r) && GuardText(j, n, next)
    requires Freezes(r, next) && Same(o, n, RecoveryEvidence)
    ensures RecoveryReserves(o, n) && !CompositeApplication(o, n) && !RecoveryCommits(o, n)
  {
    TransitionText(j, r.transition);
    TransitionText(j, next.transition);
  }

  lemma CommitText(j: Json, o: Data, n: Data, r: Record, next: Record)
    requires Lawful(j) && FlatText(o, r) && FlatText(n, next) && GuardText(j, o, r) && GuardText(j, n, next)
    requires Commits(r, next) && Same(o, n, RecoveryEvidence) && InRange(next)
    ensures RecoveryCommits(o, n) && !CompositeApplication(o, n) && !RecoveryReserves(o, n)
  {
    TransitionText(j, r.transition);
    ObjectIsNotNull(j.printReceipt(next.receipt.value));
    FormatNatReads(r.generation);
    FormatNatReads(next.generation);
  }

  lemma SameEvidence(j: Json, r: Record, next: Record)
    requires EvidenceOf(r) == EvidenceOf(next)
    ensures Same(AnchorData(j, r), AnchorData(j, next), RecoveryEvidence)
  {
  }

  /** Freezing and committing a recovery are admitted to the recovery account and to nobody else. */
  lemma RecoveryStepAdmitted(j: Json, p: Policy, r: Record, next: Record, recovery: bool)
    requires Lawful(j) && ValidStructure(next) && InRange(next) && (Freezes(r, next) || Commits(r, next))
    ensures AdmitUpdate(p, AnchorData(j, r), AnchorData(j, next), recovery) <==> p.hasRecoveryAccount && recovery
  {
    hide AnchorData, Contract, Composite, Shape, Flat, ValidStructure, FlatText, GuardText, CompositeApplication,
         RecoveryReserves,
         RecoveryCommits, FLAT_KEYS, GUARD_KEYS, Lawful, InRange, Same;
    PrintedContract(j, p, next);
    PrintedText(j, r);
    PrintedText(j, next);
    AnchorDataShape(j, r);
    AnchorDataShape(j, next);
    SameEvidence(j, r, next);
    var o, n := AnchorData(j, r), AnchorData(j, next);
    assert o != n by {
      TransitionsDiffer(j, o, n, r, next);
    }
    if Freezes(r, next) {
      FreezeText(j, o, n, r, next);
    } else {
      CommitText(j, o, n, r, next);
    }
  }

  lemma TransitionsDiffer(j: Json, o: Data, n: Data, r: Record, next: Record)
    requires Lawful(j) && GuardText(j, o, r) && GuardText(j, n, next) && (Freezes(r, next) || Commits(r, next))
    ensures o != n
  {
    TransitionText(j, r.transition);
    TransitionText(j, next.transition);
  }

  // ---------- and no others ----------

  lemma SameEpochText(a: int, b: int)
    requires -MAX_INT64 - 1 <= a <= MAX_INT64 && FormatInt(a) == FormatInt(b)
    ensures a == b
  {
    ParseEpochExact(FormatInt(a), a);
    ParseEpochExact(FormatInt(b), b);
    FormatNatReads(if b < 0 then -b else b);
  }

  lemma SamePendingText(a: Option<int>, b: Option<int>)
    requires a.Some? ==> -MAX_INT64 - 1 <= a.value <= MAX_INT64
    requires FormatPending(a) == FormatPending(b)
    ensures a == b
  {
    if a.Some? {
      FormatIntNotEmpty(a.value);
    }
    if b.Some? {
      FormatIntNotEmpty(b.value);
    }
    if a.Some? && b.Some? {
      SameEpochText(a.value, b.value);
    }
  }

  /** Two texts agree on a key exactly if their records agree on the field. */
  lemma FlatTextsAgree(o: Data, n: Data, r: Record, next: Record)
    requires FlatText(o, r) && FlatText(n, next) && InRange(r) && InRange(next)
    ensures SameBinding(o, n) <==> r.clusterId == next.clusterId && r.storageId == next.storageId
    ensures Same(o, n, Format) <==> r.format == next.format
    ensures Same(o, n, Epoch) <==> r.epoch == next.epoch
    ensures Same(o, n, Token) <==> r.token == next.token
    ensures Same(o, n, PendingEpoch) <==> r.pendingEpoch == next.pendingEpoch
    ensures Same(o, n, PendingId) <==> r.pendingId == next.pendingId
    ensures Same(o, n, Bootstrap) <==> r.bootstrap == next.bootstrap
    ensures Get(o, PendingEpoch) == "" <==> r.pendingEpoch.None?
    ensures Get(o, Bootstrap) == "false" <==> !r.bootstrap
    ensures Get(n, Epoch) == Get(o, PendingEpoch) ==> r.pendingEpoch == Some(next.epoch)
  {
    if Same(o, n, Epoch) {
      SameEpochText(r.epoch, next.epoch);
    }
    if Same(o, n, PendingEpoch) {
      SamePendingText(r.pendingEpoch, next.pendingEpoch);
    }
    if r.pendingEpoch.Some? {
      FormatIntNotEmpty(r.pendingEpoch.value);
    }
    if Get(n, Epoch) == Get(o, PendingEpoch) {
      FormatIntNotEmpty(next.epoch);
      SameEpochText(next.epoch, r.pendingEpoch.value);
    }
    assert "true"[0] != "false"[0];
  }

  lemma GuardTextsAgree(j: Json, o: Data, n: Data, r: Record, next: Record)
    requires Lawful(j) && GuardText(j, o, r) && GuardText(j, n, next)
    ensures Same(o, n, RecoveryGeneration) <==> r.generation == next.generation
    ensures Same(o, n, RecoveryTransition) <==> r.transition == next.transition
    ensures Same(o, n, RecoveryReceipt) <==> r.receipt == next.receipt
    ensures Get(o, RecoveryTransition) == RECOVERY_NULL <==> r.transition.None?
    ensures Get(o, RecoveryReceipt) == RECOVERY_NULL <==> r.receipt.None?
  {
    TransitionText(j, r.transition);
    TransitionText(j, next.transition);
    ReceiptText(j, r.receipt);
    ReceiptText(j, next.receipt);
    FormatNatReads(r.generation);
    FormatNatReads(next.generation);
    if r.transition.Some? && next.transition.Some? {
      assert j.readTransition(j.printTransition(r.transition.value)) == r.transition;
      assert j.readTransition(j.printTransition(next.transition.value)) == next.transition;
    }
    if r.receipt.Some? && next.receipt.Some? {
      assert j.readReceipt(j.printReceipt(r.receipt.value)) == r.receipt;
      assert j.readReceipt(j.printReceipt(next.receipt.value)) == next.receipt;
    }
  }

  lemma ReceiptText(j: Json, t: Option<Receipt>)
    requires Lawful(j)
    ensures PrintReceipt(j, t) == RECOVERY_NULL <==> t.None?
  {
    if t.Some? {
      ObjectIsNotNull(j.printReceipt(t.value));
    }
  }

  /** Epoch text as the policy's CEL reads and prints it. */
  lemma ReservedText(o: Data, n: Data, r: Record, next: Record)
    requires FlatText(o, r) && FlatText(n, next) && ValidStructure(r) && InRange(r) && InRange(next)
    requires Reserves(o, n)
    ensures r.epoch < MAX_INT64 && next.pendingEpoch == Some(r.epoch + 1) && ValidUuid(next.pendingId)
  {
    hide ValidUuid;
    PrintedUint(r.epoch);
    FormatIntNotEmpty(r.epoch + 1);
    SamePendingText(Some(r.epoch + 1), next.pendingEpoch);
  }

  lemma TransitionIsStep(o: Data, n: Data, r: Record, next: Record)
    requires FlatText(o, r) && FlatText(n, next)
    requires ValidStructure(r) && ValidStructure(next) && InRange(r) && InRange(next)
    requires r.transition == next.transition == None && r.generation == next.generation && r.receipt == next.receipt
    requires ApplicationTransition(o, n)
    ensures ApplicationStep(r, next)
  {
    FlatTextsAgree(o, n, r, next);
    FlatTextsAgree(n, o, next, r);
    if Reserves(o, n) {
      ReservedText(o, n, r, next);
    }
    hide FlatText, Same, SameBinding, ValidUuid, CelInt;
  }

  lemma CompositeIsStep(j: Json, o: Data, n: Data, r: Record, next: Record)
    requires Lawful(j) && FlatText(o, r) && FlatText(n, next) && GuardText(j, o, r) && GuardText(j, n, next)
    requires ValidStructure(r) && ValidStructure(next) && InRange(r) && InRange(next)
    requires CompositeApplication(o, n)
    ensures ApplicationStep(r, next)
  {
    hide FlatText, GuardText, ValidStructure, InRange, Lawful, ApplicationTransition, Same;
    GuardTextsAgree(j, o, n, r, next);
    TransitionIsStep(o, n, r, next);
  }

  lemma RecoveryIsStep(j: Json, o: Data, n: Data, r: Record, next: Record)
    requires Lawful(j) && FlatText(o, r) && FlatText(n, next) && GuardText(j, o, r) && GuardText(j, n, next)
    requires InRange(r) && InRange(next)
    ensures RecoveryReserves(o, n) ==> Freezes(r, next)
    ensures RecoveryCommits(o, n) ==> Commits(r, next)
  {
    FlatTextsAgree(o, n, r, next);
    GuardTextsAgree(j, o, n, r, next);
    GuardTextsAgree(j, n, o, next, r);
    ParseGenerationExact(FormatNat(r.generation), r.generation);
    ParseGenerationExact(FormatNat(next.generation), next.generation);
    assert Get(o, RecoveryGeneration) == FormatNat(r.generation);
    assert Get(n, RecoveryGeneration) == FormatNat(next.generation);
    FormatNatReads(r.generation);
    FormatNatReads(next.generation);
    hide Lawful, FlatText, GuardText, Same, SameBinding, FormatNat;
  }

  /**
   The policy admits a printed record exactly as a migration, as one of the application's three steps, or, from the
   recovery account and with the evidence untouched, as one of recovery's two.
   */
  lemma AdmittedExactly(j: Json, p: Policy, o: Data, r: Record, next: Record, recovery: bool)
    requires Lawful(j) && ParseAnchorData(j, o) == Ok(r) && ValidStructure(r)
    requires ValidStructure(next) && InRange(next)
    ensures var n := AnchorData(j, next);
            AdmitUpdate(p, o, n, recovery) <==>
              if |o| == 8 then next == r
              else
                || o == n
                || ApplicationStep(r, next)
                || (p.hasRecoveryAccount && recovery && Get(o, RecoveryEvidence) == Get(n, RecoveryEvidence)
                    && (Freezes(r, next) || Commits(r, next)))
  {
    hide *;
    if |o| == 8 {
      LegacyExactly(j, p, o, r, next, recovery);
    } else {
      ParsedShape(j, o);
      CompositeExactly(j, p, o, r, next, recovery);
    }
  }

  lemma ParsedShape(j: Json, o: Data)
    requires ParseAnchorData(j, o).Ok?
    ensures |o| == 8 || |o| == 12
  {
  }

  lemma LegacyExactly(j: Json, p: Policy, o: Data, r: Record, next: Record, recovery: bool)
    requires Lawful(j) && ParseAnchorData(j, o) == Ok(r) && ValidStructure(r) && |o| == 8
    requires ValidStructure(next) && InRange(next)
    ensures AdmitUpdate(p, o, AnchorData(j, next), recovery) <==> next == r
  {
    hide AnchorData, Contract, ParseFlat, Shape, ValidStructure, Flat, FlatText, GuardText, InRange;
    if next == r {
      MigrationAdmitted(j, p, o, r, recovery);
    } else {
      var n := AnchorData(j, next);
      FlatTextKept(o, r);
      PrintedText(j, next);
      AnchorDataShape(j, next);
      if Migrates(o, n) {
        MigratedIsSame(j, o, n, r, next);
      }
      hide Migrates, Lawful;
    }
  }

  lemma MigratedIsSame(j: Json, o: Data, n: Data, r: Record, next: Record)
    requires Lawful(j) && FlatText(o, r) && FlatText(n, next) && GuardText(j, n, next)
    requires InRange(r) && InRange(next) && r == Unmigrated(r) && Migrates(o, n)
    ensures r == next
  {
    FlatTextsAgree(o, n, r, next);
    GuardTextsAgree(j, n, n, next, next);
    DecimalOne();
    FormatNatReads(next.generation);
    hide Lawful, FlatText, Same, SameBinding;
  }

  lemma CompositeExactly(j: Json, p: Policy, o: Data, r: Record, next: Record, recovery: bool)
    requires Lawful(j) && ParseAnchorData(j, o) == Ok(r) && |o| == 12
    requires ValidStructure(next) && InRange(next)
    ensures var n := AnchorData(j, next);
            AdmitUpdate(p, o, n, recovery) <==>
              || o == n
              || ApplicationStep(r, next)
              || (p.hasRecoveryAccount && recovery && Get(o, RecoveryEvidence) == Get(n, RecoveryEvidence)
                  && (Freezes(r, next) || Commits(r, next)))
  {
    hide AnchorData, Contract, Composite, ParseAnchorData, ValidStructure, FlatText, GuardText, InRange, Lawful,
         FLAT_KEYS, GUARD_KEYS, ApplicationStep, Freezes, Commits, CompositeApplication, RecoveryReserves,
         RecoveryCommits;
    var n := AnchorData(j, next);
    AcceptedSpells(j, o, r);
    PrintedSpells(j, next);
    PrintedContract(j, p, next);
    if ApplicationStep(r, next) {
      ApplicationStepAdmitted(j, p, o, r, next, recovery);
    }
    if CompositeApplication(o, n) {
      CompositeIsStep(j, o, n, r, next);
    }
    RecoveryIsStep(j, o, n, r, next);
    RecoveryKeepsEvidence(o, n);
    if Same(o, n, RecoveryEvidence) && Freezes(r, next) {
      FreezeText(j, o, n, r, next);
    }
    if Same(o, n, RecoveryEvidence) && Commits(r, next) {
      CommitText(j, o, n, r, next);
    }
  }

  lemma RecoveryKeepsEvidence(o: Data, n: Data)
    ensures RecoveryReserves(o, n) || RecoveryCommits(o, n) ==> Same(o, n, RecoveryEvidence)
  {
  }

  /** A printed record may be created exactly as an empty deployment's; in eight keys, under its own binding only. */
  lemma CreatedExactly(j: Json, p: Policy, r: Record)
    requires Lawful(j) && ValidStructure(r) && InRange(r)
    ensures AdmitCreate(p, AnchorData(j, r)) <==> r.epoch == 0 && r.pendingEpoch.None? && r.bootstrap
    ensures AdmitCreate(p, Flat(AnchorData(j, r))) <==>
              && r.epoch == 0 && r.pendingEpoch.None? && r.bootstrap
              && r.clusterId == p.clusterId && r.storageId == p.storageId
  {
    hide AnchorData, Flat, Composite, FlatText, GuardText, ValidStructure, InRange, Lawful, Application, FLAT_KEYS,
         GUARD_KEYS;
    AnchorDataShape(j, r);
    PrintedText(j, r);
    PrintedContract(j, p, r);
    PrintedApplication(Flat(AnchorData(j, r)), r);
    CreatedText(AnchorData(j, r), r);
    CreatedText(Flat(AnchorData(j, r)), r);
    BindingText(Flat(AnchorData(j, r)), r);
    hide Created;
    NotComposite(Flat(AnchorData(j, r)));
  }

  /** Eight keys over eight keys: the application's steps under the rendered binding, and nothing else. */
  lemma LegacyUpdatesExactly(j: Json, p: Policy, o: Data, r: Record, next: Record, recovery: bool)
    requires ParseAnchorData(j, o) == Ok(r) && ValidStructure(r) && |o| == 8
    requires ValidStructure(next) && InRange(next) && next == Unmigrated(next)
    ensures var n := Flat(AnchorData(j, next));
            AdmitUpdate(p, o, n, recovery) <==>
              && next.clusterId == p.clusterId && next.storageId == p.storageId
              && (o == n || ApplicationStep(r, next))
  {
    hide AnchorData, Contract, Composite, ParseFlat, Shape, ValidStructure, Flat, FlatText, GuardText, InRange,
         ApplicationStep, ApplicationTransition, Application;
    var n := Flat(AnchorData(j, next));
    FlatTextKept(o, r);
    ShapeExact(o);
    AnchorDataShape(j, next);
    PrintedText(j, next);
    if ApplicationStep(r, next) {
      StepIsTransition(o, n, r, next);
    }
    if ApplicationTransition(o, n) {
      TransitionIsStep(o, n, r, next);
    }
    LegacyContract(p, n, next);
    hide *;
  }

  lemma LegacyContract(p: Policy, n: Data, r: Record)
    requires FlatText(n, r) && ValidStructure(r) && InRange(r) && n.Keys == FLAT_KEYS && |n| == 8
    ensures Contract(p, n) <==> r.clusterId == p.clusterId && r.storageId == p.storageId
  {
    hide Application, ValidStructure, InRange, FLAT_KEYS, GUARD_KEYS;
    PrintedApplication(n, r);
    BindingText(n, r);
    hide FlatText;
  }

  lemma NotComposite(d: Data)
    requires |d| == 8
    ensures !Composite(d)
  {
  }

  lemma BindingText(d: Data, r: Record)
    requires FlatText(d, r)
    ensures Get(d, ClusterId) == r.clusterId && Get(d, StorageId) == r.storageId
  {
  }

  lemma CreatedText(d: Data, r: Record)
    requires FlatText(d, r) && ValidStructure(r) && InRange(r)
    ensures Created(d) <==> r.epoch == 0 && r.pendingEpoch.None? && r.bootstrap
  {
    assert FormatInt(0) == "0";
    if FormatInt(r.epoch) == FormatInt(0) {
      SameEpochText(r.epoch, 0);
    }
    if r.pendingEpoch.Some? {
      FormatIntNotEmpty(r.pendingEpoch.value);
    }
  }
}
