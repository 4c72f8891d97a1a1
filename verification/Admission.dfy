/**
 The admission policy of the anchor ConfigMap: the contract and transition expressions that
 `anchor_policy` renders (deploy/security/render_trustguard.py), as predicates over the stored text.

 A predicate is true exactly when the rendered CEL expression evaluates to true; an evaluation
 error (a missing key, a number out of range) denies the request.
 */
module Admission {
  import opened Prelude
  import opened AnchorRecord
  import opened Decimal
  import opened AnchorCodec

  /** What one rendered policy pins: the greenfield binding, and whether a recovery account exists. */
  datatype Policy = Policy(clusterId: string, storageId: string, hasRecoveryAccount: bool)

  /** canonical_uint. */
  predicate CanonicalUint(v: string) {
    v != "" && AllDigits(v) && DigitsValue(v) <= MAX_UINT64 && FormatNat(DigitsValue(v)) == v
  }

  /** CEL's int(text). */
  function CelInt(v: string): Option<int> {
    ParseInt(v)
  }

  /** projection_ok. */
  predicate ProjectionOk(v: string) {
    v == RECOVERY_NULL || LooksLikeObject(v)
  }

  predicate Application(n: Data) {
    && Get(n, Format) == "1"
    && CanonicalUint(Get(n, Epoch))
    && ValidUuid(Get(n, Token))
    && (if Get(n, PendingEpoch) == "" then Get(n, PendingId) == ""
        else
          && CanonicalUint(Get(n, PendingEpoch))
          && ValidUuid(Get(n, PendingId))
          && CelInt(Get(n, PendingEpoch)).Some? && CelInt(Get(n, Epoch)).Some?
          && CelInt(Get(n, Epoch)).value < MAX_INT64
          && CelInt(Get(n, PendingEpoch)).value == CelInt(Get(n, Epoch)).value + 1)
    && (Get(n, Bootstrap) == "true" || Get(n, Bootstrap) == "false")
  }

  predicate Guards(n: Data) {
    && CanonicalUint(Get(n, RecoveryGeneration))
    && Get(n, RecoveryEvidence) != ""
    && ProjectionOk(Get(n, RecoveryTransition))
    && ProjectionOk(Get(n, RecoveryReceipt))
  }

  predicate Legacy(p: Policy, n: Data) {
    && |n| == 8 && FLAT_KEYS <= n.Keys
    && Get(n, ClusterId) == p.clusterId && Get(n, StorageId) == p.storageId
    && Application(n)
  }

  predicate Composite(n: Data) {
    |n| == 12 && FLAT_KEYS <= n.Keys && GUARD_KEYS <= n.Keys && Application(n) && Guards(n)
  }

  /** The first validation: what any stored anchor looks like. */
  predicate Contract(p: Policy, n: Data) {
    Legacy(p, n) || Composite(n)
  }

  predicate Created(n: Data) {
    Get(n, Epoch) == "0" && Get(n, PendingEpoch) == "" && Get(n, PendingId) == "" && Get(n, Bootstrap) == "true"
  }

  /** `kept` for one key. */
  predicate Same(o: Data, n: Data, k: Key) {
    Get(o, k) == Get(n, k)
  }

  predicate SameBinding(o: Data, n: Data) {
    Same(o, n, ClusterId) && Same(o, n, StorageId)
  }

  predicate SameApplication(o: Data, n: Data) {
    && Same(o, n, Format) && Same(o, n, Epoch) && Same(o, n, Token) && Same(o, n, PendingEpoch)
    && Same(o, n, PendingId) && Same(o, n, Bootstrap)
  }

  predicate Reserves(o: Data, n: Data) {
    && Same(o, n, Format) && Get(o, PendingEpoch) == "" && Same(o, n, Epoch) && Same(o, n, Token)
    && CelInt(Get(o, Epoch)).Some? && CelInt(Get(o, Epoch)).value < MAX_INT64
    && Get(n, PendingEpoch) == FormatInt(CelInt(Get(o, Epoch)).value + 1)
    && ValidUuid(Get(n, PendingId)) && Same(o, n, Bootstrap)
  }

  predicate Finalizes(o: Data, n: Data) {
    && Get(o, PendingEpoch) != "" && Get(n, Epoch) == Get(o, PendingEpoch) && Get(n, Token) == Get(o, PendingId)
    && Get(n, PendingEpoch) == "" && Get(n, PendingId) == "" && Get(n, Bootstrap) == "false"
  }

  predicate Aborts(o: Data, n: Data) {
    && Get(o, PendingEpoch) != "" && Same(o, n, Epoch) && Same(o, n, Token)
    && Get(n, PendingEpoch) == "" && Get(n, PendingId) == "" && Same(o, n, Bootstrap)
  }

  predicate ApplicationTransition(o: Data, n: Data) {
    SameBinding(o, n) && (Reserves(o, n) || Finalizes(o, n) || Aborts(o, n))
  }

  predicate Migrates(o: Data, n: Data) {
    && SameBinding(o, n) && SameApplication(o, n)
    && Get(n, RecoveryGeneration) == "0" && Get(n, RecoveryTransition) == RECOVERY_NULL
       && Get(n, RecoveryReceipt) == RECOVERY_NULL
  }

  predicate CompositeApplication(o: Data, n: Data) {
    && Get(o, RecoveryTransition) == RECOVERY_NULL
    && Same(o, n, RecoveryGeneration) && Same(o, n, RecoveryTransition) && Same(o, n, RecoveryReceipt)
    && ApplicationTransition(o, n)
  }

  predicate RecoveryReserves(o: Data, n: Data) {
    && Get(o, PendingEpoch) == "" && Get(o, Bootstrap) == "false" && Get(o, RecoveryTransition) == RECOVERY_NULL
    && Get(n, RecoveryTransition) != RECOVERY_NULL && SameBinding(o, n) && SameApplication(o, n)
    && Same(o, n, RecoveryGeneration) && Same(o, n, RecoveryEvidence) && Same(o, n, RecoveryReceipt)
  }

  predicate RecoveryCommits(o: Data, n: Data) {
    && Get(o, RecoveryTransition) != RECOVERY_NULL && Get(n, RecoveryTransition) == RECOVERY_NULL
    && Get(n, RecoveryReceipt) != RECOVERY_NULL && SameApplication(o, n) && Same(o, n, RecoveryEvidence)
    && ParseUint(Get(o, RecoveryGeneration)).Some? && ParseUint(Get(n, RecoveryGeneration)).Some?
    && ParseUint(Get(o, RecoveryGeneration)).value < MAX_UINT64
    && ParseUint(Get(n, RecoveryGeneration)).value == ParseUint(Get(o, RecoveryGeneration)).value + 1
  }

  /** The transition validation; `recovery` says that the request comes from the recovery account. */
  predicate Transition(p: Policy, o: Data, n: Data, recovery: bool) {
    || o == n
    || (|o| == 8 && |n| == 8 && FLAT_KEYS <= o.Keys && ApplicationTransition(o, n))
    || (|o| == 8 && |n| == 12 && FLAT_KEYS <= o.Keys && Migrates(o, n))
    || (|o| == 12 && |n| == 12 && FLAT_KEYS <= o.Keys && GUARD_KEYS <= o.Keys &&
        (|| CompositeApplication(o, n)
         || (p.hasRecoveryAccount && recovery && RecoveryReserves(o, n))
         || (p.hasRecoveryAccount && recovery && RecoveryCommits(o, n))))
  }

  predicate AdmitCreate(p: Policy, n: Data) {
    Contract(p, n) && Created(n)
  }

  predicate AdmitUpdate(p: Policy, o: Data, n: Data, recovery: bool) {
    Contract(p, n) && Transition(p, o, n, recovery)
  }

  // ---------- admitted runs are monotone ----------

  function EpochOf(d: Data): nat {
    if AllDigits(Get(d, Epoch)) then DigitsValue(Get(d, Epoch)) else 0
  }

  /** A record without recovery keys has the generation its migration will write. */
  function GenerationOf(d: Data): nat {
    if |d| == 12 && AllDigits(Get(d, RecoveryGeneration)) then DigitsValue(Get(d, RecoveryGeneration)) else 0
  }

  function BindingOf(d: Data): Binding {
    Binding(Get(d, ClusterId), Get(d, StorageId))
  }

  predicate HasReservation(d: Data) {
    Get(d, PendingEpoch) != ""
  }

  predicate InTransition(d: Data) {
    |d| == 12 && Get(d, RecoveryTransition) != RECOVERY_NULL
  }

  /** How a later stored anchor relates to an earlier one. */
  predicate Follows(o: Data, n: Data) {
    && EpochOf(o) <= EpochOf(n)
    && (EpochOf(o) == EpochOf(n) ==> Get(o, Token) == Get(n, Token))
    && GenerationOf(o) <= GenerationOf(n)
    && (GenerationOf(o) == GenerationOf(n) ==> BindingOf(o) == BindingOf(n))
    && (Get(n, Bootstrap) == "true" ==> Get(o, Bootstrap) == "true" && EpochOf(o) == EpochOf(n))
    && |o| <= |n|
  }

  lemma DecimalOne()
    ensures DigitsValue("0") == 0 && AllDigits("0")
  {
    assert "0"[..0] == "";
  }

  lemma DigitsAsInt(v: string)
    requires CanonicalUint(v) && CelInt(v).Some?
    ensures CelInt(v).value == DigitsValue(v)
  {
    assert IsDigit(v[0]);
  }

  lemma ApplicationFollows(p: Policy, o: Data, n: Data)
    requires Contract(p, o) && Contract(p, n) && ApplicationTransition(o, n)
    requires |o| == |n| && (|o| == 12 ==> Same(o, n, RecoveryGeneration))
    ensures Follows(o, n) && EpochOf(n) <= EpochOf(o) + 1 && GenerationOf(n) == GenerationOf(o)
  {
    assert Application(o) && Application(n);
    if Finalizes(o, n) {
      DigitsAsInt(Get(o, PendingEpoch));
      DigitsAsInt(Get(o, Epoch));
    }
  }

  /** One admitted update: every monotone quantity, and by how much it may move. */
  lemma AdmittedStep(p: Policy, o: Data, n: Data, recovery: bool)
    requires Contract(p, o) && AdmitUpdate(p, o, n, recovery)
    ensures Follows(o, n)
    ensures EpochOf(n) <= EpochOf(o) + 1
    ensures BindingOf(o) != BindingOf(n) ==> GenerationOf(n) == GenerationOf(o) + 1 && EpochOf(n) == EpochOf(o)
    ensures !(HasReservation(o) && InTransition(o)) ==> !(HasReservation(n) && InTransition(n))
  {
    hide Application, Guards, Reserves, Finalizes, Aborts;
    DecimalOne();
    if o == n {
    } else if |n| == 8 {
      ApplicationFollows(p, o, n);
    } else if |o| == 8 {
      MigrationFollows(p, o, n);
    } else if CompositeApplication(o, n) {
      ApplicationFollows(p, o, n);
    } else if RecoveryReserves(o, n) {
    } else {
      CommitFollows(p, o, n);
    }
  }

  lemma MigrationFollows(p: Policy, o: Data, n: Data)
    requires |o| == 8 && |n| == 12 && Migrates(o, n)
    ensures Follows(o, n) && EpochOf(n) == EpochOf(o) && BindingOf(n) == BindingOf(o) && !InTransition(n)
  {
    DecimalOne();
  }

  lemma CommitFollows(p: Policy, o: Data, n: Data)
    requires Composite(o) && Composite(n) && RecoveryCommits(o, n)
    ensures Follows(o, n) && EpochOf(n) == EpochOf(o) && GenerationOf(n) == GenerationOf(o) + 1 && !InTransition(n)
  {
    assert Guards(o) && Guards(n);
  }

  /** A history of the stored anchor: created under the policy, then only admitted updates. */
  ghost predicate AdmittedRun(p: Policy, history: seq<Data>, recovery: seq<bool>) {
    && |history| == |recovery| + 1
    && AdmitCreate(p, history[0])
    && forall i :: 0 <= i < |recovery| ==> AdmitUpdate(p, history[i], history[i + 1], recovery[i])
  }

  lemma FollowsTransitive(a: Data, b: Data, c: Data)
    requires Follows(a, b) && Follows(b, c)
    ensures Follows(a, c)
  {
  }

  lemma {:induction false} RunContract(p: Policy, history: seq<Data>, recovery: seq<bool>, i: nat)
    requires AdmittedRun(p, history, recovery) && i < |history|
    ensures Contract(p, history[i])
    ensures !(HasReservation(history[i]) && InTransition(history[i]))
  {
    hide Contract, Transition;
    if i == 0 {
    } else {
      RunContract(p, history, recovery, i - 1);
      assert AdmitUpdate(p, history[i - 1], history[i - 1 + 1], recovery[i - 1]);
      AdmittedStep(p, history[i - 1], history[i], recovery[i - 1]);
    }
  }

  /**
   Over any admitted history: epoch and generation never decrease, an epoch names one token, a
   generation names one binding, bootstrap never comes back, and twelve keys never become eight.
   */
  lemma {:induction false} AdmittedRunsAreMonotone(p: Policy, history: seq<Data>, recovery: seq<bool>, i: nat, k: nat)
    requires AdmittedRun(p, history, recovery) && i <= k < |history|
    ensures Follows(history[i], history[k])
    ensures !(HasReservation(history[k]) && InTransition(history[k]))
  {
    hide Contract, Transition, Follows;
    RunContract(p, history, recovery, k);
    if i < k {
      AdmittedRunsAreMonotone(p, history, recovery, i, k - 1);
      RunContract(p, history, recovery, k - 1);
      assert AdmitUpdate(p, history[k - 1], history[k - 1 + 1], recovery[k - 1]);
      AdmittedStep(p, history[k - 1], history[k], recovery[k - 1]);
      FollowsTransitive(history[i], history[k - 1], history[k]);
    } else {
      FollowsReflexive(history[i]);
    }
  }

  lemma FollowsReflexive(d: Data)
    ensures Follows(d, d)
  {
  }
}
