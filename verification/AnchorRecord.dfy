/**
 The trust-anchor record: the monotonic state kept outside the replicated
 database, and the structural checks every reader and writer applies to it
 (internal/store/trust_anchor.go).
 */
module AnchorRecord {
  import opened Prelude

  const MAX_INT64: int := 0x7FFF_FFFF_FFFF_FFFF
  const MAX_UINT64: int := 0xFFFF_FFFF_FFFF_FFFF

  /** The recovery service's frozen transition; `detail` stands for the fields this code never inspects. */
  datatype Transition = Transition(generation: nat, anchorId: string, detail: string)

  /** The recovery service's receipt of its last committed transition. */
  datatype Receipt = Receipt(generation: nat, detail: string)

  datatype Record = Record(
    format: string,
    clusterId: string,
    storageId: string,
    epoch: int,
    token: string,
    pendingEpoch: Option<int>,
    pendingId: string,
    bootstrap: bool,
    generation: nat,
    transition: Option<Transition>,
    receipt: Option<Receipt>)

  /** The deployment's own cluster and storage identity. */
  datatype Binding = Binding(clusterId: string, storageId: string)

  predicate HexDigit(c: char) {
    '0' <= c <= '9' || 'a' <= c <= 'f'
  }

  predicate DashAt(i: int) {
    i == 8 || i == 13 || i == 18 || i == 23
  }

  /** The lower-case text form of section 4 of RFC 9562. */
  predicate ValidUuid(s: string) {
    |s| == 36 && forall i :: 0 <= i < |s| ==> if DashAt(i) then s[i] == '-' else HexDigit(s[i])
  }

  /** The binding-free checks; `Err` in the source is `false` here. */
  predicate ValidStructure(r: Record) {
    && r.format == "1"
    && r.clusterId != ""
    && r.storageId != ""
    && 0 <= r.epoch
    && ValidUuid(r.token)
    && (if r.pendingEpoch.Some?
        then r.pendingEpoch.value == r.epoch + 1 && ValidUuid(r.pendingId)
        else r.pendingId == "")
    && (if r.transition.Some?
        then r.transition.value.generation == r.generation && r.transition.value.anchorId != ""
        else r.receipt.Some? ==> r.receipt.value.generation == r.generation)
  }

  /** The record's numbers fit the int64 and uint64 fields that hold them. */
  predicate InRange(r: Record) {
    && -MAX_INT64 - 1 <= r.epoch <= MAX_INT64
    && (r.pendingEpoch.Some? ==> -MAX_INT64 - 1 <= r.pendingEpoch.value <= MAX_INT64)
    && r.generation <= MAX_UINT64
  }

  /** What any process demands of a record, whatever its own binding. */
  predicate Sound(r: Record) {
    ValidStructure(r) && r.transition.None?
  }

  /** What the application demands of a record before reading or proposing it. */
  predicate Valid(binding: Binding, r: Record) {
    && ValidStructure(r)
    && r.clusterId == binding.clusterId
    && r.storageId == binding.storageId
    && r.transition.None?
  }

  /** Reserving a fence: the record a write or a bootstrap proposes before touching the database. */
  function Reserved(r: Record, id: string): Record {
    r.(pendingEpoch := Some(r.epoch + 1), pendingId := id)
  }

  /** Publishing the fenced pair; this spends the deployment's bootstrap. */
  function Finalized(r: Record): Record
    requires r.pendingEpoch.Some?
  {
    r.(epoch := r.pendingEpoch.value, token := r.pendingId, pendingEpoch := None, pendingId := "", bootstrap := false)
  }

  /** Giving up a fence whose request is known to be rejected. */
  function Cleared(r: Record): Record {
    r.(pendingEpoch := None, pendingId := "")
  }
}
