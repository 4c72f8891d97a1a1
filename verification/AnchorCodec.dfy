/**
 The anchor's ConfigMap text and its projection onto the recovery service's record
 (internal/store/trust_anchor.go, internal/store/trust_anchor_composite.go).
 */
module AnchorCodec {
  import opened Prelude
  import opened AnchorRecord
  import opened Decimal
  import Base64

  /** The twelve known ConfigMap keys; `Other` is any other key text. */
  datatype Key =
    | Format | ClusterId | StorageId | Epoch | Token | PendingEpoch | PendingId | Bootstrap
    | RecoveryGeneration | RecoveryEvidence | RecoveryTransition | RecoveryReceipt
    | Other(text: string)

  type Data = map<Key, string>

  const FLAT_KEYS: set<Key> := {Format, ClusterId, StorageId, Epoch, Token, PendingEpoch, PendingId, Bootstrap}
  const GUARD_KEYS: set<Key> := {RecoveryGeneration, RecoveryEvidence, RecoveryTransition, RecoveryReceipt}
  const RECOVERY_NULL := "null"
  const EVIDENCE_FORMAT := "ternal-trust-anchor/v1"

  /** The envelope frozen as the anchor evidence. */
  datatype Evidence = Evidence(
    format: string, epoch: int, token: string, pendingEpoch: Option<int>, pendingId: string, bootstrap: bool)

  function EvidenceOf(r: Record): Evidence {
    Evidence(r.format, r.epoch, r.token, r.pendingEpoch, r.pendingId, r.bootstrap)
  }

  predicate Agrees(e: Evidence, r: Record) {
    && e.format == r.format && e.epoch == r.epoch && e.token == r.token && e.pendingId == r.pendingId
    && e.bootstrap == r.bootstrap
    && (if e.pendingEpoch.None? || r.pendingEpoch.None? then e.pendingEpoch.None? && r.pendingEpoch.None?
        else e.pendingEpoch.value == r.pendingEpoch.value)
  }

  /** JSON as an abstract encoding: printing, and reading that may accept other spellings too. */
  datatype Json = Json(
    printEvidence: Evidence -> seq<Base64.Byte>,
    readEvidence: seq<Base64.Byte> -> Option<Evidence>,
    printTransition: Transition -> string,
    readTransition: string -> Option<Transition>,
    printReceipt: Receipt -> string,
    readReceipt: string -> Option<Receipt>)

  predicate LooksLikeObject(s: string) {
    |s| >= 2 && s[0] == '{' && s[|s| - 1] == '}'
  }

  /** What is assumed of JSON: what was printed is read back, and structs print as objects. */
  ghost predicate Lawful(j: Json) {
    && (forall e :: j.readEvidence(j.printEvidence(e)) == Some(e) && j.printEvidence(e) != [])
    && (forall t :: j.readTransition(j.printTransition(t)) == Some(t) && LooksLikeObject(j.printTransition(t)))
    && (forall r :: j.readReceipt(j.printReceipt(r)) == Some(r) && LooksLikeObject(j.printReceipt(r)))
  }

  function ParseEvidence(j: Json, raw: seq<Base64.Byte>): Result<Evidence> {
    var e := j.readEvidence(raw);
    if e.None? then Err("parse trust-anchor evidence")
    else if j.printEvidence(e.value) != raw then Err("non-canonical trust-anchor evidence")
    else Ok(e.value)
  }

  function PrintTransition(j: Json, t: Option<Transition>): string {
    if t.None? then RECOVERY_NULL else j.printTransition(t.value)
  }

  function PrintReceipt(j: Json, r: Option<Receipt>): string {
    if r.None? then RECOVERY_NULL else j.printReceipt(r.value)
  }

  function ParseTransition(j: Json, raw: string): Result<Option<Transition>> {
    if raw == RECOVERY_NULL then Ok(None)
    else
      var v := j.readTransition(raw);
      if v.None? then Err("parse trust-anchor recovery projection")
      else if j.printTransition(v.value) != raw then Err("non-canonical trust-anchor recovery projection")
      else Ok(v)
  }

  function ParseReceipt(j: Json, raw: string): Result<Option<Receipt>> {
    if raw == RECOVERY_NULL then Ok(None)
    else
      var v := j.readReceipt(raw);
      if v.None? then Err("parse trust-anchor recovery projection")
      else if j.printReceipt(v.value) != raw then Err("non-canonical trust-anchor recovery projection")
      else Ok(v)
  }

  function FormatBool(b: bool): string {
    if b then "true" else "false"
  }

  function FormatPending(p: Option<int>): string {
    if p.None? then "" else FormatInt(p.value)
  }

  // ---------- the ConfigMap text ----------

  /** `anchorData`: both representations, written together. */
  function AnchorData(j: Json, r: Record): Data {
    map[Format := r.format, ClusterId := r.clusterId, StorageId := r.storageId, Epoch := FormatInt(r.epoch),
        Token := r.token, PendingEpoch := FormatPending(r.pendingEpoch), PendingId := r.pendingId,
        Bootstrap := FormatBool(r.bootstrap),
        RecoveryGeneration := FormatNat(r.generation),
        RecoveryEvidence := Base64.Encode(j.printEvidence(EvidenceOf(r))),
        RecoveryTransition := PrintTransition(j, r.transition),
        RecoveryReceipt := PrintReceipt(j, r.receipt)]
  }

  /** The eight-key representation a deployment creates. */
  function Flat(data: Data): Data {
    map k | k in data && k in FLAT_KEYS :: data[k]
  }

  /** strings.HasPrefix(key, "recovery"). */
  predicate RecoveryPrefix(k: Key) {
    k in GUARD_KEYS || (k.Other? && "recovery" <= k.text)
  }

  /** `anchorDataShape`. */
  predicate Shape(data: Data) {
    && (forall k :: k in data ==> !k.Other? && !(|data| == 8 && RecoveryPrefix(k)))
    && (|data| == 8 || |data| == 12)
  }

  /** Go's map lookup. */
  function Get(data: Data, k: Key): string {
    if k in data then data[k] else ""
  }

  /** The flat half of `parseAnchorData`. */
  function ParseFlat(data: Data): Result<Record> {
    var epoch := ParseEpoch(Get(data, Epoch));
    var pending := Get(data, PendingEpoch);
    if epoch.None? then Err("parse trust-anchor epoch")
    else if Get(data, Bootstrap) != "true" && Get(data, Bootstrap) != "false" then Err("parse trust-anchor bootstrap")
    else if pending != "" && ParseEpoch(pending).None? then Err("parse trust-anchor pending epoch")
    else Ok(Record(Get(data, Format), Get(data, ClusterId), Get(data, StorageId), epoch.value, Get(data, Token),
                   if pending == "" then None else ParseEpoch(pending), Get(data, PendingId),
                   Get(data, Bootstrap) == "true", 0, None, None))
  }

  /** The recovery half: every projection must be canonical and agree with the flat one. */
  function ParseGuards(j: Json, data: Data, flat: Record): Result<Record> {
    var raw := Base64.Decode(Get(data, RecoveryEvidence));
    if raw.None? then Err("parse trust-anchor evidence")
    else
      var evidence := ParseEvidence(j, raw.value);
      var generation := ParseGeneration(Get(data, RecoveryGeneration));
      var transition := ParseTransition(j, Get(data, RecoveryTransition));
      var receipt := ParseReceipt(j, Get(data, RecoveryReceipt));
      if evidence.Err? then Err(evidence.reason)
      else if !Agrees(evidence.value, flat) then Err("trust-anchor representations disagree")
      else if generation.None? then Err("parse trust-anchor recovery generation")
      else if transition.Err? then Err(transition.reason)
      else if receipt.Err? then Err(receipt.reason)
      else
        var r := flat.(generation := generation.value, transition := transition.value, receipt := receipt.value);
        if ValidStructure(r) then Ok(r) else Err("invalid trust anchor")
  }

  /** `parseAnchorData`. */
  function ParseAnchorData(j: Json, data: Data): Result<Record> {
    if !Shape(data) then Err("invalid trust-anchor data shape")
    else
      var flat := ParseFlat(data);
      if flat.Err? || |data| == 8 then flat else ParseGuards(j, data, flat.value)
  }

  // ---------- what the text guarantees ----------

  lemma SubsetOfSameSize(a: set<Key>, b: set<Key>)
    requires a <= b && |a| == |b|
    ensures a == b
  {
    if a != b {
      var x :| x in b && x !in a;
      assert a <= b - {x};
      SubsetSize(a, b - {x});
    }
  }

  lemma {:induction false} SubsetSize(a: set<Key>, b: set<Key>)
    requires a <= b
    ensures |a| <= |b|
  {
    if a != {} {
      var x :| x in a;
      SubsetSize(a - {x}, b - {x});
    }
  }

  lemma KeyCounts()
    ensures |FLAT_KEYS| == 8 && |FLAT_KEYS + GUARD_KEYS| == 12
  {
    assert |GUARD_KEYS| == 4;
    assert FLAT_KEYS !! GUARD_KEYS;
  }

  lemma KnownKeys(k: Key)
    ensures !k.Other? <==> k in FLAT_KEYS + GUARD_KEYS
    ensures !k.Other? && !RecoveryPrefix(k) <==> k in FLAT_KEYS
  {
  }

  lemma ShapeIsKnown(data: Data)
    requires Shape(data)
    ensures |data| == 8 ==> data.Keys == FLAT_KEYS
    ensures |data| == 12 ==> data.Keys == FLAT_KEYS + GUARD_KEYS
  {
    KeyCounts();
    forall k | k in data ensures k in FLAT_KEYS + GUARD_KEYS && (|data| == 8 ==> k in FLAT_KEYS) {
      KnownKeys(k);
    }
    hide FLAT_KEYS, GUARD_KEYS;
    assert |data| == |data.Keys|;
    if |data| == 8 {
      SubsetOfSameSize(data.Keys, FLAT_KEYS);
    } else {
      SubsetOfSameSize(data.Keys, FLAT_KEYS + GUARD_KEYS);
    }
  }

  /** An accepted shape is exactly the eight or the twelve known keys. */
  lemma ShapeExact(data: Data)
    ensures Shape(data) <==> data.Keys == FLAT_KEYS || data.Keys == FLAT_KEYS + GUARD_KEYS
    ensures Shape(data) ==> (|data| == 8 <==> data.Keys == FLAT_KEYS)
  {
    KeyCounts();
    assert |data| == |data.Keys|;
    if Shape(data) {
      ShapeIsKnown(data);
    } else if data.Keys == FLAT_KEYS || data.Keys == FLAT_KEYS + GUARD_KEYS {
      forall k | k in data ensures !k.Other? && !(|data| == 8 && RecoveryPrefix(k)) {
        KnownKeys(k);
      }
    }
  }

  lemma AnchorDataShape(j: Json, r: Record)
    ensures AnchorData(j, r).Keys == FLAT_KEYS + GUARD_KEYS && Flat(AnchorData(j, r)).Keys == FLAT_KEYS
    ensures Shape(AnchorData(j, r)) && |AnchorData(j, r)| == 12
    ensures Shape(Flat(AnchorData(j, r))) && |Flat(AnchorData(j, r))| == 8
  {
    assert AnchorData(j, r).Keys == FLAT_KEYS + GUARD_KEYS;
    assert Flat(AnchorData(j, r)).Keys == FLAT_KEYS;
    ShapeExact(AnchorData(j, r));
    ShapeExact(Flat(AnchorData(j, r)));
    KeyCounts();
    assert |AnchorData(j, r)| == |AnchorData(j, r).Keys|;
    assert |Flat(AnchorData(j, r))| == |Flat(AnchorData(j, r)).Keys|;
  }

  /** The flat text of a record, key by key. */
  predicate FlatText(data: Data, r: Record) {
    && Get(data, Format) == r.format && Get(data, ClusterId) == r.clusterId && Get(data, StorageId) == r.storageId
    && Get(data, Epoch) == FormatInt(r.epoch) && Get(data, Token) == r.token
    && Get(data, PendingEpoch) == FormatPending(r.pendingEpoch) && Get(data, PendingId) == r.pendingId
    && Get(data, Bootstrap) == FormatBool(r.bootstrap)
  }

  predicate GuardText(j: Json, data: Data, r: Record) {
    && Get(data, RecoveryGeneration) == FormatNat(r.generation)
    && Base64.Decode(Get(data, RecoveryEvidence)) == Some(j.printEvidence(EvidenceOf(r)))
    && Get(data, RecoveryTransition) == PrintTransition(j, r.transition)
    && Get(data, RecoveryReceipt) == PrintReceipt(j, r.receipt)
  }

  lemma PrintedFlatText(j: Json, r: Record)
    ensures FlatText(AnchorData(j, r), r) && FlatText(Flat(AnchorData(j, r)), r)
  {
    PrintedFlatHalf(j, r);
    FlatKeepsText(AnchorData(j, r), r);
    hide AnchorData, FlatText;
  }

  lemma PrintedFlatHalf(j: Json, r: Record)
    ensures FlatText(AnchorData(j, r), r)
  {
  }

  lemma FlatKeepsText(data: Data, r: Record)
    requires FlatText(data, r)
    ensures FlatText(Flat(data), r)
  {
  }

  lemma PrintedText(j: Json, r: Record)
    ensures FlatText(AnchorData(j, r), r) && FlatText(Flat(AnchorData(j, r)), r)
    ensures GuardText(j, AnchorData(j, r), r)
  {
    hide FlatText;
    PrintedFlatText(j, r);
    Base64.DecodeEncode(j.printEvidence(EvidenceOf(r)));
  }

  /** The flat half without its recovery metadata, as a pre-migration reader sees it. */
  function Unmigrated(r: Record): Record {
    r.(generation := 0, transition := None, receipt := None)
  }

  lemma FormatIntNotEmpty(n: int)
    ensures FormatInt(n) != ""
  {
    FormatNatReads(if n < 0 then -n else n);
  }

  lemma FlatInverts(data: Data, r: Record)
    requires InRange(r)
    requires FlatText(data, r)
    ensures ParseFlat(data) == Ok(Unmigrated(r))
  {
    ParseEpochExact(FormatInt(r.epoch), r.epoch);
    if r.pendingEpoch.Some? {
      ParseEpochExact(FormatInt(r.pendingEpoch.value), r.pendingEpoch.value);
      FormatIntNotEmpty(r.pendingEpoch.value);
    }
  }

  lemma GuardsInvert(j: Json, data: Data, r: Record)
    requires Lawful(j) && ValidStructure(r) && InRange(r) && GuardText(j, data, r)
    ensures ParseGuards(j, data, Unmigrated(r)) == Ok(r)
  {
    ParseGenerationExact(FormatNat(r.generation), r.generation);
    if r.transition.Some? {
      assert LooksLikeObject(j.printTransition(r.transition.value));
    }
    if r.receipt.Some? {
      assert LooksLikeObject(j.printReceipt(r.receipt.value));
    }
  }

  /** Any text that spells the record is read as the record. */
  lemma TextIsRead(j: Json, data: Data, r: Record)
    requires Lawful(j) && ValidStructure(r) && InRange(r)
    requires Shape(data) && |data| == 12 && FlatText(data, r) && GuardText(j, data, r)
    ensures ParseAnchorData(j, data) == Ok(r)
  {
    hide FlatText, GuardText, ParseFlat, ParseGuards, Shape, ValidStructure;
    FlatInverts(data, r);
    GuardsInvert(j, data, r);
  }

  /** Parsing inverts printing for every structurally valid record. */
  lemma ParseInvertsPrint(j: Json, r: Record)
    requires Lawful(j) && ValidStructure(r) && InRange(r)
    ensures ParseAnchorData(j, AnchorData(j, r)) == Ok(r)
  {
    hide AnchorData, FlatText, GuardText, Shape, ValidStructure;
    AnchorDataShape(j, r);
    PrintedText(j, r);
    TextIsRead(j, AnchorData(j, r), r);
  }

  /** The eight-key text carries the same application state and no recovery metadata. */
  lemma ParseInvertsFlatPrint(j: Json, r: Record)
    requires InRange(r)
    ensures ParseAnchorData(j, Flat(AnchorData(j, r))) == Ok(Unmigrated(r))
  {
    hide AnchorData, Flat, FlatText, Shape, ParseFlat;
    AnchorDataShape(j, r);
    PrintedText(j, r);
    FlatInverts(Flat(AnchorData(j, r)), r);
  }

  lemma FlatTextKept(data: Data, r: Record)
    requires ParseFlat(data) == Ok(r)
    ensures FlatText(data, r)
    ensures InRange(r) && r == Unmigrated(r)
  {
    ParseEpochExact(Get(data, Epoch), r.epoch);
    if r.pendingEpoch.Some? {
      ParseEpochExact(Get(data, PendingEpoch), r.pendingEpoch.value);
    }
  }

  lemma SameFlatText(a: Data, b: Data, r: Record)
    requires FlatText(a, r) && FlatText(b, r) && a.Keys == b.Keys == FLAT_KEYS
    ensures a == b
  {
    forall k | k in FLAT_KEYS ensures a[k] == b[k] {
    }
  }

  /** Migrating a legacy record keeps its eight values and adds an empty recovery half. */
  lemma MigrationKeepsFlatValues(j: Json, data: Data, r: Record)
    requires ParseAnchorData(j, data) == Ok(r) && |data| == 8
    ensures Flat(AnchorData(j, r)) == data
    ensures Get(AnchorData(j, r), RecoveryGeneration) == "0"
    ensures Get(AnchorData(j, r), RecoveryTransition) == "null" && Get(AnchorData(j, r), RecoveryReceipt) == "null"
  {
    hide AnchorData, Flat, FlatText, ParseFlat, Shape;
    ShapeExact(data);
    FlatTextKept(data, r);
    AnchorDataShape(j, r);
    PrintedText(j, r);
    SameFlatText(Flat(AnchorData(j, r)), data, r);
  }

  lemma GuardTextKept(j: Json, data: Data, flat: Record, r: Record)
    requires ParseGuards(j, data, flat) == Ok(r) && flat == Unmigrated(flat) && InRange(flat)
    ensures GuardText(j, data, r) && ValidStructure(r) && InRange(r)
    ensures Unmigrated(r) == flat
  {
    ParseGenerationExact(Get(data, RecoveryGeneration), r.generation);
    assert ParseEvidence(j, Base64.Decode(Get(data, RecoveryEvidence)).value).value == EvidenceOf(r);
  }

  lemma SameText(j: Json, a: Data, b: Data, r: Record)
    requires FlatText(a, r) && FlatText(b, r) && GuardText(j, a, r) && GuardText(j, b, r)
    ensures forall k :: k in FLAT_KEYS + GUARD_KEYS && k != RecoveryEvidence ==> Get(a, k) == Get(b, k)
  {
    forall k | k in FLAT_KEYS + GUARD_KEYS && k != RecoveryEvidence ensures Get(a, k) == Get(b, k) {
      hide FLAT_KEYS, GUARD_KEYS;
      KnownKeys(k);
      match k
      case Other(_) =>
      case _ =>
    }
  }

  /**
   An accepted twelve-key record prints back except for the spelling of the base64 text, whose bytes are its
   evidence.
   */
  lemma PrintAfterParse(j: Json, data: Data, r: Record)
    requires ParseAnchorData(j, data) == Ok(r) && |data| == 12
    ensures ValidStructure(r) && InRange(r)
    ensures data.Keys == AnchorData(j, r).Keys
    ensures forall k :: k in FLAT_KEYS + GUARD_KEYS && k != RecoveryEvidence ==>
        Get(AnchorData(j, r), k) == Get(data, k)
    ensures Base64.Decode(Get(data, RecoveryEvidence)) == Some(j.printEvidence(EvidenceOf(r)))
  {
    hide AnchorData, FlatText, ParseFlat, ParseGuards, Shape, ValidStructure;
    ShapeExact(data);
    AnchorDataShape(j, r);
    PrintedText(j, r);
    var flat := ParseFlat(data).value;
    FlatTextKept(data, flat);
    GuardTextKept(j, data, flat, r);
    FlatTextOfHalf(data, flat, r);
    SameText(j, AnchorData(j, r), data, r);
  }

  lemma FlatTextOfHalf(data: Data, flat: Record, r: Record)
    requires FlatText(data, flat) && Unmigrated(r) == flat
    ensures FlatText(data, r)
  {
  }

  /** It prints back exactly when its evidence is spelled as the encoder spells those bytes. */
  lemma PrintsBackIff(j: Json, data: Data, r: Record)
    requires ParseAnchorData(j, data) == Ok(r) && |data| == 12
    ensures AnchorData(j, r) == data <==>
              Base64.Decode(Get(data, RecoveryEvidence)).Some?
              && Get(data, RecoveryEvidence) == Base64.Encode(Base64.Decode(Get(data, RecoveryEvidence)).value)
  {
    hide ParseAnchorData, FLAT_KEYS, Base64.Decode, Base64.Encode;
    PrintAfterParse(j, data, r);
    AnchorDataShape(j, r);
    PrintedEvidence(j, r);
    hide AnchorData;
    KnownKeysOf(data, AnchorData(j, r));
  }

  lemma PrintedEvidence(j: Json, r: Record)
    ensures Get(AnchorData(j, r), RecoveryEvidence) == Base64.Encode(j.printEvidence(EvidenceOf(r)))
  {
  }

  /** Two texts over the twelve keys are the same when they agree on each. */
  lemma KnownKeysOf(a: Data, b: Data)
    requires a.Keys == b.Keys == FLAT_KEYS + GUARD_KEYS
    requires forall k :: k in FLAT_KEYS + GUARD_KEYS && k != RecoveryEvidence ==> Get(a, k) == Get(b, k)
    ensures a == b <==> Get(a, RecoveryEvidence) == Get(b, RecoveryEvidence)
  {
    hide FLAT_KEYS;
    if Get(a, RecoveryEvidence) == Get(b, RecoveryEvidence) {
      forall k | k in a ensures a[k] == b[k] {
        assert Get(a, k) == Get(b, k);
      }
    }
  }

  lemma BreakIsSkipped(text: string)
    ensures Base64.Decode("\n" + text) == Base64.Decode(text)
  {
    assert ("\n" + text)[0] == '\n' && ("\n" + text)[1..] == text;
    assert Base64.WithoutBreaks("\n" + text) == Base64.WithoutBreaks(text);
  }

  lemma Respelled(j: Json, data: Data, r: Record, text: string)
    requires FlatText(data, r) && GuardText(j, data, r) && RecoveryEvidence in data
    requires Base64.Decode(text) == Base64.Decode(Get(data, RecoveryEvidence))
    ensures FlatText(data[RecoveryEvidence := text], r) && GuardText(j, data[RecoveryEvidence := text], r)
    ensures data[RecoveryEvidence := text].Keys == data.Keys
  {
  }

  /** The exception is real: another spelling of the same evidence is accepted as the same record. */
  lemma EvidenceSpellingIsFree(j: Json, r: Record)
    requires Lawful(j) && ValidStructure(r) && InRange(r)
    ensures var data := AnchorData(j, r);
            var other := data[RecoveryEvidence := "\n" + Get(data, RecoveryEvidence)];
            other != data && ParseAnchorData(j, other) == Ok(r)
  {
    hide AnchorData, Shape, ValidStructure, InRange, Lawful, Base64.Decode, FlatText, GuardText, ParseAnchorData, Flat;
    var data := AnchorData(j, r);
    var text := Get(data, RecoveryEvidence);
    var other := data[RecoveryEvidence := "\n" + text];
    AnchorDataShape(j, r);
    assert |Get(other, RecoveryEvidence)| == |text| + 1;
    PrintedText(j, r);
    BreakIsSkipped(text);
    Respelled(j, data, r, "\n" + text);
    ShapeExact(other);
    assert |other| == |other.Keys| == |data.Keys| == |data|;
    TextIsRead(j, other, r);
  }

  // ---------- the recovery service's record ----------

  datatype RecoveryRecord = RecoveryRecord(
    version: string, evidenceFormat: string, binding: Binding, evidence: seq<Base64.Byte>, pendingWrite: bool,
    generation: nat, transition: Option<Transition>, lastTransition: Option<Receipt>)

  /** `recoveryRecord`; `version` is the upstream constant. */
  function ToRecovery(j: Json, version: string, r: Record): RecoveryRecord {
    RecoveryRecord(version, EVIDENCE_FORMAT, Binding(r.clusterId, r.storageId), j.printEvidence(EvidenceOf(r)),
                   r.pendingEpoch.Some?, r.generation, r.transition, r.receipt)
  }

  /** `anchorRecordFromRecovery`. */
  function FromRecovery(j: Json, version: string, record: RecoveryRecord): Result<Record> {
    if record.version != version || record.evidenceFormat != EVIDENCE_FORMAT then Err("unsupported recovery record")
    else
      var evidence := ParseEvidence(j, record.evidence);
      if evidence.Err? then Err(evidence.reason)
      else
        var e := evidence.value;
        if record.pendingWrite != e.pendingEpoch.Some? then Err("recovery record disagrees with its evidence")
        else Ok(Record(e.format, record.binding.clusterId, record.binding.storageId, e.epoch, e.token, e.pendingEpoch,
                       e.pendingId, e.bootstrap, record.generation, record.transition, record.lastTransition))
  }

  /** The projection and its inverse undo each other; a recovery record is accepted exactly when it is a projection. */
  lemma RecoveryProjectionExact(j: Json, version: string, record: RecoveryRecord, r: Record)
    requires Lawful(j)
    ensures FromRecovery(j, version, record) == Ok(r) <==> record == ToRecovery(j, version, r)
  {
    assert j.readEvidence(j.printEvidence(EvidenceOf(r))) == Some(EvidenceOf(r));
  }

  /** Both representations a stored record carries say the same: the text, and what the recovery service is handed. */
  lemma RepresentationsAgree(j: Json, version: string, data: Data, r: Record)
    requires ParseAnchorData(j, data) == Ok(r) && |data| == 12
    ensures var record := ToRecovery(j, version, r);
            && record.binding.clusterId == Get(data, ClusterId) && record.binding.storageId == Get(data, StorageId)
            && Base64.Decode(Get(data, RecoveryEvidence)) == Some(record.evidence)
            && ParseGeneration(Get(data, RecoveryGeneration)) == Some(record.generation)
            && (record.pendingWrite <==> Get(data, PendingEpoch) != "")
            && Get(data, RecoveryTransition) == PrintTransition(j, record.transition)
            && Get(data, RecoveryReceipt) == PrintReceipt(j, record.lastTransition)
  {
    hide FlatText, ParseGuards, ParseFlat, Shape, ValidStructure, ParseGeneration;
    var flat := ParseFlat(data).value;
    FlatTextKept(data, flat);
    GuardTextKept(j, data, flat, r);
    FlatTextOfHalf(data, flat, r);
    ParseGenerationExact(Get(data, RecoveryGeneration), r.generation);
    HandedText(data, r);
    hide ParseAnchorData;
  }

  lemma HandedText(data: Data, r: Record)
    requires FlatText(data, r)
    ensures Get(data, ClusterId) == r.clusterId && Get(data, StorageId) == r.storageId
    ensures Get(data, PendingEpoch) != "" <==> r.pendingEpoch.Some?
  {
    if r.pendingEpoch.Some? {
      FormatIntNotEmpty(r.pendingEpoch.value);
    }
  }
}
