/** The ConfigMap backend: a compare-and-swap is a read, perhaps a migrating write, and the caller's write. */
module KubernetesAnchor {
  import opened Prelude
  import opened AnchorRecord
  import opened AnchorCodec
  import opened Admission
  import opened AnchorUpdates

  /** `next` is an application step from the record that `data` holds. */
  predicate StepFrom(j: Json, data: Data, next: Record) {
    && ParseAnchorData(j, data).Ok?
    && ValidStructure(ParseAnchorData(j, data).value)
    && ApplicationStep(ParseAnchorData(j, data).value, next)
  }

  class ConfigMap {
    const json: Json
    const policy: Policy
    var data: Data
    var version: nat
    /** Writes by other clients. */
    ghost var foreign: nat

    ghost predicate Stored()
      reads this
    {
      Lawful(json) && Contract(policy, data)
    }

    constructor (json: Json, policy: Policy, created: Data)
      requires Lawful(json) && AdmitCreate(policy, created)
      ensures Stored() && data == created
    {
      this.json := json;
      this.policy := policy;
      this.data := created;
      this.version := 0;
      this.foreign := 0;
    }

    /** Any number of admitted writes by anybody else. */
    method OtherClients()
      requires Stored()
      modifies this
      ensures Stored()
      ensures old(foreign) <= foreign && version - foreign == old(version) - old(foreign)
      ensures foreign == old(foreign) ==> data == old(data)
    {
      hide AdmitUpdate, Contract, Lawful;
      var more: nat := *;
      while more > 0
        invariant Stored()
        invariant old(foreign) <= foreign && version - foreign == old(version) - old(foreign)
        invariant foreign == old(foreign) ==> data == old(data)
      {
        var recovery: bool := *;
        RepeatAdmitted(policy, data, recovery);
        var next: Data :| AdmitUpdate(policy, data, next, recovery);
        AdmittedMeetsContract(policy, data, next, recovery);
        data := next;
        version := version + 1;
        foreign := foreign + 1;
        more := more - 1;
      }
    }

    /** One PUT: the server checks the version, then the admission policy. */
    method Put(expected: nat, record: Record) returns (r: Result<nat>)
      requires Stored()
      modifies this
      ensures Stored() && foreign == old(foreign)
      ensures if expected == old(version) && AdmitUpdate(policy, old(data), AnchorData(json, record), false)
              then r == Ok(version) && version == old(version) + 1 && data == AnchorData(json, record)
              else r.Err? && version == old(version) && data == old(data)
    {
      var next := AnchorData(json, record);
      if expected != version {
        return Err("kubernetes status 409");
      }
      if !AdmitUpdate(policy, data, next, false) {
        return Err("kubernetes status 422");
      }
      data := next;
      version := version + 1;
      return Ok(version);
    }

    /**
     The compare-and-swap. It succeeds only over the version the caller decided on, with nobody in
     between; alone, an application step is never denied, whichever shape was stored; and a failure
     without interference leaves at most the format migration behind.
     */
    method Cas(rv: nat, next: Record) returns (r: Result<nat>)
      requires Stored() && rv <= version
      modifies this
      ensures Stored()
      ensures r.Ok? ==>
                && old(version) == rv && foreign == old(foreign)
                && data == AnchorData(json, next) && r.value == version
                && version == old(version) + (if |old(data)| == 8 then 2 else 1)
      ensures foreign == old(foreign) && old(version) == rv && StepFrom(json, old(data), next) ==> r.Ok?
      ensures r.Err? && foreign == old(foreign) ==>
                || data == old(data)
                || (|old(data)| == 8 && ParseAnchorData(json, old(data)).Ok?
                    && data == AnchorData(json, ParseAnchorData(json, old(data)).value))
    {
      hide AdmitUpdate, AnchorData, ParseAnchorData, ValidStructure, ApplicationStep, Lawful, Contract;
      OtherClients();
      var wire, actual := data, version;
      if actual != rv {
        return Err("trust anchor resource version conflict");
      }
      var current := rv;
      ghost var read := ParseAnchorData(json, wire);
      if |wire| == 8 {
        var legacy := ParseAnchorData(json, wire);
        if legacy.Err? {
          return Err(legacy.reason);
        }
        if ValidStructure(legacy.value) {
          MigrationAdmitted(json, policy, wire, legacy.value, false);
        }
        OtherClients();
        var migrated := Put(current, legacy.value);
        if migrated.Err? {
          return migrated;
        }
        current := migrated.value;
        if ValidStructure(legacy.value) {
          Reparsed(json, wire, legacy.value);
        }
      }
      if StepFrom(json, wire, next) && |data| == 12 && ParseAnchorData(json, data) == read {
        ApplicationStepAdmitted(json, policy, data, read.value, next, false);
      }
      ContractSize(policy, data);
      OtherClients();
      r := Put(current, next);
    }
  }

  lemma RepeatAdmitted(p: Policy, d: Data, recovery: bool)
    requires Contract(p, d)
    ensures AdmitUpdate(p, d, d, recovery)
  {
  }

  lemma AdmittedMeetsContract(p: Policy, o: Data, n: Data, recovery: bool)
    requires AdmitUpdate(p, o, n, recovery)
    ensures Contract(p, n)
  {
  }

  lemma ContractSize(p: Policy, d: Data)
    requires Contract(p, d)
    ensures |d| == 8 || |d| == 12
  {
  }

  /** A migrated record reads back as the record that was migrated. */
  lemma Reparsed(j: Json, wire: Data, r: Record)
    requires Lawful(j) && ParseAnchorData(j, wire) == Ok(r) && |wire| == 8 && ValidStructure(r)
    ensures ParseAnchorData(j, AnchorData(j, r)) == Ok(r) && |AnchorData(j, r)| == 12
  {
    hide AnchorData, ParseFlat, ValidStructure, FlatText;
    FlatTextKept(wire, r);
    AnchorDataShape(j, r);
    ParseInvertsPrint(j, r);
  }
}
