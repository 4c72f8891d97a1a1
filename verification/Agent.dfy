/** The device agent's key synchronization (cmd/ternal-agent/main.go). */
module Agent {
  import opened Prelude
  import opened AccessTables
  import opened AccessRuns
  import opened AccessSnapshots

  /** A line of an authorized_keys file: what the agent's checks see of it. */
  datatype Line = Line(text: string, blank: bool, dated: bool, parses: bool)

  type Body = seq<Line>

  /** The library functions the agent calls: SHA-256 in hexadecimal, and the length in bytes. */
  datatype Library = Library(digest: Body -> string, size: Body -> nat)

  const MAX_BYTES := 0x10_0000

  /** The synchronization state file. */
  datatype StateFile = Absent | Saved(generation: int, digest: string) | Unreadable

  datatype Response = Response(body: Body, digest: string, generation: Option<int>)

  /** How far the operating system and the network let one synchronization get. */
  datatype Luck = Luck(
    keysReadable: bool,
    purgeWrites: bool,
    deviceLoads: bool,
    response: Option<Response>,
    bodyWrites: bool,
    bodyOwned: bool,
    stateWrites: bool,
    stateOwned: bool,
    ackAnswered: bool)

  datatype Ack = Ack(generation: int, digest: string)

  datatype Disk = Disk(keys: Option<Body>, state: StateFile)

  // ---------- checks ----------

  predicate Undated(l: Line) {
    !l.blank && !l.dated
  }

  function Dated(body: Body): Body {
    if body == [] then []
    else if body[0].blank || Undated(body[0]) then Dated(body[1..])
    else [body[0]] + Dated(body[1..])
  }

  predicate AllDated(body: Body) {
    forall i :: 0 <= i < |body| ==> !Undated(body[i])
  }

  predicate Acceptable(body: Body) {
    forall i :: 0 <= i < |body| ==> body[i].blank || (body[i].dated && body[i].parses)
  }

  /** `readAuthorizedKeysState`: no file, a record, or an error. */
  function ReadState(f: StateFile): Result<Option<Ack>> {
    match f
    case Absent => Ok(None)
    case Saved(g, d) =>
      if g < 1 || |d| != 64 then Err("invalid authorized_keys synchronization state") else Ok(Some(Ack(g, d)))
    case Unreadable => Err("invalid authorized_keys synchronization state")
  }

  /** Neither a rollback nor another body under the same generation. */
  predicate Follows(current: Option<Ack>, next: Ack) {
    current.None? || !(next.generation < current.value.generation
      || (next.generation == current.value.generation && next.digest != current.value.digest))
  }

  /** A response the agent goes on with: within budget, true to its digest header, a generation, only dated keys. */
  predicate WellFormed(lib: Library, r: Response) {
    && lib.size(r.body) <= MAX_BYTES
    && r.digest == lib.digest(r.body)
    && r.generation.Some? && r.generation.value >= 0
    && Acceptable(r.body)
  }

  predicate Accepts(lib: Library, d: Disk, r: Response) {
    && WellFormed(lib, r)
    && ReadState(d.state).Ok?
    && Follows(ReadState(d.state).value, Ack(r.generation.value, r.digest))
  }

  // ---------- one synchronization, as what it leaves ----------

  function PurgedFile(keys: Option<Body>): Option<Body> {
    if keys.None? || AllDated(keys.value) then keys else Some(Dated(keys.value))
  }

  /** The disk afterwards and the acknowledgement sent, if any. */
  function Synced(lib: Library, d: Disk, luck: Luck): (Disk, Option<Ack>) {
    if d.keys.Some? && !luck.keysReadable then (d, None)
    else if PurgedFile(d.keys) != d.keys && !luck.purgeWrites then (d, None)
    else
      var clean := d.(keys := PurgedFile(d.keys));
      if !luck.deviceLoads || luck.response.None? || !Accepts(lib, clean, luck.response.value) || !luck.bodyWrites
      then (clean, None)
      else
        var r := luck.response.value;
        var ack := Ack(r.generation.value, r.digest);
        var written := clean.(keys := Some(r.body));
        if !luck.bodyOwned || !luck.stateWrites then (written, None)
        else
          var recorded := written.(state := Saved(ack.generation, ack.digest));
          (recorded, if luck.stateOwned then Some(ack) else None)
  }

  // ---------- the agent itself ----------

  class Machine {
    const lib: Library
    var keys: Option<Body>
    var state: StateFile
    /** Acknowledgements sent. */
    var sent: seq<Ack>

    function OnDisk(): Disk
      reads this
    {
      Disk(keys, state)
    }

    constructor (lib: Library)
      ensures OnDisk() == Disk(None, Absent) && sent == [] && this.lib == lib
    {
      this.lib := lib;
      keys, state, sent := None, Absent, [];
    }

    /** Drops the lines without a deadline, if there are any. */
    method Purge(readable: bool, writes: bool) returns (ok: bool)
      modifies this`keys
      ensures ok <==> old(keys).None? || (readable && (PurgedFile(old(keys)) == old(keys) || writes))
      ensures keys == if ok then PurgedFile(old(keys)) else old(keys)
    {
      if keys.None? {
        return true;
      }
      if !readable {
        return false;
      }
      var body := keys.value;
      var kept, removed := [], false;
      for i := 0 to |body|
        invariant keys == old(keys)
        invariant kept == Dated(body[..i])
        invariant removed <==> !AllDated(body[..i])
      {
        assert body[..i + 1] == body[..i] + [body[i]];
        DatedAppends(body[..i], body[i]);
        if body[i].blank {
          continue;
        }
        if !body[i].dated {
          removed := true;
          continue;
        }
        kept := kept + [body[i]];
      }
      assert body[..|body|] == body;
      assert removed <==> !AllDated(body);
      if !removed {
        return true;
      }
      PurgeChanges(body);
      if !writes {
        return false;
      }
      keys := Some(kept);
      return true;
    }

    /** `validateAuthorizedKeys`: every line that is not blank carries a deadline and a key. */
    method Validate(body: Body) returns (ok: bool)
      ensures ok <==> Acceptable(body)
    {
      for i := 0 to |body|
        invariant Acceptable(body[..i])
      {
        assert body[..i + 1] == body[..i] + [body[i]];
        if body[i].blank {
          continue;
        }
        if !body[i].dated || !body[i].parses {
          return false;
        }
      }
      assert body[..|body|] == body;
      return true;
    }

    method Sync(luck: Luck) returns (ok: bool)
      modifies this
      ensures OnDisk() == Synced(lib, old(OnDisk()), luck).0
      ensures var ack := Synced(lib, old(OnDisk()), luck).1;
              && sent == (if ack.Some? then old(sent) + [ack.value] else old(sent))
              && (ok <==> ack.Some? && luck.ackAnswered)
    {
      var purged := Purge(luck.keysReadable, luck.purgeWrites);
      hide PurgedFile;
      if !purged || !luck.deviceLoads || luck.response.None? {
        return false;
      }
      var r := luck.response.value;
      if lib.size(r.body) > MAX_BYTES {
        return false;
      }
      var digest := lib.digest(r.body);
      if r.digest != digest {
        return false;
      }
      if r.generation.None? || r.generation.value < 0 {
        return false;
      }
      var generation := r.generation.value;
      var valid := Validate(r.body);
      if !valid {
        return false;
      }
      var current := ReadState(state);
      if current.Err? {
        return false;
      }
      if current.value.Some? && (generation < current.value.value.generation
                                 || (generation == current.value.value.generation
                                    && digest != current.value.value.digest)) {
        return false;
      }
      if !luck.bodyWrites {
        return false;
      }
      keys := Some(r.body);
      if !luck.bodyOwned || !luck.stateWrites {
        return false;
      }
      state := Saved(generation, digest);
      if !luck.stateOwned {
        return false;
      }
      sent := sent + [Ack(generation, digest)];
      return luck.ackAnswered;
    }
  }

  lemma {:induction false} DatedAppends(body: Body, l: Line)
    ensures Dated(body + [l]) == Dated(body) + (if l.blank || Undated(l) then [] else [l])
    ensures AllDated(body + [l]) <==> AllDated(body) && !Undated(l)
  {
    assert (body + [l])[|body|] == l;
    assert forall i :: 0 <= i < |body| ==> (body + [l])[i] == body[i];
    if body == [] {
      assert body + [l] == [l] && [l][1..] == [];
    } else {
      assert (body + [l])[1..] == body[1..] + [l];
      DatedAppends(body[1..], l);
    }
  }

  lemma {:induction false} DatedIsDated(body: Body)
    ensures AllDated(Dated(body))
    ensures forall l :: l in Dated(body) <==> l in body && !l.blank && l.dated
  {
    if body == [] {
    } else {
      DatedIsDated(body[1..]);
      assert forall l :: l in body <==> l == body[0] || l in body[1..];
    }
  }

  lemma PurgeChanges(body: Body)
    requires !AllDated(body)
    ensures Dated(body) != body
  {
    DatedIsDated(body);
  }

  // ---------- what one synchronization does ----------

  /** A response fit for a device: within a mebibyte, true to its digest, every key line with a deadline. */
  predicate Deliverable(lib: Library, r: Response) {
    && lib.size(r.body) <= 1048576
    && lib.digest(r.body) == r.digest
    && r.generation.Some? && 0 <= r.generation.value
    && forall l :: l in r.body ==> l.blank || (l.dated && l.parses)
  }

  /** No record yet, or one that the response follows. */
  predicate Newer(f: StateFile, g: int, digest: string) {
    match f
    case Absent => true
    case Saved(g0, d0) => 1 <= g0 && |d0| == 64 && (g0 < g || (g0 == g && d0 == digest))
    case Unreadable => false
  }

  /** The files can be read and written and the device's own data loads. */
  predicate Working(luck: Luck) {
    luck.keysReadable && luck.purgeWrites && luck.deviceLoads && luck.bodyWrites && luck.bodyOwned && luck.stateWrites
    && luck.stateOwned
  }

  /** When nothing fails, a response that follows the record is installed, recorded and acknowledged; no other is. */
  lemma UpdateIsInstalled(lib: Library, d: Disk, luck: Luck)
    requires Working(luck) && luck.response.Some?
    ensures var r := luck.response.value;
            var (after, ack) := Synced(lib, d, luck);
            if Deliverable(lib, r) && Newer(d.state, r.generation.value, r.digest) then
              && after == Disk(Some(r.body), Saved(r.generation.value, r.digest))
              && ack == Some(Ack(r.generation.value, r.digest))
            else
              after == Disk(PurgedFile(d.keys), d.state) && ack == None
  {
    hide PurgedFile;
    var body := luck.response.value.body;
    assert Acceptable(body) <==> forall l :: l in body ==> l.blank || (l.dated && l.parses);
  }

  /** Nothing but a deliverable response that follows the record ever reaches the key file, whatever fails. */
  lemma KeysAreDelivered(lib: Library, d: Disk, luck: Luck)
    ensures var after := Synced(lib, d, luck).0;
            || after.keys == d.keys
            || after.keys == PurgedFile(d.keys)
            || (&& luck.response.Some? && after.keys == Some(luck.response.value.body)
                && Deliverable(lib, luck.response.value)
                && Newer(d.state, luck.response.value.generation.value, luck.response.value.digest))
  {
    hide PurgedFile;
    if luck.response.Some? {
      var body := luck.response.value.body;
      assert Acceptable(body) <==> forall l :: l in body ==> l.blank || (l.dated && l.parses);
    }
  }

  // ---------- guarantees of one synchronization ----------

  /** Whatever else fails, once the old file could be read and rewritten no undated line is left in it. */
  lemma NoUndatedLineSurvives(lib: Library, d: Disk, luck: Luck)
    requires luck.keysReadable && luck.purgeWrites
    ensures var after := Synced(lib, d, luck).0; after.keys.Some? ==> AllDated(after.keys.value)
  {
    if d.keys.Some? {
      DatedIsDated(d.keys.value);
    }
  }

  /** An acknowledgement is sent only with the acknowledged body and its record on disk. */
  lemma AcknowledgesWhatIsWritten(lib: Library, d: Disk, luck: Luck)
    requires Synced(lib, d, luck).1.Some?
    ensures var after, ack := Synced(lib, d, luck).0, Synced(lib, d, luck).1.value;
            && after.keys.Some? && lib.digest(after.keys.value) == ack.digest && Acceptable(after.keys.value)
            && after.state == Saved(ack.generation, ack.digest)
  {
  }

  /** The record only ever moves to a response that was accepted from the record before. */
  lemma RecordMoves(lib: Library, d: Disk, luck: Luck)
    ensures var after := Synced(lib, d, luck).0;
            after.state == d.state ||
            (&& luck.response.Some?
             && WellFormed(lib, luck.response.value)
             && after.state == Saved(luck.response.value.generation.value, luck.response.value.digest)
             && ReadState(d.state).Ok?
             && Follows(ReadState(d.state).value,
                Ack(luck.response.value.generation.value, luck.response.value.digest)))
  {
    hide PurgedFile;
  }

  /** Any number of synchronizations, with any luck and any server. */
  ghost predicate Syncs(lib: Library, disks: seq<Disk>, lucks: seq<Luck>) {
    && |disks| == |lucks| + 1
    && forall n :: 0 <= n < |lucks| ==> disks[n + 1] == Synced(lib, disks[n], lucks[n]).0
  }

  /** The recorded generation never decreases and its digest never changes under it, whatever the server answers. */
  lemma {:induction false} RecordNeverGoesBack(lib: Library, disks: seq<Disk>, lucks: seq<Luck>, m: nat, n: nat)
    requires Syncs(lib, disks, lucks) && m <= n < |disks| && disks[m].state.Saved?
    ensures disks[n].state.Saved?
    ensures disks[m].state.generation <= disks[n].state.generation
    ensures disks[m].state.generation == disks[n].state.generation ==> disks[m].state == disks[n].state
  {
    hide Synced;
    if m == n {
    } else {
      RecordNeverGoesBack(lib, disks, lucks, m, n - 1);
      assert disks[n - 1 + 1] == Synced(lib, disks[n - 1], lucks[n - 1]).0;
      RecordMoves(lib, disks[n - 1], lucks[n - 1]);
    }
  }

  /** The first part of a synchronization succeeds. */
  predicate PurgePasses(d: Disk, luck: Luck) {
    d.keys.Some? ==> luck.keysReadable && (PurgedFile(d.keys) == d.keys || luck.purgeWrites)
  }

  /** An agent without a record takes generation 0 from its server, and nothing fails until it is recorded. */
  predicate RecordsZero(lib: Library, d: Disk, luck: Luck) {
    && d.state.Absent?
    && PurgePasses(d, luck) && luck.deviceLoads
    && luck.response.Some? && WellFormed(lib, luck.response.value) && luck.response.value.generation == Some(0)
    && luck.bodyWrites && luck.bodyOwned && luck.stateWrites
  }

  /**
   A synchronization leaves a record that the agent's own reader refuses exactly when generation 0 is the first to
   be recorded.
   */
  lemma StuckIffGenerationZero(lib: Library, d: Disk, luck: Luck)
    requires ReadState(d.state).Ok? && forall b :: |lib.digest(b)| == 64
    ensures ReadState(Synced(lib, d, luck).0.state).Err? <==> RecordsZero(lib, d, luck)
  {
    hide Acceptable, AllDated, Dated;
  }

  /** The first synchronization of a device whose server answers generation 0. */
  lemma GenerationZeroSticks(lib: Library, keys: Option<Body>) returns (luck: Luck)
    requires lib.size([]) <= MAX_BYTES && |lib.digest([])| == 64
    ensures ReadState(Synced(lib, Disk(keys, Absent), luck).0.state).Err?
  {
    luck := Luck(true, true, true, Some(Response([], lib.digest([]), Some(0))), true, true, true, true, true);
  }

  lemma StuckStaysStuck(lib: Library, d: Disk, luck: Luck)
    requires ReadState(d.state).Err?
    ensures Synced(lib, d, luck).0.state == d.state && Synced(lib, d, luck).1 == None
  {
    hide PurgedFile;
  }

  /** Whatever the server answers from then on, the record stays and nothing is acknowledged. */
  lemma {:induction false} StuckForever(lib: Library, disks: seq<Disk>, lucks: seq<Luck>, m: nat, n: nat)
    requires Syncs(lib, disks, lucks) && m <= n < |disks| && ReadState(disks[m].state).Err?
    ensures disks[n].state == disks[m].state
    ensures n < |lucks| ==> Synced(lib, disks[n], lucks[n]).1 == None
  {
    hide Synced, ReadState;
    if m == n {
    } else {
      StuckForever(lib, disks, lucks, m, n - 1);
      StuckStaysStuck(lib, disks[n - 1], lucks[n - 1]);
      assert disks[n - 1 + 1] == Synced(lib, disks[n - 1], lucks[n - 1]).0;
    }
    if n < |lucks| {
      StuckStaysStuck(lib, disks[n], lucks[n]);
    }
  }

  // ---------- the order of acknowledgements ----------

  /** Every acknowledgement follows the ones before it, and the record follows them all. */
  predicate InOrder(sent: seq<Ack>, f: StateFile) {
    && (forall a, b :: 0 <= a < b < |sent| ==> Follows(Some(sent[a]), sent[b]))
    && (forall a :: 0 <= a < |sent| ==> f.Saved? && Follows(Some(sent[a]), Ack(f.generation, f.digest)))
  }

  /** What one `Machine.Sync` does to `sent` and `state`. */
  lemma SyncKeepsOrder(lib: Library, d: Disk, luck: Luck, sent: seq<Ack>)
    requires InOrder(sent, d.state)
    ensures var (after, ack) := Synced(lib, d, luck);
            InOrder(if ack.Some? then sent + [ack.value] else sent, after.state)
  {
    hide PurgedFile, WellFormed;
  }

  /** The acknowledgements of any number of synchronizations, in the order they were sent. */
  function SentBy(lib: Library, d: Disk, lucks: seq<Luck>): (seq<Ack>, Disk) {
    if lucks == [] then ([], d)
    else
      var (before, last) := SentBy(lib, d, lucks[..|lucks| - 1]);
      var (after, ack) := Synced(lib, last, lucks[|lucks| - 1]);
      (if ack.Some? then before + [ack.value] else before, after)
  }

  /** Whatever fails and whatever the server answers, no acknowledgement goes back behind an earlier one. */
  lemma {:induction false} AcknowledgementsInOrder(lib: Library, d: Disk, lucks: seq<Luck>)
    ensures InOrder(SentBy(lib, d, lucks).0, SentBy(lib, d, lucks).1.state)
  {
    if lucks == [] {
    } else {
      AcknowledgementsInOrder(lib, d, lucks[..|lucks| - 1]);
      var (before, last) := SentBy(lib, d, lucks[..|lucks| - 1]);
      SyncKeepsOrder(lib, last, lucks[|lucks| - 1], before);
      hide Synced, InOrder;
    }
  }

  // ---------- the agent and the server ----------

  /** The response to a request whose generation was read in this server state. */
  predicate Honest(lib: Library, s: State, k: Login, r: Response) {
    && Deliverable(lib, r)
    && GenerationOf(s.t, k, r.digest) == r.generation
  }

  /** The agent's record was read from an earlier server state. */
  ghost predicate RecordFrom(trace: seq<State>, k: Login, f: StateFile, upTo: nat) {
    f.Absent? || exists i :: 0 <= i <= upTo && i < |trace| && f.Saved? && Current(trace[i].t, k, f.generation, f.digest)
  }

  /** Synchronizations against one login of a server run, each response read no earlier than the one before. */
  ghost predicate Serves(lib: Library, trace: seq<State>, k: Login, lucks: seq<Luck>, seen: seq<nat>) {
    && |seen| == |lucks|
    && (forall n :: 0 <= n < |seen| ==> seen[n] < |trace|)
    && (forall n, m :: 0 <= n < m < |seen| ==> seen[n] <= seen[m])
    && (forall n :: 0 <= n < |seen| && lucks[n].response.Some? ==>
       Honest(lib, trace[seen[n]], k, lucks[n].response.value))
  }

  lemma DeliverableIsWellFormed(lib: Library, r: Response)
    requires Deliverable(lib, r)
    ensures WellFormed(lib, r)
  {
  }

  lemma HonestIsCurrent(lib: Library, s: State, k: Login, r: Response)
    requires Honest(lib, s, k, r)
    ensures Current(s.t, k, r.generation.value, r.digest)
  {
  }

  lemma {:induction false} RecordsAreServed(lib: Library, trace: seq<State>, k: Login, disks: seq<Disk>,
      lucks: seq<Luck>, seen: seq<nat>, n: nat)
    requires Serves(lib, trace, k, lucks, seen) && Syncs(lib, disks, lucks) && n < |disks| && disks[0].state.Absent?
    ensures n == 0 ==> disks[n].state.Absent?
    ensures n > 0 ==> RecordFrom(trace, k, disks[n].state, seen[n - 1])
  {
    hide Synced, Honest, Current;
    if n == 0 {
    } else {
      RecordsAreServed(lib, trace, k, disks, lucks, seen, n - 1);
      assert disks[n - 1 + 1] == Synced(lib, disks[n - 1], lucks[n - 1]).0;
      RecordMoves(lib, disks[n - 1], lucks[n - 1]);
      if disks[n].state != disks[n - 1].state {
        HonestIsCurrent(lib, trace[seen[n - 1]], k, lucks[n - 1].response.value);
        assert Current(trace[seen[n - 1]].t, k, disks[n].state.generation, disks[n].state.digest);
      }
    }
  }

  /** What the record was read from comes before what is offered now. */
  lemma LaterFollows(trace: seq<State>, ops: seq<Op>, i: nat, j: nat, k: Login, was: Ack, next: Ack)
    requires Run(trace, ops) && i <= j < |trace|
    requires forall n :: i <= n < j ==> ops[n] != DeleteHost(k.host)
    requires Current(trace[i].t, k, was.generation, was.digest) && Current(trace[j].t, k, next.generation, next.digest)
    ensures Follows(Some(was), next)
  {
    hide Run;
    GenerationsNeverDecrease(trace, ops, i, j, k);
  }

  lemma GenerationsArePositive(trace: seq<State>, ops: seq<Op>, i: nat, k: Login, a: Ack)
    requires Run(trace, ops) && i < |trace| && Current(trace[i].t, k, a.generation, a.digest)
    ensures a.generation >= 1
  {
    hide Run;
    Reachable(trace, ops, i);
    assert SnapshotOk(trace[i].t, trace[i].h, k);
  }

  /**
   As long as its host is not deleted, an agent that started with no record accepts every
   response its server publishes, whatever failed on the way: it is never stuck, and never
   takes a later publication for a rollback.
   */
  lemma AcceptsEveryPublication(lib: Library, trace: seq<State>, ops: seq<Op>, k: Login, disks: seq<Disk>,
      lucks: seq<Luck>, seen: seq<nat>, n: nat)
    requires Run(trace, ops) && Serves(lib, trace, k, lucks, seen) && Syncs(lib, disks, lucks)
    requires disks[0].state.Absent? && n < |lucks| && lucks[n].response.Some?
    requires forall i :: 0 <= i < |ops| ==> ops[i] != DeleteHost(k.host)
    requires forall b :: |lib.digest(b)| == 64
    ensures Accepts(lib, disks[n], lucks[n].response.value)
  {
    hide Run, Synced, Current;
    var r := lucks[n].response.value;
    var j := seen[n];
    HonestIsCurrent(lib, trace[j], k, r);
    DeliverableIsWellFormed(lib, r);
    RecordSizes(lib, disks, lucks, n);
    RecordsAreServed(lib, trace, k, disks, lucks, seen, n);
    var f := disks[n].state;
    if !f.Absent? {
      var i :| 0 <= i <= seen[n - 1] && i < |trace| && f.Saved? && Current(trace[i].t, k, f.generation, f.digest);
      var was := Ack(f.generation, f.digest);
      RunLength(trace, ops);
      LaterFollows(trace, ops, i, j, k, was, Ack(r.generation.value, r.digest));
      GenerationsArePositive(trace, ops, i, k, was);
    }
  }

  /** And once a synchronization meets no failure, the device has exactly the keys and the record it was served. */
  lemma ServedIsInstalled(lib: Library, trace: seq<State>, ops: seq<Op>, k: Login, disks: seq<Disk>, lucks: seq<Luck>,
      seen: seq<nat>, n: nat)
    requires Run(trace, ops) && Serves(lib, trace, k, lucks, seen) && Syncs(lib, disks, lucks)
    requires disks[0].state.Absent? && n < |lucks| && lucks[n].response.Some? && Working(lucks[n])
    requires forall i :: 0 <= i < |ops| ==> ops[i] != DeleteHost(k.host)
    requires forall b :: |lib.digest(b)| == 64
    ensures var r := lucks[n].response.value;
            && r.generation.Some?
            && Current(trace[seen[n]].t, k, r.generation.value, r.digest)
            && disks[n + 1] == Disk(Some(r.body), Saved(r.generation.value, r.digest))
            && Synced(lib, disks[n], lucks[n]).1 == Some(Ack(r.generation.value, r.digest))
  {
    var r := lucks[n].response.value;
    AcceptsEveryPublication(lib, trace, ops, k, disks, lucks, seen, n);
    HonestIsCurrent(lib, trace[seen[n]], k, r);
    AcceptedIsNewer(lib, disks[n], r);
    UpdateIsInstalled(lib, disks[n], lucks[n]);
    hide Run, Synced, Current;
  }

  lemma AcceptedIsNewer(lib: Library, d: Disk, r: Response)
    requires Accepts(lib, d, r)
    ensures Newer(d.state, r.generation.value, r.digest)
  {
  }

  lemma RunLength(trace: seq<State>, ops: seq<Op>)
    requires Run(trace, ops)
    ensures |trace| == |ops| + 1
  {
  }

  /** A recorded digest is one the library printed. */
  lemma {:induction false} RecordSizes(lib: Library, disks: seq<Disk>, lucks: seq<Luck>, n: nat)
    requires Syncs(lib, disks, lucks) && n < |disks| && disks[0].state.Absent?
    requires forall b :: |lib.digest(b)| == 64
    ensures disks[n].state.Absent? || (disks[n].state.Saved? && |disks[n].state.digest| == 64)
  {
    hide Synced;
    if n == 0 {
    } else {
      RecordSizes(lib, disks, lucks, n - 1);
      assert disks[n - 1 + 1] == Synced(lib, disks[n - 1], lucks[n - 1]).0;
      RecordMoves(lib, disks[n - 1], lucks[n - 1]);
    }
  }
}
