/** A generation of authorized keys stands for one digest and one list of grants. */
module AccessSnapshots {
  import opened Prelude
  import opened AccessTables
  import opened AccessRuns
  import opened AccessInvariant

  // ---------- the marker determines the list ----------

  /** What follows the first line of a joined list. */
  function Tail(grants: seq<Id>): string
    requires grants != []
  {
    if |grants| == 1 then "" else "\n" + Joined(grants[1..])
  }

  /** Where two texts start with a line each, it is the same line. */
  lemma FirstLine(x: string, u: string, y: string, v: string)
    requires '\n' !in x && '\n' !in y
    requires (u == "" || u[0] == '\n') && (v == "" || v[0] == '\n')
    requires x + u == y + v
    ensures x == y && u == v
  {
    assert forall i :: 0 <= i < |x| ==> (x + u)[i] == x[i];
    assert forall i :: 0 <= i < |y| ==> (y + v)[i] == y[i];
    assert u != "" ==> (x + u)[|x|] == '\n';
    assert v != "" ==> (y + v)[|y|] == '\n';
    assert x == (x + u)[..|x|] && y == (y + v)[..|y|];
    assert u == (x + u)[|x|..] && v == (y + v)[|y|..];
  }

  lemma JoinedStarts(grants: seq<Id>)
    requires forall g :: g in grants ==> OneLine(g)
    ensures grants != [] ==> OneLine(grants[0]) && Joined(grants) == grants[0] + Tail(grants) && Joined(grants) != ""
  {
  }

  lemma {:induction false} JoinedInjective(a: seq<Id>, b: seq<Id>)
    requires forall g :: g in a || g in b ==> OneLine(g)
    requires Joined(a) == Joined(b)
    ensures a == b
  {
    JoinedStarts(a);
    JoinedStarts(b);
    if a != [] && b != [] {
      hide Joined;
      FirstLine(a[0], Tail(a), b[0], Tail(b));
      if |a| > 1 && |b| > 1 {
        assert Joined(a[1..]) == Tail(a)[1..] && Joined(b[1..]) == Tail(b)[1..];
        JoinedInjective(a[1..], b[1..]);
      }
      assert a == [a[0]] + a[1..] && b == [b[0]] + b[1..];
    }
  }

  lemma MarkerDetermines(a: seq<Id>, b: seq<Id>)
    requires forall g :: g in a || g in b ==> OneLine(g)
    requires Marker(Joined(b)) in RowsOf(a)
    ensures a == b
  {
    JoinedInjective(a, b);
  }

  // ---------- what a publication keeps ----------

  lemma PublishKeeps(t: Tables, h: History, op: Op)
    requires op.Publish? && SnapshotOk(t, h, op.k) && Transact(t, op).Some?
    requires forall g :: g in op.grants ==> OneLine(g)
    ensures SnapshotOk(Transact(t, op).value, Remember(t, h, op), op.k)
  {
    if !Renewed(t, op.k, op.digest, op.grants) {
      MarkerDetermines(Last(h.published[op.k]).grants, op.grants);
    }
    hide Joined, RowsOf, Distinct, Mints;
  }

  lemma SnapshotsKept(s: State, op: Op)
    requires Inv(s) && Allowed(s, op)
    ensures SnapshotsOk(Do(s, op).t, Do(s, op).h)
  {
    Frames(s, op);
    hide BatchesOk, TokensOk, HashesOk, DevicesOk, SerialsOk, RelaysOk, MintedOk;
    if Transact(s.t, op).None? {
      hide Transact;
    } else if op.Publish? {
      PublishKeeps(s.t, s.h, op);
      forall k ensures SnapshotOk(Do(s, op).t, Do(s, op).h, k) {
        assert SnapshotOk(s.t, s.h, k);
        hide RowsOf, Joined, Distinct, Mints;
      }
    } else if op.DeleteHost? {
      forall k ensures SnapshotOk(Do(s, op).t, Do(s, op).h, k) {
        assert SnapshotOk(s.t, s.h, k);
        hide RowsOf, Joined, Distinct, Mints;
      }
    } else {
      forall k ensures SnapshotOk(Do(s, op).t, Do(s, op).h, k) {
        assert SnapshotOk(s.t, s.h, k);
        hide Do, RowsOf;
      }
    }
  }

  // ---------- every reachable state ----------

  lemma StepKeeps(s: State, op: Op)
    requires Inv(s) && Allowed(s, op)
    ensures Inv(Do(s, op))
  {
    BatchesKept(s, op);
    TokensKept(s, op);
    HashesKept(s, op);
    DevicesKept(s, op);
    SerialsKept(s, op);
    MintedKept(s, op);
    RelaysKept(s, op);
    SnapshotsKept(s, op);
    hide BatchesOk, TokensOk, HashesOk, DevicesOk, SerialsOk, RelaysOk, MintedOk, SnapshotsOk, Do, Allowed;
  }

  lemma InitialHolds()
    ensures Inv(INITIAL)
  {
  }

  lemma RunStarts(trace: seq<State>, ops: seq<Op>)
    requires Run(trace, ops)
    ensures |trace| == |ops| + 1 && trace[0] == INITIAL
  {
    hide Do, Allowed;
  }

  lemma RunSteps(trace: seq<State>, ops: seq<Op>, i: nat)
    requires Run(trace, ops) && i < |ops|
    ensures |trace| == |ops| + 1 && Allowed(trace[i], ops[i]) && trace[i + 1] == Do(trace[i], ops[i])
  {
    hide Do, Allowed;
  }

  lemma {:induction false} Reachable(trace: seq<State>, ops: seq<Op>, i: nat)
    requires Run(trace, ops) && i < |trace|
    ensures Inv(trace[i])
  {
    hide *;
    RunStarts(trace, ops);
    if i == 0 {
      InitialHolds();
    } else {
      Reachable(trace, ops, i - 1);
      RunSteps(trace, ops, i - 1);
      StepKeeps(trace[i - 1], ops[i - 1]);
    }
  }

  // ---------- generations ----------

  predicate IsPrefix(p: seq<Publication>, q: seq<Publication>) {
    |p| <= |q| && q[..|p|] == p
  }

  lemma PublishedGrows(s: State, op: Op, k: Login)
    requires SnapshotsOk(s.t, s.h) && op != DeleteHost(k.host)
    ensures IsPrefix(Past(s.h, k), Past(Do(s, op).h, k))
  {
    Frames(s, op);
    if op.Publish? || op.DeleteHost? {
      hide Renewed;
    } else {
      hide Do;
    }
  }

  lemma SnapshotsOfInv(s: State)
    requires Inv(s)
    ensures SnapshotsOk(s.t, s.h)
  {
  }

  lemma {:induction false} PublicationsStay(trace: seq<State>, ops: seq<Op>, i: nat, j: nat, k: Login)
    requires Run(trace, ops) && i <= j < |trace|
    requires forall n :: i <= n < j ==> ops[n] != DeleteHost(k.host)
    ensures IsPrefix(Past(trace[i].h, k), Past(trace[j].h, k))
    decreases j - i
  {
    hide Do, Allowed, Past, Run, Inv, SnapshotsOk;
    if i == j {
    } else {
      RunStarts(trace, ops);
      RunSteps(trace, ops, j - 1);
      PublicationsStay(trace, ops, i, j - 1, k);
      Reachable(trace, ops, j - 1);
      SnapshotsOfInv(trace[j - 1]);
      PublishedGrows(trace[j - 1], ops[j - 1], k);
    }
  }

  /**
   Until its host is deleted, a login's generation never decreases, and the same generation
   always means the same digest and the same recorded rows.
   */
  lemma GenerationsNeverDecrease(trace: seq<State>, ops: seq<Op>, i: nat, j: nat, k: Login)
    requires Run(trace, ops) && i <= j < |trace| && k in trace[i].t.snapshots
    requires forall n :: i <= n < j ==> ops[n] != DeleteHost(k.host)
    ensures k in trace[j].t.snapshots
    ensures trace[i].t.snapshots[k].generation <= trace[j].t.snapshots[k].generation
    ensures trace[i].t.snapshots[k].generation == trace[j].t.snapshots[k].generation ==>
              trace[i].t.snapshots[k] == trace[j].t.snapshots[k] && RowsAt(trace[i].t, k) == RowsAt(trace[j].t, k)
  {
    hide Run, RowsOf;
    Reachable(trace, ops, i);
    Reachable(trace, ops, j);
    PublicationsStay(trace, ops, i, j, k);
    hide BatchesOk, TokensOk, HashesOk, DevicesOk, SerialsOk, RelaysOk, MintedOk;
    assert SnapshotOk(trace[i].t, trace[i].h, k) && SnapshotOk(trace[j].t, trace[j].h, k);
  }

  /** A publication opens a new generation exactly when it changes the digest or the recorded grants. */
  lemma PublicationExact(trace: seq<State>, ops: seq<Op>, i: nat)
    requires Run(trace, ops) && i < |ops| && ops[i].Publish? && Distinct(ops[i].grants)
    ensures var k, t, t' := ops[i].k, trace[i].t, trace[i + 1].t;
            && Current(t', k, NextGeneration(t, k, ops[i].digest, ops[i].grants), ops[i].digest)
            && RowsAt(t', k) == RowsOf(ops[i].grants)
            && (k in t.snapshots ==>
                  (t'.snapshots[k].generation == t.snapshots[k].generation <==>
                   t.snapshots[k].digest == ops[i].digest && RowsAt(t, k) == RowsOf(ops[i].grants)))
  {
    hide Run, BatchesOk, TokensOk, HashesOk, DevicesOk, SerialsOk, RelaysOk, MintedOk, Mints, Joined, Numbered;
    RunSteps(trace, ops, i);
    Reachable(trace, ops, i);
    var k, s := ops[i].k, trace[i];
    assert SnapshotOk(s.t, s.h, k);
    if k in s.t.snapshots && Marker(Joined(ops[i].grants)) in RowsAt(s.t, k) {
      MarkerDetermines(Last(s.h.published[k]).grants, ops[i].grants);
    }
  }

  lemma CurrentIsPublished(trace: seq<State>, ops: seq<Op>, j: nat, k: Login, generation: int, digest: string)
    requires Run(trace, ops) && j < |trace| && Current(trace[j].t, k, generation, digest)
    ensures 1 <= generation <= |Past(trace[j].h, k)| && Past(trace[j].h, k)[generation - 1].digest == digest
  {
    hide Run, RowsOf;
    Reachable(trace, ops, j);
    hide BatchesOk, TokensOk, HashesOk, DevicesOk, SerialsOk, RelaysOk, MintedOk;
    assert SnapshotOk(trace[j].t, trace[j].h, k);
  }

  /**
   The generation a publisher answers is read later, when others may have published too: it is
   one whose publication has the publisher's digest, and no older than the publisher's own.
   */
  lemma AnsweredGenerationIsPublished(trace: seq<State>, ops: seq<Op>, i: nat, j: nat, generation: int)
    requires Run(trace, ops) && i < j < |trace| && ops[i].Publish? && Distinct(ops[i].grants)
    requires GenerationOf(trace[j].t, ops[i].k, ops[i].digest) == Some(generation)
    ensures 1 <= generation <= |Past(trace[j].h, ops[i].k)|
    ensures Past(trace[j].h, ops[i].k)[generation - 1].digest == ops[i].digest
    ensures (forall n :: i <= n < j ==> ops[n] != DeleteHost(ops[i].k.host)) ==>
              NextGeneration(trace[i].t, ops[i].k, ops[i].digest, ops[i].grants) <= generation
  {
    var k := ops[i].k;
    hide Run, RowsOf, Joined, Distinct, NextGeneration, Renewed, Past, RowsAt;
    RunStarts(trace, ops);
    CurrentIsPublished(trace, ops, j, k, generation, ops[i].digest);
    PublicationExact(trace, ops, i);
    if forall n :: i <= n < j ==> ops[n] != DeleteHost(k.host) {
      GenerationsNeverDecrease(trace, ops, i + 1, j, k);
    }
  }

  // ---------- acknowledgements ----------

  /** An acknowledgement succeeds exactly when it names the current snapshot. */
  lemma AcknowledgementExact(trace: seq<State>, ops: seq<Op>, i: nat, k: Login, generation: int, digest: string,
      now: int)
    requires Run(trace, ops) && i < |trace|
    ensures AccessTables.Acknowledge(trace[i].t, k, generation, digest, now).1 <==>
              |digest| == 64 && Current(trace[i].t, k, generation, digest)
  {
    hide Run;
    Reachable(trace, ops, i);
    var s := trace[i];
    assert SnapshotOk(s.t, s.h, k);
    hide BatchesOk, TokensOk, HashesOk, DevicesOk, SerialsOk, RelaysOk, MintedOk;
    if k in s.t.snapshots {
      assert Marker(Joined(Last(s.h.published[k]).grants)) in RowsAt(s.t, k);
    }
  }

  predicate IsInstalled(s: State, g: Id) {
    g in s.t.grants && s.t.grants[g].installed
  }

  /** The step that installs a grant, and what had been published. */
  predicate InstalledBy(s: State, op: Op, g: Id) {
    && op.Acknowledge?
    && Current(s.t, op.k, op.generation, op.digest)
    && 1 <= op.generation <= |Past(s.h, op.k)|
    && Past(s.h, op.k)[op.generation - 1].digest == op.digest
    && g in Past(s.h, op.k)[op.generation - 1].grants
    && g in s.t.grants
    && Login(s.t.grants[g].host, s.t.grants[g].account) == op.k
    && s.t.grants[g].expires > op.now
  }

  lemma GrantRowsMove(s: State, op: Op, g: Id)
    requires !IsInstalled(s, g) && IsInstalled(Do(s, op), g)
    ensures op.Acknowledge? && 1 <= op.generation && Installs(s.t, op.k, op.generation, op.digest, op.now, g)
  {
    Frames(s, op);
    if op.DeleteHost? || op.CreateGrant? || op.IssueAccess? || op.DeleteDevice? || op.Acknowledge? {
      hide Installs, Available, Mints, Remember;
    } else {
      hide Do;
    }
  }

  lemma InstallStep(s: State, op: Op, g: Id)
    requires SnapshotsOk(s.t, s.h) && !IsInstalled(s, g) && IsInstalled(Do(s, op), g)
    ensures InstalledBy(s, op, g)
  {
    GrantRowsMove(s, op, g);
    assert SnapshotOk(s.t, s.h, op.k);
    hide Do;
  }

  lemma InstallStepOfRun(trace: seq<State>, ops: seq<Op>, i: nat, g: Id)
    requires Run(trace, ops) && i < |ops| && !IsInstalled(trace[i], g) && IsInstalled(trace[i + 1], g)
    ensures InstalledBy(trace[i], ops[i], g)
  {
    hide *;
    RunSteps(trace, ops, i);
    Reachable(trace, ops, i);
    SnapshotsOfInv(trace[i]);
    InstallStep(trace[i], ops[i], g);
  }

  lemma NothingInstalledAtFirst(trace: seq<State>, ops: seq<Op>, g: Id)
    requires Run(trace, ops)
    ensures |trace| == |ops| + 1 && !IsInstalled(trace[0], g)
  {
    RunStarts(trace, ops);
    hide Run;
  }

  /** A grant is installed only by an acknowledgement of a generation that recorded it. */
  lemma {:induction false} InstalledWasPublished(trace: seq<State>, ops: seq<Op>, j: nat, g: Id)
    requires Run(trace, ops) && j < |trace| && IsInstalled(trace[j], g)
    ensures exists i :: 0 <= i < j && InstalledBy(trace[i], ops[i], g)
  {
    hide *;
    NothingInstalledAtFirst(trace, ops, g);
    if j > 0 && IsInstalled(trace[j - 1], g) {
      InstalledWasPublished(trace, ops, j - 1, g);
    } else if j > 0 {
      InstallStepOfRun(trace, ops, j - 1, g);
    }
  }
}
