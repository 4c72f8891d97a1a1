/**
 What each operation does to the rows, column by column, and what that means for the operations
 that come after it (internal/store/store.go).
 */
module AccessEffects {
  import opened Prelude
  import opened Names
  import opened AccessTables
  import opened AccessRuns
  import opened AccessSnapshots
  import opened AccessStore

  /** Every row but one is as it was. */
  ghost predicate Others<V>(was: map<Id, V>, now: map<Id, V>, except: Id) {
    forall j :: j != except ==> (j in now <==> j in was) && (j in was ==> now[j] == was[j])
  }

  /** The host can be reached: it is not marked revoked and a device of it is not revoked. */
  ghost predicate Up(t: Tables, host: Id) {
    && host in t.hosts && t.hosts[host].status != Revoked
    && exists d :: d in t.devices && t.devices[d].host == host && !t.devices[d].revoked
  }

  // ---------- access ----------

  /** An issued grant is the caller's own; without a reachable host nothing is written. */
  lemma IssueEffect(t: Tables, requestId: Id, id: Id, user: string, host: Id, account: string, expires: int)
    ensures var t' := AccessTables.IssueAccess(t, requestId, id, user, host, account, expires);
            if Up(t, host) then
              && t' == t.(requests := t'.requests, grants := t'.grants)
              && Others(t.requests, t'.requests, requestId) && requestId in t'.requests
              && t'.requests[requestId].user == user && t'.requests[requestId].host == host
              && t'.requests[requestId].account == account && t'.requests[requestId].approved
              && Others(t.grants, t'.grants, id) && id in t'.grants
              && t'.grants[id].user == user && t'.grants[id].host == host && t'.grants[id].account == account
              && t'.grants[id].expires == expires && t'.grants[id].request == requestId && !t'.grants[id].installed
            else t' == t
  {
  }

  lemma CreateGrantEffect(t: Tables, id: Id, g: Grant)
    ensures var t' := AccessTables.CreateGrant(t, id, g);
            if Up(t, g.host) then
              && t' == t.(grants := t'.grants) && Others(t.grants, t'.grants, id) && id in t'.grants
              && t'.grants[id].user == g.user && t'.grants[id].host == g.host && t'.grants[id].account == g.account
              && t'.grants[id].expires == g.expires && t'.grants[id].request == g.request && !t'.grants[id].installed
            else t' == t
  {
  }

  lemma CreateRelayEffect(t: Tables, id: Id, host: Id, client: string, expires: int)
    ensures var t' := AccessTables.CreateRelay(t, id, host, client, expires);
            if Up(t, host) then
              && t' == t.(relays := t'.relays) && Others(t.relays, t'.relays, id) && id in t'.relays
              && t'.relays[id].host == host && t'.relays[id].client == client && t'.relays[id].expires == expires
            else t' == t
  {
  }

  /** A renewal replaces the grants of this client on this host, and nobody else's. */
  lemma RenewRelayEffect(t: Tables, id: Id, host: Id, client: string, expires: int)
    requires id !in t.relays
    ensures var t' := AccessTables.RenewRelay(t, id, host, client, expires);
            if Up(t, host) then
              && t' == t.(relays := t'.relays) && id in t'.relays
              && t'.relays[id].host == host && t'.relays[id].client == client && t'.relays[id].expires == expires
              && (forall r :: r in t'.relays && r != id ==> r in t.relays && t'.relays[r] == t.relays[r])
              && (forall r :: r in t.relays ==>
                    (r in t'.relays <==> t.relays[r].host != host || t.relays[r].client != client))
            else t' == t
  {
  }

  /** `RelayEndpointAllowed`. */
  predicate RelayAllowed(t: Tables, client: string, now: int) {
    exists r ::
      r in t.relays && t.relays[r].client == client && t.relays[r].expires > now && Available(t, t.relays[r].host)
  }

  /** A relay grant lets its client in until it expires. */
  lemma RelayLetsIn(t: Tables, id: Id, host: Id, client: string, expires: int, now: int)
    requires Up(t, host) && now < expires && id !in t.relays
    ensures RelayAllowed(AccessTables.CreateRelay(t, id, host, client, expires), client, now)
    ensures RelayAllowed(AccessTables.RenewRelay(t, id, host, client, expires), client, now)
  {
    var made := AccessTables.CreateRelay(t, id, host, client, expires);
    assert made.relays[id].client == client;
    var renewed := AccessTables.RenewRelay(t, id, host, client, expires);
    assert renewed.relays[id].client == client;
  }

  // ---------- what a snapshot holds ----------

  /** A grant is live for a login exactly if it is the login's, not expired, and the host is reachable. */
  lemma LiveGrantsExact(t: Tables, k: Login, now: int, g: Id)
    ensures g in LiveGrants(t, k, now) <==>
              && g in t.grants && t.grants[g].host == k.host && t.grants[g].account == k.account
              && t.grants[g].expires > now && Up(t, k.host)
  {
  }

  /** A key line is a key of the user of a live grant, with that grant's deadline. */
  lemma KeyLinesExact(t: Tables, k: Login, now: int, text: string, deadline: int)
    ensures (text, deadline) in KeyLines(t, k, now) <==>
              Up(t, k.host) && exists g, s ::
                && g in t.grants && s in t.keys && t.grants[g].host == k.host && t.grants[g].account == k.account
                && t.grants[g].expires == deadline && deadline > now
                && t.keys[s].user == t.grants[g].user && t.keys[s].text == text
  {
    if (text, deadline) in KeyLines(t, k, now) {
      var g, s :| g in t.grants && s in t.keys && LiveGrant(t, k, now, g) && t.keys[s].user == t.grants[g].user
        && (text, deadline) == (t.keys[s].text, t.grants[g].expires);
      assert t.grants[g].host == k.host;
    }
  }

  /** The lines a grant brings to its own login until it expires. */
  ghost predicate BroughtBy(t: Tables, user: string, expires: int, now: int, text: string, deadline: int) {
    expires > now && deadline == expires && exists s :: s in t.keys && t.keys[s].user == user && t.keys[s].text == text
  }

  /**
   Issuing access to a reachable host adds the user's own keys, with the grant's deadline, to the one
   login it names, until it expires; no other login's lines move.
   */
  lemma IssueGivesKeys(t: Tables, requestId: Id, id: Id, user: string, host: Id, account: string, expires: int,
      k: Login, now: int, text: string, deadline: int)
    requires Up(t, host) && id !in t.grants
    ensures var t' := AccessTables.IssueAccess(t, requestId, id, user, host, account, expires);
            (text, deadline) in KeyLines(t', k, now) <==>
              || (text, deadline) in KeyLines(t, k, now)
              || (k == Login(host, account) && BroughtBy(t, user, expires, now, text, deadline))
  {
    IssueEffect(t, requestId, id, user, host, account, expires);
    var t' := AccessTables.IssueAccess(t, requestId, id, user, host, account, expires);
    KeyLinesExact(t, k, now, text, deadline);
    KeyLinesExact(t', k, now, text, deadline);
    hide KeyLines, AccessTables.IssueAccess;
    if (text, deadline) in KeyLines(t', k, now) {
      var g, s :| g in t'.grants && s in t'.keys && t'.grants[g].host == k.host && t'.grants[g].account == k.account
        && t'.grants[g].expires == deadline && deadline > now
        && t'.keys[s].user == t'.grants[g].user && t'.keys[s].text == text;
      assert s in t.keys;
    }
    if (text, deadline) in KeyLines(t, k, now) {
      var g, s :| g in t.grants && s in t.keys && t.grants[g].host == k.host && t.grants[g].account == k.account
        && t.grants[g].expires == deadline && deadline > now
        && t.keys[s].user == t.grants[g].user && t.keys[s].text == text;
      assert g in t'.grants && t'.grants[g] == t.grants[g] && s in t'.keys;
    }
    if k == Login(host, account) && BroughtBy(t, user, expires, now, text, deadline) {
      var s :| s in t.keys && t.keys[s].user == user && t.keys[s].text == text;
      assert id in t'.grants && s in t'.keys;
    }
  }

  // ---------- acknowledgements ----------

  /** Recorded under this generation, this login's, not expired, and of a user with a key. */
  ghost predicate ToInstall(s: State, k: Login, generation: int, now: int, g: Id)
    requires 1 <= generation <= |Past(s.h, k)|
  {
    && g in Past(s.h, k)[generation - 1].grants
    && g in s.t.grants && s.t.grants[g].host == k.host && s.t.grants[g].account == k.account
    && s.t.grants[g].expires > now
    && exists x :: x in s.t.keys && s.t.keys[x].user == s.t.grants[g].user
  }

  /**
   In every run a successful acknowledgement installs exactly the grants that the acknowledged
   generation recorded, as far as they are still the login's, unexpired and of a user with a key.
   */
  lemma AcknowledgementInstalls(trace: seq<State>, ops: seq<Op>, i: nat, k: Login, generation: int, digest: string,
      now: int)
    requires Run(trace, ops) && i < |trace| && |digest| == 64 && Current(trace[i].t, k, generation, digest)
    ensures 1 <= generation <= |Past(trace[i].h, k)|
    ensures var t' := AccessTables.Acknowledge(trace[i].t, k, generation, digest, now).0;
            && t' == trace[i].t.(grants := t'.grants)
            && t'.grants.Keys == trace[i].t.grants.Keys
            && forall g :: g in t'.grants ==>
                 t'.grants[g] == trace[i].t.grants[g].(
                   installed := trace[i].t.grants[g].installed || ToInstall(trace[i], k, generation, now, g))
  {
    hide Run;
    Reachable(trace, ops, i);
    CurrentIsPublished(trace, ops, i, k, generation, digest);
    hide BatchesOk, TokensOk, HashesOk, DevicesOk, SerialsOk, RelaysOk, MintedOk;
    assert SnapshotOk(trace[i].t, trace[i].h, k);
    RecordedRows(trace[i], k);
    hide Joined;
  }

  /** The rows of a snapshot are the grants of its last publication. */
  lemma RecordedRows(s: State, k: Login)
    requires SnapshotOk(s.t, s.h, k) && k in s.t.snapshots
    ensures forall g :: Granted(g) in RowsAt(s.t, k) <==> g in Last(s.h.published[k]).grants
    ensures s.t.snapshots[k].generation == |Past(s.h, k)| && Past(s.h, k) == s.h.published[k]
  {
    hide Joined;
  }

  /** Any other acknowledgement changes nothing. */
  lemma RefusedAcknowledgementChangesNothing(t: Tables, k: Login, generation: int, digest: string, now: int)
    requires !(generation >= 1 && |digest| == 64 && Current(t, k, generation, digest))
    ensures AccessTables.Acknowledge(t, k, generation, digest, now) == (t, false)
  {
    var (t', _) := AccessTables.Acknowledge(t, k, generation, digest, now);
    assert t'.grants == t.grants;
  }

  /** A publication records exactly the listed grants, for this login only. */
  lemma PublishEffect(t: Tables, k: Login, digest: string, listed: seq<Id>)
    requires forall i, j :: 0 <= i < j < |listed| ==> listed[i] != listed[j]
    ensures AccessTables.Publish(t, k, digest, listed).Some?
    ensures var t' := AccessTables.Publish(t, k, digest, listed).value;
            && t' == t.(snapshots := t'.snapshots, rows := t'.rows)
            && (forall j :: j != k ==> (j in t'.snapshots <==> j in t.snapshots) && (j in t'.rows <==> j in t.rows))
            && (forall j :: j != k && j in t.snapshots ==> t'.snapshots[j] == t.snapshots[j])
            && (forall j :: j != k && j in t.rows ==> t'.rows[j] == t.rows[j])
            && k in t'.snapshots && t'.snapshots[k].digest == digest && k in t'.rows
            && (forall g :: Granted(g) in t'.rows[k] <==> g in listed)
            && (k !in t.snapshots ==> t'.snapshots[k].generation == 1)
            && (k in t.snapshots ==>
                  t.snapshots[k].generation <= t'.snapshots[k].generation <= t.snapshots[k].generation + 1)
  {
    hide Joined;
  }

  /** Published and acknowledged before anything else moves: every live grant of a user with a key is installed. */
  lemma PublishedThenInstalled(t: Tables, k: Login, digest: string, listed: seq<Id>, now: int)
    requires Distinct(listed) && (set g | g in listed) == LiveGrants(t, k, now) && |digest| == 64
    requires k in t.snapshots ==> t.snapshots[k].generation >= 1
    ensures var t' := AccessTables.Publish(t, k, digest, listed).value;
            && k in t'.snapshots
            && AccessTables.Acknowledge(t', k, t'.snapshots[k].generation, digest, now).1
            && var t'' := AccessTables.Acknowledge(t', k, t'.snapshots[k].generation, digest, now).0;
               && t'' == t'.(grants := t''.grants) && t''.grants.Keys == t.grants.Keys
               && forall g :: g in t''.grants ==>
                    t''.grants[g] == t.grants[g].(
                      installed := || t.grants[g].installed
                                   || (g in LiveGrants(t, k, now) && HasKey(t, t.grants[g].user)))
  {
    PublishEffect(t, k, digest, listed);
    var t' := AccessTables.Publish(t, k, digest, listed).value;
    var generation := t'.snapshots[k].generation;
    MarkerIsThere(t, k, digest, listed);
    forall g | g in t.grants
      ensures Installs(t', k, generation, digest, now, g) <==>
                g in LiveGrants(t, k, now) && HasKey(t, t.grants[g].user)
    {
      assert g in listed <==> g in LiveGrants(t, k, now);
    }
    hide Joined, LiveGrant, AccessTables.Publish, Installs;
  }

  lemma MarkerIsThere(t: Tables, k: Login, digest: string, listed: seq<Id>)
    requires Distinct(listed)
    ensures var t' := AccessTables.Publish(t, k, digest, listed).value;
            HasMarker(RowsAt(t', k)) && (k !in t.snapshots ==> t'.snapshots[k].generation == 1)
  {
    assert Marker(Joined(listed)) in RowsOf(listed);
    hide Joined;
  }

  // ---------- the order of a listing ----------

  type Order = (Id, Id) -> bool

  /** ORDER BY on a unique column. */
  predicate Sorted(before: Order, listed: seq<Id>) {
    forall i, j :: 0 <= i < j < |listed| ==> before(listed[i], listed[j])
  }

  ghost predicate Strict(before: Order) {
    forall a, b :: before(a, b) ==> !before(b, a)
  }

  lemma SortedIsDistinct(before: Order, listed: seq<Id>)
    requires Strict(before) && Sorted(before, listed)
    ensures Distinct(listed)
  {
  }

  /** One set of grants is listed in one way, so publishing an unchanged set opens no generation. */
  lemma {:induction false} SortedIsUnique(before: Order, a: seq<Id>, b: seq<Id>)
    requires Strict(before) && Sorted(before, a) && Sorted(before, b)
    requires forall g :: g in a <==> g in b
    ensures a == b
  {
    assert a != [] ==> a[0] in a;
    assert b != [] ==> b[0] in b;
    if a != [] {
      assert b[0] in b && a[0] in a;
      var i :| 0 <= i < |a| && a[i] == b[0];
      var j :| 0 <= j < |b| && b[j] == a[0];
      assert a[0] == b[0];
      assert a == [a[0]] + a[1..] && b == [b[0]] + b[1..];
      forall g ensures g in a[1..] <==> g in b[1..] {
        TailMembers(before, a, g);
        TailMembers(before, b, g);
      }
      SortedIsUnique(before, a[1..], b[1..]);
    }
  }

  lemma TailMembers(before: Order, a: seq<Id>, g: Id)
    requires Strict(before) && Sorted(before, a) && a != []
    ensures g in a[1..] <==> g in a && g != a[0]
  {
    if g in a && g != a[0] {
      var i :| 0 < i < |a| && a[i] == g;
      assert a[1..][i - 1] == g;
    }
  }

  /** Publishing over a sorted listing opens a generation exactly for another digest or another set of grants. */
  lemma UnchangedKeepsGeneration(before: Order, t: Tables, k: Login, digest: string, was: seq<Id>, listed: seq<Id>)
    requires Strict(before) && Sorted(before, was) && Sorted(before, listed)
    requires forall g :: g in was || g in listed ==> OneLine(g)
    requires k in t.snapshots && RowsAt(t, k) == RowsOf(was)
    ensures AccessTables.Publish(t, k, digest, listed).Some?
    ensures AccessTables.Publish(t, k, digest, listed).value.snapshots[k].generation == t.snapshots[k].generation <==>
              t.snapshots[k].digest == digest && forall g :: g in was <==> g in listed
  {
    SortedIsDistinct(before, listed);
    MarkerNamesSet(before, was, listed);
    hide Joined, Sorted, Strict, OneLine, RowsOf;
  }

  lemma MarkerNamesSet(before: Order, was: seq<Id>, listed: seq<Id>)
    requires Strict(before) && Sorted(before, was) && Sorted(before, listed)
    requires forall g :: g in was || g in listed ==> OneLine(g)
    ensures Marker(Joined(listed)) in RowsOf(was) <==> forall g :: g in was <==> g in listed
  {
    assert Marker(Joined(was)) in RowsOf(was);
    if Marker(Joined(listed)) in RowsOf(was) {
      MarkerDetermines(was, listed);
    } else if forall g :: g in was <==> g in listed {
      SortedIsUnique(before, was, listed);
    }
    hide *;
  }
}
