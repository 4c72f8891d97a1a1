/**
 Logged-out sessions stay out (internal/auth/auth.go, internal/store/store.go).

 Server nodes share the table of revoked sessions and read their own clocks. A call's clock
 readings and its statements are separate steps, so time passes and other nodes act between
 them. Clocks never go back, and differ by no more than the run's `skew`.
 */
module Sessions {
  import opened Prelude

  type Node = nat
  type Cookie = nat
  type Call = nat

  /** How long a row outlives its session. */
  const RETENTION := 600

  /** The expiry a cookie's signed value carries, if the signature and the issuer are right. */
  type Signed = Cookie -> Option<int>

  datatype Stage =
    | Waiting
      // RevokeSession
    | Revoking(cookie: Cookie)
    | Revoked(cookie: Cookie)
    | Sweeping(cutoff: int)
    | Done
      // the middleware
    | Verified(cookie: Cookie)
    | Asking(cookie: Cookie, at: int)
    | Unblocked(cookie: Cookie, late: bool)
    | Admitted(cookie: Cookie, late: bool)
    | Refused

  /** `late` notes that the lookup ran after the revocation. */
  datatype State = State(clock: map<Node, int>, rows: map<Cookie, int>, revoked: set<Cookie>, home: map<Call, Node>,
    stage: map<Call, Stage>)

  datatype Step =
    | Tick(clock: map<Node, int>)
    | Arrive(call: Call, node: Node)
    | CheckRevocation(call: Call, cookie: Cookie)
    | Insert(call: Call)
    | TakeCutoff(call: Call)
    | Sweep(call: Call, gone: set<Cookie>)
    | Verify(call: Call, cookie: Cookie)
    | Ask(call: Call)
    | Lookup(call: Call)
    | Recheck(call: Call)

  predicate Close(clock: map<Node, int>, skew: int) {
    forall m, n :: m in clock && n in clock ==> clock[m] - clock[n] <= skew
  }

  function At(s: State, call: Call): Stage {
    if call in s.stage then s.stage[call] else Done
  }

  predicate Running(s: State, call: Call) {
    call in s.stage && call in s.home && s.home[call] in s.clock
  }

  function Now(s: State, call: Call): int
    requires Running(s, call)
  {
    s.clock[s.home[call]]
  }

  function Go(s: State, call: Call, stage: Stage): Option<State> {
    Some(s.(stage := s.stage[call := stage]))
  }

  /** `verifySessionAt`: a good signature, not yet expired. */
  predicate Fresh(signed: Signed, cookie: Cookie, now: int) {
    signed(cookie).Some? && signed(cookie).value > now
  }

  /** Up to the statement's limit, expired rows go; which of them is up to the database. */
  predicate MaySweep(rows: map<Cookie, int>, gone: set<Cookie>, cutoff: int) {
    |gone| <= 100 && forall c :: c in gone ==> c in rows && rows[c] <= cutoff
  }

  function Do(signed: Signed, skew: int, s: State, step: Step): Option<State> {
    match step
    case Tick(clock) =>
      if clock.Keys == s.clock.Keys && (forall n :: n in clock ==> s.clock[n] <= clock[n]) && Close(clock, skew)
      then Some(s.(clock := clock)) else None
    case Arrive(call, node) =>
      if call in s.stage || node !in s.clock then None
      else Some(s.(home := s.home[call := node], stage := s.stage[call := Waiting]))
    case CheckRevocation(call, cookie) =>
      if !Running(s, call) || At(s, call) != Waiting || !Fresh(signed, cookie, Now(s, call)) then None
      else Go(s, call, Revoking(cookie))
    case Insert(call) =>
      if !At(s, call).Revoking? || signed(At(s, call).cookie).None? then None
      else
        var c := At(s, call).cookie;
        Go(s.(rows := s.rows[c := signed(c).value], revoked := s.revoked + {c}), call, Revoked(c))
    case TakeCutoff(call) =>
      if !Running(s, call) || !At(s, call).Revoked? then None
      else Go(s, call, Sweeping(Now(s, call) - RETENTION))
    case Sweep(call, gone) =>
      if !At(s, call).Sweeping? || !MaySweep(s.rows, gone, At(s, call).cutoff) then None
      else Go(s.(rows := s.rows - gone), call, Done)
    case Verify(call, cookie) =>
      if !Running(s, call) || At(s, call) != Waiting then None
      else Go(s, call, if Fresh(signed, cookie, Now(s, call)) then Verified(cookie) else Refused)
    case Ask(call) =>
      if !Running(s, call) || !At(s, call).Verified? then None
      else Go(s, call, Asking(At(s, call).cookie, Now(s, call)))
    case Lookup(call) =>
      if !At(s, call).Asking? then None
      else
        var Asking(c, at) := At(s, call);
        Go(s, call, if c in s.rows && s.rows[c] > at then Refused else Unblocked(c, c in s.revoked))
    case Recheck(call) =>
      if !Running(s, call) || !At(s, call).Unblocked? then None
      else
        var Unblocked(c, late) := At(s, call);
        Go(s, call, if Fresh(signed, c, Now(s, call)) then Admitted(c, late) else Refused)
  }

  predicate Initial(s: State, skew: int) {
    s.rows == map[] && s.revoked == {} && s.home == map[] && s.stage == map[] && Close(s.clock, skew)
  }

  ghost predicate Run(signed: Signed, skew: int, trace: seq<State>, steps: seq<Step>) {
    && |trace| == |steps| + 1
    && Initial(trace[0], skew)
    && forall i :: 0 <= i < |steps| ==> Do(signed, skew, trace[i], steps[i]) == Some(trace[i + 1])
  }

  // ---------- what every state keeps ----------

  /** No clock shows the session as still valid. */
  predicate Over(signed: Signed, s: State, c: Cookie) {
    signed(c).Some? && forall n :: n in s.clock ==> signed(c).value <= s.clock[n]
  }

  /** A call's own readings are not ahead of its clock; a late lookup leaves only an expired session. */
  predicate CallOk(signed: Signed, s: State, call: Call) {
    && Running(s, call)
    && match s.stage[call] {
         case Revoking(c) => signed(c).Some?
         case Sweeping(cutoff) => cutoff + RETENTION <= Now(s, call)
         case Asking(_, at) => at <= Now(s, call)
         case Unblocked(c, late) => late ==> signed(c).Some? && signed(c).value <= Now(s, call)
         case Admitted(_, late) => !late
         case _ => true
       }
  }

  ghost predicate Inv(signed: Signed, skew: int, s: State) {
    && Close(s.clock, skew)
    && (forall c :: c in s.rows ==> signed(c) == Some(s.rows[c]))
    && (forall c :: c in s.revoked ==> c in s.rows || Over(signed, s, c))
    && (forall call :: call in s.stage ==> CallOk(signed, s, call))
  }

  /**
   A swept session is over everywhere: the sweeping clock was past it by the retention, and no clock is further
   behind.
   */
  lemma SweptIsOver(signed: Signed, skew: int, s: State, call: Call, c: Cookie)
    requires skew <= RETENTION && Inv(signed, skew, s)
    requires call in s.stage && s.stage[call].Sweeping? && c in s.rows && s.rows[c] <= s.stage[call].cutoff
    ensures Over(signed, s, c)
  {
    assert CallOk(signed, s, call);
  }

  lemma RevokedKept(signed: Signed, skew: int, s: State, step: Step, c: Cookie)
    requires skew <= RETENTION && Inv(signed, skew, s) && Do(signed, skew, s, step).Some?
    requires c in Do(signed, skew, s, step).value.revoked
    ensures var s' := Do(signed, skew, s, step).value; c in s'.rows || Over(signed, s', c)
  {
    if step.Sweep? && c in s.rows && c in step.gone {
      SweptIsOver(signed, skew, s, step.call, c);
    }
  }

  /** A lookup that finds no row of a revoked session finds it expired. */
  lemma LateLookup(signed: Signed, skew: int, s: State, call: Call, c: Cookie, at: int)
    requires Inv(signed, skew, s) && call in s.stage && s.stage[call] == Asking(c, at)
    requires c in s.revoked && !(c in s.rows && s.rows[c] > at)
    ensures signed(c).Some? && Running(s, call) && signed(c).value <= Now(s, call)
  {
    assert CallOk(signed, s, call);
  }

  lemma CallKept(signed: Signed, skew: int, s: State, step: Step, call: Call)
    requires Inv(signed, skew, s) && Do(signed, skew, s, step).Some?
    requires call in Do(signed, skew, s, step).value.stage
    ensures CallOk(signed, Do(signed, skew, s, step).value, call)
  {
    if call in s.stage {
      assert CallOk(signed, s, call);
    }
    if step.Lookup? && step.call == call && s.stage[call].Asking? {
      var Asking(c, at) := s.stage[call];
      if c in s.revoked && !(c in s.rows && s.rows[c] > at) {
        LateLookup(signed, skew, s, call, c, at);
      }
    }
    hide Inv, Close, MaySweep, Over;
  }

  lemma StepKeeps(signed: Signed, skew: int, s: State, step: Step)
    requires skew <= RETENTION && Inv(signed, skew, s) && Do(signed, skew, s, step).Some?
    ensures Inv(signed, skew, Do(signed, skew, s, step).value)
  {
    var s' := Do(signed, skew, s, step).value;
    forall c | c in s'.revoked ensures c in s'.rows || Over(signed, s', c) {
      RevokedKept(signed, skew, s, step, c);
    }
    forall call | call in s'.stage ensures CallOk(signed, s', call) {
      CallKept(signed, skew, s, step, call);
    }
    hide CallOk, Over;
  }

  lemma {:induction false} Reachable(signed: Signed, skew: int, trace: seq<State>, steps: seq<Step>, i: nat)
    requires Run(signed, skew, trace, steps) && i < |trace| && skew <= RETENTION
    ensures Inv(signed, skew, trace[i])
  {
    if i == 0 {
    } else {
      hide Inv, Do;
      Reachable(signed, skew, trace, steps, i - 1);
      assert Do(signed, skew, trace[i - 1], steps[i - 1]) == Some(trace[i - 1 + 1]);
      StepKeeps(signed, skew, trace[i - 1], steps[i - 1]);
    }
  }

  // ---------- revoked sessions stay out ----------

  /** The call has not looked the cookie up yet. */
  predicate NotYetAsked(s: State, call: Call) {
    call !in s.stage || s.stage[call].Waiting? || s.stage[call].Verified? || s.stage[call].Asking?
  }

  /** Where a call that had not asked when the cookie was revoked can be. */
  predicate LateOrEarly(s: State, call: Call, c: Cookie) {
    && c in s.revoked
    && (call in s.stage && s.stage[call].Unblocked? && s.stage[call].cookie == c ==> s.stage[call].late)
    && (call in s.stage && s.stage[call].Admitted? && s.stage[call].cookie == c ==> s.stage[call].late)
  }

  lemma LateStep(signed: Signed, skew: int, s: State, step: Step, call: Call, c: Cookie)
    requires Do(signed, skew, s, step).Some? && LateOrEarly(s, call, c)
    ensures LateOrEarly(Do(signed, skew, s, step).value, call, c)
  {
    hide Close, MaySweep, Fresh;
  }

  lemma {:induction false} LateRun(signed: Signed, skew: int, trace: seq<State>, steps: seq<Step>, i: nat, j: nat,
      call: Call, c: Cookie)
    requires Run(signed, skew, trace, steps) && i <= j < |trace| && c in trace[i].revoked && NotYetAsked(trace[i], call)
    ensures LateOrEarly(trace[j], call, c)
  {
    if i == j {
    } else {
      hide LateOrEarly, Do;
      LateRun(signed, skew, trace, steps, i, j - 1, call, c);
      assert Do(signed, skew, trace[j - 1], steps[j - 1]) == Some(trace[j - 1 + 1]);
      LateStep(signed, skew, trace[j - 1], steps[j - 1], call, c);
    }
  }

  /**
   Once a session is revoked, no request that has not yet looked it up is ever admitted with
   it, on any node, whatever has been swept.
   */
  lemma RevokedStaysOut(signed: Signed, skew: int, trace: seq<State>, steps: seq<Step>, i: nat, j: nat, call: Call,
      c: Cookie)
    requires skew <= RETENTION && Run(signed, skew, trace, steps) && i <= j < |trace|
    requires c in trace[i].revoked && NotYetAsked(trace[i], call)
    ensures !(At(trace[j], call).Admitted? && At(trace[j], call).cookie == c)
  {
    hide Run, Do;
    Reachable(signed, skew, trace, steps, j);
    LateRun(signed, skew, trace, steps, i, j, call, c);
    if call in trace[j].stage {
      assert CallOk(signed, trace[j], call);
    }
  }

  // ---------- nobody else is kept out ----------

  /** Nothing in between. */
  function Then(signed: Signed, skew: int, s: Option<State>, step: Step): Option<State> {
    if s.None? then None else Do(signed, skew, s.value, step)
  }

  /** The middleware's four steps for a waiting call, if each comes; a refused call takes no further one. */
  function Handled(signed: Signed, skew: int, s: State, call: Call, c: Cookie): Option<State> {
    var asking := Then(signed, skew, Do(signed, skew, s, Verify(call, c)), Ask(call));
    Then(signed, skew, Then(signed, skew, asking, Lookup(call)), Recheck(call))
  }

  lemma HandledAlone(signed: Signed, skew: int, s: State, call: Call, c: Cookie)
    requires Running(s, call) && At(s, call) == Waiting && (c in s.rows ==> signed(c) == Some(s.rows[c]))
    ensures var r := Handled(signed, skew, s, call, c);
            && (r.Some? <==> signed(c).Some? && s.clock[s.home[call]] < signed(c).value && c !in s.rows)
            && (r.Some? ==> At(r.value, call) == Admitted(c, c in s.revoked))
  {
  }

  /** A row was put there by a revocation, and carries its session's own expiry. */
  ghost predicate RowsRevoke(signed: Signed, s: State) {
    forall c :: c in s.rows ==> c in s.revoked && signed(c) == Some(s.rows[c])
  }

  lemma RowsRevokeKept(signed: Signed, skew: int, s: State, step: Step)
    requires RowsRevoke(signed, s) && Do(signed, skew, s, step).Some?
    ensures RowsRevoke(signed, Do(signed, skew, s, step).value)
  {
    hide Close, MaySweep;
  }

  lemma {:induction false} RowsRevokeInRuns(signed: Signed, skew: int, trace: seq<State>, steps: seq<Step>, i: nat)
    requires Run(signed, skew, trace, steps) && i < |trace|
    ensures RowsRevoke(signed, trace[i])
  {
    if i == 0 {
    } else {
      hide RowsRevoke, Do;
      RowsRevokeInRuns(signed, skew, trace, steps, i - 1);
      assert Do(signed, skew, trace[i - 1], steps[i - 1]) == Some(trace[i - 1 + 1]);
      RowsRevokeKept(signed, skew, trace[i - 1], steps[i - 1]);
    }
  }

  /**
   In every run, whatever the skew, an undisturbed request is admitted exactly with a session that its node's clock
   does not show expired and that has no row; and a session nobody revoked has none.
   */
  lemma UnrevokedGetsIn(signed: Signed, skew: int, trace: seq<State>, steps: seq<Step>, i: nat, call: Call, c: Cookie)
    requires Run(signed, skew, trace, steps) && i < |trace| && Running(trace[i], call) && At(trace[i], call) == Waiting
    ensures var s := trace[i];
            var r := Handled(signed, skew, s, call, c);
            && (r.Some? && At(r.value, call).Admitted? && At(r.value, call).cookie == c <==>
                  signed(c).Some? && s.clock[s.home[call]] < signed(c).value && c !in s.rows)
            && (c !in s.revoked ==> c !in s.rows)
  {
    hide Run;
    RowsRevokeInRuns(signed, skew, trace, steps, i);
    HandledAlone(signed, skew, trace[i], call, c);
    hide Handled;
  }

  /** Logging out of a session that has not expired writes its row; an expired one needs none. */
  lemma LogoutWritesRow(signed: Signed, skew: int, s: State, call: Call, c: Cookie)
    requires Running(s, call) && At(s, call) == Waiting
    ensures var r := Then(signed, skew, Do(signed, skew, s, CheckRevocation(call, c)), Insert(call));
            && (r.Some? <==> signed(c).Some? && s.clock[s.home[call]] < signed(c).value)
            && (r.Some? ==>
                  && r.value.rows == s.rows[c := signed(c).value] && r.value.revoked == s.revoked + {c}
                  && r.value.clock == s.clock)
  {
  }

  // ---------- the bound is exact ----------

  const EXPIRY := 1000

  /** Cookie 0 expires at second 1000; every other cookie long after. */
  function TwoCookies(skew: int): Signed {
    (c: Cookie) => if c == 0 then Some(EXPIRY) else Some(EXPIRY + skew + 1)
  }

  /** Node 0 is one second before the expiry, node 1 ahead by the skew. */
  function TwoNodes(skew: int): State {
    State(map[0 := EXPIRY - 1, 1 := EXPIRY - 1 + skew], map[], {}, map[], map[])
  }

  /** A run and its last state. */
  ghost predicate Ends(signed: Signed, skew: int, trace: seq<State>, steps: seq<Step>, last: State) {
    Run(signed, skew, trace, steps) && trace[|steps|] == last
  }

  lemma Extend(signed: Signed, skew: int, trace: seq<State>, steps: seq<Step>, last: State, step: Step)
    returns (longer: seq<State>, more: seq<Step>, next: State)
    requires Ends(signed, skew, trace, steps, last) && Do(signed, skew, last, step).Some?
    ensures next == Do(signed, skew, last, step).value && Ends(signed, skew, longer, more, next)
    ensures |more| == |steps| + 1 && longer == trace + [next]
  {
    next := Do(signed, skew, last, step).value;
    longer, more := trace + [next], steps + [step];
    hide Do;
  }

  /** Node 0 revokes cookie 0 in time. */
  lemma LogOut(skew: int) returns (trace: seq<State>, steps: seq<Step>, s: State)
    requires skew > RETENTION
    ensures Ends(TwoCookies(skew), skew, trace, steps, s) && |steps| == 3 && |trace| == 4
    ensures s.clock == TwoNodes(skew).clock && 0 in s.rows && s.rows[0] == EXPIRY && s.revoked == {0}
    ensures 1 !in s.stage && 2 !in s.stage
  {
    var signed := TwoCookies(skew);
    s := TwoNodes(skew);
    trace, steps := [s], [];
    hide Ends;
    assert Ends(signed, skew, trace, steps, s) by {
      OneState(signed, skew, s);
    }
    trace, steps, s := Extend(signed, skew, trace, steps, s, Arrive(0, 0));
    trace, steps, s := Extend(signed, skew, trace, steps, s, CheckRevocation(0, 0));
    trace, steps, s := Extend(signed, skew, trace, steps, s, Insert(0));
  }

  lemma OneState(signed: Signed, skew: int, s: State)
    requires Initial(s, skew)
    ensures Ends(signed, skew, [s], [], s)
  {
  }

  /** Node 1 revokes cookie 1. */
  lemma InsertAhead(skew: int, before: seq<State>, upTo: seq<Step>, from: State)
      returns (trace: seq<State>, steps: seq<Step>, s: State)
    requires skew > RETENTION && Ends(TwoCookies(skew), skew, before, upTo, from) && |before| == |upTo| + 1
    requires from.clock == TwoNodes(skew).clock && 0 in from.rows && from.rows[0] == EXPIRY && from.revoked == {0}
    requires 1 !in from.stage && 2 !in from.stage
    ensures Ends(TwoCookies(skew), skew, trace, steps, s) && |steps| == |upTo| + 3 && |trace| == |steps| + 1
        && before == trace[..|before|]
    ensures s.clock == from.clock && 0 in s.rows && s.rows[0] == EXPIRY && 0 in s.revoked
    ensures At(s, 1) == Revoked(1) && 1 in s.stage && 1 in s.home && s.home[1] == 1 && 2 !in s.stage
  {
    var signed := TwoCookies(skew);
    hide Ends;
    trace, steps, s := Extend(signed, skew, before, upTo, from, Arrive(1, 1));
    trace, steps, s := Extend(signed, skew, trace, steps, s, CheckRevocation(1, 1));
    trace, steps, s := Extend(signed, skew, trace, steps, s, Insert(1));
  }

  /** It finds the row of cookie 0 old enough to sweep. */
  lemma SweepAhead(skew: int, before: seq<State>, upTo: seq<Step>, from: State)
      returns (trace: seq<State>, steps: seq<Step>, s: State)
    requires skew > RETENTION && Ends(TwoCookies(skew), skew, before, upTo, from) && |before| == |upTo| + 1
    requires from.clock == TwoNodes(skew).clock && 0 in from.rows && from.rows[0] == EXPIRY && 0 in from.revoked
    requires At(from, 1) == Revoked(1) && 1 in from.stage && 1 in from.home && from.home[1] == 1 && 2 !in from.stage
    ensures Ends(TwoCookies(skew), skew, trace, steps, s) && |steps| == |upTo| + 2 && |trace| == |steps| + 1
        && before == trace[..|before|]
    ensures s.clock == from.clock && 0 !in s.rows && 0 in s.revoked && 2 !in s.stage
  {
    var signed := TwoCookies(skew);
    hide Ends;
    trace, steps, s := Extend(signed, skew, before, upTo, from, TakeCutoff(1));
    trace, steps, s := Extend(signed, skew, trace, steps, s, Sweep(1, {0}));
  }

  predicate AskedBehind(s: State, skew: int, stage: Stage) {
    && s.clock == TwoNodes(skew).clock && 0 !in s.rows && 0 in s.revoked
    && 2 in s.stage && 2 in s.home && s.home[2] == 0 && s.stage[2] == stage
  }

  /** Node 0, still before the expiry, verifies cookie 0. */
  lemma AskBehind(skew: int, before: seq<State>, upTo: seq<Step>, from: State)
      returns (trace: seq<State>, steps: seq<Step>, s: State)
    requires Ends(TwoCookies(skew), skew, before, upTo, from) && |before| == |upTo| + 1
    requires from.clock == TwoNodes(skew).clock && 0 !in from.rows && 0 in from.revoked && 2 !in from.stage
    ensures Ends(TwoCookies(skew), skew, trace, steps, s) && |steps| == |upTo| + 3 && |trace| == |steps| + 1
        && before == trace[..|before|]
    ensures AskedBehind(s, skew, Asking(0, EXPIRY - 1))
  {
    var signed := TwoCookies(skew);
    hide Ends;
    trace, steps, s := Extend(signed, skew, before, upTo, from, Arrive(2, 0));
    trace, steps, s := Extend(signed, skew, trace, steps, s, Verify(2, 0));
    trace, steps, s := Extend(signed, skew, trace, steps, s, Ask(2));
  }

  /** It finds no row, and admits. */
  lemma RequestBehind(skew: int, before: seq<State>, upTo: seq<Step>, from: State)
      returns (trace: seq<State>, steps: seq<Step>, s: State)
    requires Ends(TwoCookies(skew), skew, before, upTo, from) && |before| == |upTo| + 1
    requires AskedBehind(from, skew, Asking(0, EXPIRY - 1))
    ensures Ends(TwoCookies(skew), skew, trace, steps, s) && |steps| == |upTo| + 2 && |trace| == |steps| + 1
        && before == trace[..|before|]
    ensures At(s, 2) == Admitted(0, true)
  {
    var signed := TwoCookies(skew);
    hide Ends;
    trace, steps, s := Extend(signed, skew, before, upTo, from, Lookup(2));
    trace, steps, s := Extend(signed, skew, trace, steps, s, Recheck(2));
  }

  /** With clocks further apart than the retention a revoked session can come back: the bound is exact. */
  lemma SkewBoundIsNeeded(skew: int) returns (trace: seq<State>, steps: seq<Step>)
    requires skew > RETENTION
    ensures Run(TwoCookies(skew), skew, trace, steps) && |steps| == 13
    ensures 0 in trace[3].revoked && NotYetAsked(trace[3], 2) && At(trace[13], 2) == Admitted(0, true)
  {
    hide Run, Do, At, AskedBehind;
    var out, steps1, s1 := LogOut(skew);
    var sent, steps2, s2 := InsertAhead(skew, out, steps1, s1);
    var swept, steps3, s3 := SweepAhead(skew, sent, steps2, s2);
    var asked, steps4, s4 := AskBehind(skew, swept, steps3, s3);
    var s;
    trace, steps, s := RequestBehind(skew, asked, steps4, s4);
    assert trace[3] == asked[3] == swept[3] == sent[3] == out[3] == s1;
  }
}
