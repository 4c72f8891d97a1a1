/**
 The cancellable reader/writer lock (internal/store/ctxrwmutex.go).

 `Lock` holds the fields the source updates under its inner mutex; each of its methods is one
 critical section. The machine below runs any number of threads through those sections, with
 the waits between them: a thread blocks on the channel it saw, and wakes when that channel
 is closed or its context ends.
 */
module CtxRWMutex {
  import opened Prelude

  type Chan = nat
  type Thread = nat

  /** The lock's fields, and the channels the runtime knows: those made and those closed. */
  datatype Fields = Fields(readers: int, writer: bool, wwaiting: int, notify: Option<Chan>, closed: set<Chan>,
    made: Chan)

  const UNUSED := Fields(0, false, 0, None, {}, 0)

  function WithChannel(f: Fields): Fields {
    if f.notify.None? then f.(notify := Some(f.made), made := f.made + 1) else f
  }

  /** Closing a nil or a closed channel would panic. */
  predicate CanBroadcast(f: Fields) {
    f.notify.Some? && f.notify.value !in f.closed
  }

  function Broadcast(f: Fields): Fields {
    if f.notify.None? then f
    else f.(closed := f.closed + {f.notify.value}, notify := Some(f.made), made := f.made + 1)
  }

  predicate ReadOpen(f: Fields) {
    !f.writer && f.wwaiting == 0
  }

  predicate WriteOpen(f: Fields) {
    !f.writer && f.readers == 0
  }

  function EnterRead(f: Fields): Fields {
    var g := WithChannel(f);
    if ReadOpen(g) then g.(readers := g.readers + 1) else g
  }

  function LeaveRead(f: Fields): Fields {
    var g := f.(readers := f.readers - 1);
    if g.readers == 0 then Broadcast(g) else g
  }

  function EnterWrite(f: Fields): Fields {
    var g := WithChannel(f);
    if WriteOpen(g) then g.(writer := true) else g.(wwaiting := g.wwaiting + 1)
  }

  function RetryWrite(f: Fields): Fields {
    if WriteOpen(f) then f.(writer := true, wwaiting := f.wwaiting - 1) else f
  }

  function AbandonWrite(f: Fields): Fields {
    var g := f.(wwaiting := f.wwaiting - 1);
    if g.wwaiting == 0 then Broadcast(g) else g
  }

  function LeaveWrite(f: Fields): Fields {
    Broadcast(f.(writer := false))
  }

  class Lock {
    var readers: int
    var writer: bool
    var wwaiting: int
    var notify: Option<Chan>
    var closed: set<Chan>
    var made: Chan

    function View(): Fields
      reads this
    {
      Fields(readers, writer, wwaiting, notify, closed, made)
    }

    constructor ()
      ensures View() == UNUSED
    {
      readers, writer, wwaiting, notify, closed, made := 0, false, 0, None, {}, 0;
    }

    method Close()
      requires CanBroadcast(View())
      modifies this
      ensures View() == Broadcast(old(View()))
    {
      closed := closed + {notify.value};
      notify := Some(made);
      made := made + 1;
    }

    /** The section of `RLock`'s loop; without the lock, the caller waits on `ch`. */
    method TryRead() returns (got: bool, ch: Chan)
      modifies this
      ensures View() == EnterRead(old(View()))
      ensures got == ReadOpen(old(View()))
      ensures notify == Some(ch)
    {
      if notify.None? {
        notify := Some(made);
        made := made + 1;
      }
      ch := notify.value;
      if !writer && wwaiting == 0 {
        readers := readers + 1;
        return true, ch;
      }
      return false, ch;
    }

    method ReleaseRead()
      requires readers == 1 ==> CanBroadcast(View())
      modifies this
      ensures View() == LeaveRead(old(View()))
    {
      readers := readers - 1;
      if readers == 0 {
        Close();
      }
    }

    /** The first section of `Lock`; without the lock, the caller counts as waiting on `ch`. */
    method TryWrite() returns (got: bool, ch: Chan)
      modifies this
      ensures View() == EnterWrite(old(View()))
      ensures got == WriteOpen(old(View()))
      ensures notify == Some(ch)
    {
      if notify.None? {
        notify := Some(made);
        made := made + 1;
      }
      ch := notify.value;
      if !writer && readers == 0 {
        writer := true;
        return true, ch;
      }
      wwaiting := wwaiting + 1;
      return false, ch;
    }

    /** The section after a wakeup. */
    method TryWriteAgain() returns (got: bool, ch: Option<Chan>)
      modifies this
      ensures View() == RetryWrite(old(View()))
      ensures got == WriteOpen(old(View())) && ch == notify
    {
      ch := notify;
      got := !writer && readers == 0;
      if got {
        writer := true;
        wwaiting := wwaiting - 1;
      }
    }

    /** The section after the context ended. */
    method StopWaiting()
      requires wwaiting == 1 ==> CanBroadcast(View())
      modifies this
      ensures View() == AbandonWrite(old(View()))
    {
      wwaiting := wwaiting - 1;
      if wwaiting == 0 {
        Close();
      }
    }

    method ReleaseWrite()
      requires CanBroadcast(View())
      modifies this
      ensures View() == LeaveWrite(old(View()))
    {
      writer := false;
      Close();
    }
  }

  // ---------- threads ----------

  datatype Where =
    | Out                 // not in a call, not holding
    | ReadTop             // about to enter RLock's section
    | ReadWait(ch: Chan)
    | Reading
    | WriteWait(ch: Chan)
    | WriteTop            // woken, about to retry
    | Cancelling          // context ended, about to stop waiting
    | Writing

  datatype State = State(f: Fields, threads: map<Thread, Where>)

  function At(s: State, t: Thread): Where {
    if t in s.threads then s.threads[t] else Out
  }

  function Put(s: State, t: Thread, w: Where, f: Fields): State {
    State(f, s.threads[t := w])
  }

  function Current(f: Fields): Chan {
    if f.notify.Some? then f.notify.value else 0
  }

  datatype Step =
    | CallRead(t: Thread)
    | ReadSection(t: Thread)
    | Wake(t: Thread)
    | CancelRead(t: Thread)
    | RUnlock(t: Thread)
    | LockSection(t: Thread)
    | RetrySection(t: Thread)
    | CancelWrite(t: Thread)
    | CancelSection(t: Thread)
    | Unlock(t: Thread)

  /** The state after a step, or none when the thread is elsewhere. */
  function Do(s: State, step: Step): Option<State> {
    match step
    case CallRead(t) => if At(s, t) == Out then Some(Put(s, t, ReadTop, s.f)) else None
    case ReadSection(t) =>
      if At(s, t) != ReadTop then None
      else
        var f := EnterRead(s.f);
        Some(Put(s, t, if ReadOpen(s.f) then Reading else ReadWait(Current(f)), f))
    case Wake(t) =>
      (match At(s, t)
       case ReadWait(ch) => if ch in s.f.closed then Some(Put(s, t, ReadTop, s.f)) else None
       case WriteWait(ch) => if ch in s.f.closed then Some(Put(s, t, WriteTop, s.f)) else None
       case _ => None)
    case CancelRead(t) => if At(s, t).ReadWait? then Some(Put(s, t, Out, s.f)) else None
    case RUnlock(t) => if At(s, t) == Reading then Some(Put(s, t, Out, LeaveRead(s.f))) else None
    case LockSection(t) =>
      if At(s, t) != Out then None
      else
        var f := EnterWrite(s.f);
        Some(Put(s, t, if WriteOpen(s.f) then Writing else WriteWait(Current(f)), f))
    case RetrySection(t) =>
      if At(s, t) != WriteTop then None
      else Some(Put(s, t, if WriteOpen(s.f) then Writing else WriteWait(Current(s.f)), RetryWrite(s.f)))
    case CancelWrite(t) => if At(s, t).WriteWait? then Some(Put(s, t, Cancelling, s.f)) else None
    case CancelSection(t) => if At(s, t) == Cancelling then Some(Put(s, t, Out, AbandonWrite(s.f))) else None
    case Unlock(t) => if At(s, t) == Writing then Some(Put(s, t, Out, LeaveWrite(s.f))) else None
  }

  function Readers(s: State): set<Thread> {
    set t | t in s.threads && s.threads[t] == Reading
  }

  function Writers(s: State): set<Thread> {
    set t | t in s.threads && s.threads[t] == Writing
  }

  predicate Queued(w: Where) {
    w.WriteWait? || w.WriteTop? || w.Cancelling?
  }

  /** Threads inside the writer wait loop. */
  function Queue(s: State): set<Thread> {
    set t | t in s.threads && Queued(s.threads[t])
  }

  /** Waiting on the channel nobody has closed. */
  predicate Blocked(s: State, t: Thread) {
    && t in s.threads
    && (s.threads[t].ReadWait? || s.threads[t].WriteWait?)
    && s.threads[t].ch !in s.f.closed
  }

  predicate Held(f: Fields) {
    f.writer || f.readers > 0
  }

  ghost predicate CountsOk(s: State) {
    && s.f.readers == |Readers(s)|
    && s.f.wwaiting == |Queue(s)|
    && (s.f.writer ==> exists t :: Writers(s) == {t})
    && (!s.f.writer ==> Writers(s) == {})
    && (s.f.writer ==> Readers(s) == {})
  }

  ghost predicate ChannelOk(f: Fields) {
    && (f.notify.Some? ==> f.notify.value < f.made && f.notify.value !in f.closed)
    && (forall ch :: ch in f.closed ==> ch < f.made)
    && (Held(f) || f.wwaiting > 0 ==> f.notify.Some?)
  }

  /** A waiter's channel is the current one or a closed one; on the current one there is somebody to wait for. */
  ghost predicate WaitsOk(s: State) {
    forall t :: t in s.threads ==>
      && (s.threads[t].ReadWait? && s.threads[t].ch !in s.f.closed ==>
            s.f.notify == Some(s.threads[t].ch) && (s.f.writer || s.f.wwaiting > 0))
      && (s.threads[t].WriteWait? && s.threads[t].ch !in s.f.closed ==>
            s.f.notify == Some(s.threads[t].ch) && Held(s.f))
  }

  ghost predicate Inv(s: State) {
    CountsOk(s) && ChannelOk(s.f) && WaitsOk(s)
  }

  const INITIAL := State(UNUSED, map[])

  lemma InitialHolds()
    ensures Inv(INITIAL)
  {
    assert Readers(INITIAL) == {} && Writers(INITIAL) == {} && Queue(INITIAL) == {};
  }

  /** One thread moves: it leaves or joins each group, nobody else does. */
  lemma GroupsMove(s: State, t: Thread, w: Where, f: Fields)
    ensures var s' := Put(s, t, w, f);
            && Readers(s') == (if w == Reading then Readers(s) + {t} else Readers(s) - {t})
            && Writers(s') == (if w == Writing then Writers(s) + {t} else Writers(s) - {t})
            && Queue(s') == (if Queued(w) then Queue(s) + {t} else Queue(s) - {t})
    ensures t in Readers(s) <==> At(s, t) == Reading
    ensures t in Writers(s) <==> At(s, t) == Writing
    ensures t in Queue(s) <==> Queued(At(s, t))
  {
  }

  function One(b: bool): int {
    if b then 1 else 0
  }

  lemma CountMoves(group: set<Thread>, t: Thread, joins: bool)
    ensures |if joins then group + {t} else group - {t}| == |group| + One(joins) - One(t in group)
  {
    if t in group {
      assert group + {t} == group;
    } else {
      assert group - {t} == group;
    }
  }

  lemma CountsMove(s: State, t: Thread, w: Where, f: Fields)
    ensures |Readers(Put(s, t, w, f))| == |Readers(s)| + One(w == Reading) - One(At(s, t) == Reading)
    ensures |Queue(Put(s, t, w, f))| == |Queue(s)| + One(Queued(w)) - One(Queued(At(s, t)))
  {
    GroupsMove(s, t, w, f);
    hide Readers, Queue, Put, At;
    CountMoves(Readers(s), t, w == Reading);
    CountMoves(Queue(s), t, Queued(w));
  }

  /** Who may join and leave, and when. */
  lemma WriterFlag(s: State, step: Step)
    requires Do(s, step).Some?
    ensures var s' := Do(s, step).value;
            var was, now := At(s, step.t), At(s', step.t);
            && s' == Put(s, step.t, now, s'.f)
            && (s'.f.writer && !s.f.writer ==> now == Writing && s.f.readers == 0 && was != Reading)
            && (!s'.f.writer && s.f.writer ==> was == Writing && now == Out)
            && (s'.f.writer == s.f.writer && now == Writing ==> was == Writing)
            && (s'.f.writer && s.f.writer ==> was != Writing)
            && (now == Reading ==> !s'.f.writer)
  {
  }

  lemma WriterMoves(s: State, step: Step)
    requires CountsOk(s) && Do(s, step).Some?
    ensures var s' := Do(s, step).value;
            && (s'.f.writer ==> exists t :: Writers(s') == {t})
            && (!s'.f.writer ==> Writers(s') == {})
            && (s'.f.writer ==> Readers(s') == {})
  {
    var s' := Do(s, step).value;
    var t := step.t;
    WriterFlag(s, step);
    hide Do;
    GroupsMove(s, t, At(s', t), s'.f);
    EmptyGroups(s);
    hide Readers, Writers, Queue, Put, At;
    if s'.f.writer && !s.f.writer {
      assert Writers(s') == {t};
    } else if s.f.writer {
      var u :| Writers(s) == {u};
      assert s'.f.writer ==> Writers(s') == {u};
    }
  }

  lemma CountsKept(s: State, step: Step)
    requires CountsOk(s) && Do(s, step).Some?
    ensures CountsOk(Do(s, step).value)
  {
    var s' := Do(s, step).value;
    CountsMove(s, step.t, s'.threads[step.t], s'.f);
    WriterMoves(s, step);
    hide Readers, Writers, Queue;
  }

  lemma EmptyGroups(s: State)
    ensures |Readers(s)| == 0 <==> Readers(s) == {}
    ensures |Queue(s)| == 0 <==> Queue(s) == {}
  {
  }

  lemma ChannelKept(s: State, step: Step)
    requires Inv(s) && Do(s, step).Some?
    ensures ChannelOk(Do(s, step).value.f)
  {
    hide WaitsOk;
    GroupsMove(s, step.t, Out, s.f);
    hide Readers, Writers, Queue;
  }

  lemma WaitsKept(s: State, step: Step)
    requires Inv(s) && Do(s, step).Some?
    ensures WaitsOk(Do(s, step).value)
  {
    GroupsMove(s, step.t, Out, s.f);
    hide Readers, Writers, Queue;
  }

  lemma StepKeeps(s: State, step: Step)
    requires Inv(s) && Do(s, step).Some?
    ensures Inv(Do(s, step).value)
  {
    CountsKept(s, step);
    ChannelKept(s, step);
    WaitsKept(s, step);
  }

  /** A run of the lock from its zero value. */
  ghost predicate Run(trace: seq<State>, steps: seq<Step>) {
    && |trace| == |steps| + 1
    && trace[0] == INITIAL
    && forall i :: 0 <= i < |steps| ==> Do(trace[i], steps[i]) == Some(trace[i + 1])
  }

  lemma {:induction false} Reachable(trace: seq<State>, steps: seq<Step>, i: nat)
    requires Run(trace, steps) && i < |trace|
    ensures Inv(trace[i])
  {
    hide Inv, Do;
    if i == 0 {
      InitialHolds();
    } else {
      Reachable(trace, steps, i - 1);
      assert Do(trace[i - 1], steps[i - 1]) == Some(trace[i - 1 + 1]);
      StepKeeps(trace[i - 1], steps[i - 1]);
    }
  }

  // ---------- guarantees ----------

  /** A writer waiter that can run without anybody else's step. */
  predicate Runnable(s: State, t: Thread) {
    t in s.threads && Queued(s.threads[t]) && !Blocked(s, t)
  }

  /** No wakeup is lost: whoever blocks waits for a holder, or for a waiting writer that can run. */
  lemma NoLostWakeup(trace: seq<State>, steps: seq<Step>, i: nat, t: Thread)
    requires Run(trace, steps) && i < |trace| && Blocked(trace[i], t)
    ensures trace[i].threads[t].WriteWait? ==> Held(trace[i].f)
    ensures Held(trace[i].f) || exists w :: Runnable(trace[i], w)
  {
    hide Do, Run;
    Reachable(trace, steps, i);
    var s := trace[i];
    if !Held(s.f) {
      assert Queue(s) != {};
      var w :| w in Queue(s);
      assert Runnable(s, w);
    }
  }

  lemma RunnableCanStep(s: State, w: Thread)
    requires Runnable(s, w)
    ensures Do(s, Wake(w)).Some? || Do(s, RetrySection(w)).Some? || Do(s, CancelSection(w)).Some?
  {
  }

  /** When nobody holds the lock and no thread can take a step of its own, nobody is waiting. */
  lemma NoDeadlock(trace: seq<State>, steps: seq<Step>, i: nat)
    requires Run(trace, steps) && i < |trace| && !Held(trace[i].f)
    requires forall t ::
               && Do(trace[i], ReadSection(t)).None? && Do(trace[i], Wake(t)).None?
               && Do(trace[i], RetrySection(t)).None? && Do(trace[i], CancelSection(t)).None?
    ensures forall t :: At(trace[i], t) == Out
  {
    var s := trace[i];
    Reachable(trace, steps, i);
    forall t ensures At(s, t) == Out {
      assert Do(s, ReadSection(t)).None? && Do(s, Wake(t)).None? && Do(s, RetrySection(t)).None?
        && Do(s, CancelSection(t)).None?;
      if Blocked(s, t) {
        NoLostWakeup(trace, steps, i, t);
        var w :| Runnable(s, w);
        RunnableCanStep(s, w);
        assert false;
      }
      assert At(s, t) == Reading ==> t in Readers(s);
      assert At(s, t) == Writing ==> t in Writers(s);
    }
  }

  /** A writer excludes everybody else, and the counters count exactly the threads they are named for. */
  lemma SafetyAndCounting(trace: seq<State>, steps: seq<Step>, i: nat, t: Thread, u: Thread)
    requires Run(trace, steps) && i < |trace|
    ensures At(trace[i], t) == Writing && t != u ==> At(trace[i], u) != Writing && At(trace[i], u) != Reading
    ensures trace[i].f.readers == |Readers(trace[i])| && trace[i].f.wwaiting == |Queue(trace[i])|
    ensures trace[i].f.writer <==> Writers(trace[i]) != {}
  {
    hide Do, Run;
    Reachable(trace, steps, i);
    var s := trace[i];
    if At(s, t) == Writing {
      assert t in Writers(s);
      assert u in Writers(s) ==> u == t;
      assert u !in Readers(s);
    }
  }

  /** No reader overtakes a waiting writer. */
  lemma NoReaderOvertakes(trace: seq<State>, steps: seq<Step>, i: nat, t: Thread)
    requires Run(trace, steps) && i < |steps|
    requires At(trace[i], t) != Reading && At(trace[i + 1], t) == Reading
    ensures Queue(trace[i]) == {} && Writers(trace[i]) == {}
  {
    Reachable(trace, steps, i);
    EmptyGroups(trace[i]);
    assert Do(trace[i], steps[i]) == Some(trace[i + 1]);
  }

  /** Every section finds the channel it has to close: open, and not nil. */
  lemma BroadcastIsSafe(trace: seq<State>, steps: seq<Step>, i: nat, t: Thread)
    requires Run(trace, steps) && i < |trace|
    ensures At(trace[i], t) == Reading && trace[i].f.readers == 1 ==> CanBroadcast(trace[i].f.(readers := 0))
    ensures At(trace[i], t) == Cancelling && trace[i].f.wwaiting == 1 ==> CanBroadcast(trace[i].f.(wwaiting := 0))
    ensures At(trace[i], t) == Writing ==> CanBroadcast(trace[i].f.(writer := false))
  {
    hide Do, Run;
    Reachable(trace, steps, i);
    GroupsMove(trace[i], t, Out, trace[i].f);
  }

  /**
   In every run a lock nobody holds or queues for is taken at once, a reader's also next to other readers; a woken
   writer takes it whoever else queues.
   */
  lemma FreeLockIsTaken(trace: seq<State>, steps: seq<Step>, i: nat, t: Thread)
    requires Run(trace, steps) && i < |trace|
    ensures At(trace[i], t) == ReadTop ==>
        && Do(trace[i], ReadSection(t)).Some?
        && (At(Do(trace[i], ReadSection(t)).value, t) == Reading <==>
              forall u :: At(trace[i], u) != Writing && !Queued(At(trace[i], u)))
    ensures At(trace[i], t) == Out ==>
        && Do(trace[i], LockSection(t)).Some?
        && (At(Do(trace[i], LockSection(t)).value, t) == Writing <==>
              forall u :: At(trace[i], u) != Writing && At(trace[i], u) != Reading)
    ensures At(trace[i], t) == WriteTop ==>
        && Do(trace[i], RetrySection(t)).Some?
        && (At(Do(trace[i], RetrySection(t)).value, t) == Writing <==>
              forall u :: At(trace[i], u) != Writing && At(trace[i], u) != Reading)
  {
    OpenExactly(trace, steps, i);
    var s := trace[i];
    if At(s, t) == Out {
      assert Do(s, LockSection(t)).Some?;
    }
    hide Run;
  }

  /** The fields are open exactly if no thread is in the way. */
  lemma OpenExactly(trace: seq<State>, steps: seq<Step>, i: nat)
    requires Run(trace, steps) && i < |trace|
    ensures ReadOpen(trace[i].f) <==> forall u :: At(trace[i], u) != Writing && !Queued(At(trace[i], u))
    ensures WriteOpen(trace[i].f) <==> forall u :: At(trace[i], u) != Writing && At(trace[i], u) != Reading
  {
    hide Do, Run, ChannelOk, WaitsOk;
    Reachable(trace, steps, i);
    var s := trace[i];
    EmptyGroups(s);
    Members(s);
  }

  lemma Members(s: State)
    ensures Readers(s) == {} <==> forall u :: At(s, u) != Reading
    ensures Writers(s) == {} <==> forall u :: At(s, u) != Writing
    ensures Queue(s) == {} <==> forall u :: !Queued(At(s, u))
  {
    if u :| At(s, u) == Reading {
      assert u in Readers(s);
    }
    if u :| At(s, u) == Writing {
      assert u in Writers(s);
    }
    if u :| Queued(At(s, u)) {
      assert u in Queue(s);
    }
    assert forall u :: u in Readers(s) ==> At(s, u) == Reading;
    assert forall u :: u in Writers(s) ==> At(s, u) == Writing;
    assert forall u :: u in Queue(s) ==> Queued(At(s, u));
  }
}
