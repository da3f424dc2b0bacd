/**
 Locks over every schedule, guarded or not: a reparent through a handle whose
 lock pointer is NULL excludes nobody, but it does not block anybody either.
 */
module Deadlock {
  import opened Common
  import opened Model
  import opened ThreadCode
  import opened Threads
  import opened Linearization
  import opened LinearSteps

  /** The world after a schedule; an act that is not enabled where it stands does not happen. */
  ghost function Play(M: Machine, w: World, acts: seq<Act>): World
    decreases |acts|
  {
    if acts == [] then w
    else
      var v, a := Play(M, w, acts[..|acts| - 1]), acts[|acts| - 1];
      if Enabled(v, a) then Next(M, v, a) else v
  }

  // ---------------------------------------------------------------------
  // Who holds what
  // ---------------------------------------------------------------------

  predicate Holds(w: World, x: Tid, t: TxnId) { t in w.owner && w.owner[t] == x }

  predicate NoMutex(ops: Ops) {
    ops.Nil? || (ops.op.Do? && NoMutex(ops.rest))
  }

  /** A thread holds its own transaction's lock and no other, only under it the global mutex, and
      nothing before it locks or after it unlocks. */
  ghost predicate HoldsRightly(w: World, x: Tid, th: Thread) {
    && th.t in w.txns && !th.r.skip
    && (forall t :: t in w.owner && w.owner[t] == x ==> t == th.t && th.stage.Inside?)
    && (w.mutex == Some(x) ==> th.stage.Inside? && Holds(w, x, th.t))
    && match th.stage
       case Inside(todo) =>
         && BracketOk(todo, w.mutex == Some(x))
         && (if UsesWrapperLock(th.c) then NoMutex(todo) else Holds(w, x, th.t))
       case Leaving(todo) => TailOnly(todo)
       case _ => true
  }

  ghost predicate LockInv(w: World) {
    && (forall x :: x in w.threads ==> HoldsRightly(w, x, w.threads[x]))
    && (forall t :: t in w.owner ==> w.owner[t] in w.threads)
    && (forall x :: w.mutex == Some(x) ==> x in w.threads)
  }

  /** x may have changed its own record and its own holds; nobody else's. */
  ghost predicate OwnStep(w: World, w': World, x: Tid) {
    && w'.txns.Keys == w.txns.Keys
    && OneChanged(w, w', x)
    && (forall t :: t in w.owner && w.owner[t] != x ==> t in w'.owner && w'.owner[t] == w.owner[t])
    && (forall t :: t in w'.owner && w'.owner[t] != x ==> t in w.owner && w'.owner[t] == w.owner[t])
    && (forall y :: y != x ==> (w'.mutex == Some(y) <==> w.mutex == Some(y)))
  }

  lemma OwnStepKeeps(w: World, w': World, x: Tid)
    requires LockInv(w) && OwnStep(w, w', x)
    requires x in w'.threads ==> HoldsRightly(w', x, w'.threads[x])
    requires x !in w'.threads ==> w'.mutex != Some(x) && forall t :: t in w'.owner ==> w'.owner[t] != x
    ensures LockInv(w')
  {
    hide BracketOk, NoMutex, TailOnly;
    forall y | y in w'.threads ensures HoldsRightly(w', y, w'.threads[y]) {
      if y != x {
        assert Get(w'.threads, y) == Get(w.threads, y);
        assert HoldsRightly(w, y, w.threads[y]);
      }
    }
    forall t | t in w'.owner ensures w'.owner[t] in w'.threads {
      var y := w'.owner[t];
      if y != x { assert Get(w'.threads, y) == Get(w.threads, y); }
    }
    forall y | w'.mutex == Some(y) ensures y in w'.threads {
      if y != x { assert Get(w'.threads, y) == Get(w.threads, y); }
    }
  }

  lemma BodyMutex(c: Call)
    ensures UsesWrapperLock(c) ==> NoMutex(Body(c))
  {
  }

  lemma RightlyFacts(w: World, x: Tid)
    requires LockInv(w) && x in w.threads
    ensures HoldsRightly(w, x, w.threads[x])
  {
    hide HoldsRightly;
  }

  /** x's step from record th, holding its lock or not, to record th'. */
  lemma RightlyStep(w: World, w': World, x: Tid, th': Thread)
    requires LockInv(w) && x in w.threads && w'.threads == w.threads[x := th'] && w'.txns.Keys == w.txns.Keys
    requires OwnerStep(w, w', x, th'.t)
    requires w'.mutex == w.mutex || (w'.mutex == Some(x) && w.mutex.None?) || (w'.mutex.None? && w.mutex == Some(x))
    requires HoldsRightly(w', x, th')
    ensures LockInv(w')
  {
    hide HoldsRightly, LockInv;
    OwnStepKeeps(w, w', x);
  }

  /** The transaction locks change only at x's own transaction, and only from free to x or back. */
  predicate OwnerStep(w: World, w': World, x: Tid, t: TxnId) {
    || w'.owner == w.owner
    || (t !in w.owner && w'.owner == w.owner[t := x])
    || (t in w.owner && w.owner[t] == x && w'.owner == w.owner - {t})
  }

  lemma LockStep(w: World, x: Tid)
    requires LockInv(w) && CanStep(w, x) && w.threads[x].stage.Waiting?
    ensures LockInv(StepLock(w, x))
  {
    hide LockInv, BracketOk, NoMutex, TailOnly, Body, Claim, OwnWrapper;
    var w', th := StepLock(w, x), w.threads[x];
    RightlyFacts(w, x);
    CodeShape(th.c);
    BodyMutex(th.c);
    RightlyStep(w, w', x, w'.threads[x]);
  }

  lemma UnlockStep(w: World, x: Tid)
    requires LockInv(w) && AtUnlock(w, x)
    ensures LockInv(StepUnlock(w, x))
  {
    hide LockInv, NoMutex, TailOnly, Tail;
    var w', th := StepUnlock(w, x), w.threads[x];
    RightlyFacts(w, x);
    CodeShape(th.c);
    RightlyStep(w, w', x, w'.threads[x]);
  }

  lemma MutexStep(w: World, x: Tid)
    requires LockInv(w) && CanStep(w, x) && w.threads[x].stage.Inside?
    requires w.threads[x].stage.todo.Cons? && !w.threads[x].stage.todo.op.Do?
    ensures var todo := w.threads[x].stage.todo;
            LockInv(StepMutex(w, x, if todo.op.Acquire? then Some(x) else None, todo.rest))
  {
    hide LockInv;
    var th := w.threads[x];
    var todo := th.stage.todo;
    var w' := StepMutex(w, x, if todo.op.Acquire? then Some(x) else None, todo.rest);
    RightlyFacts(w, x);
    RightlyStep(w, w', x, w'.threads[x]);
  }

  /** Under the global mutex, and after the unlock, there is no goto. */
  lemma NoSkip(M: Machine, w: World, x: Tid, m: Micro)
    requires Sound(M) && x in w.threads && w.threads[x].t in w.txns && !w.threads[x].r.skip
    ensures m.AllocWrapper? || TailMicro(m) ==> !Executed(M, w, x, m).r.skip
  {
    hide Sound, ViewAt, TailMicro;
    ExecFacts(M, w.threads[x].t, w.threads[x].c, m, ViewAt(w, w.threads[x]));
    ViewRegs(w, w.threads[x]);
  }

  lemma DoStep(M: Machine, w: World, x: Tid, m: Micro, rest: Ops)
    requires Sound(M) && LockInv(w) && AtDo(w, x, m, rest)
    ensures LockInv(StepDo(M, w, x, m, rest))
  {
    hide Sound, StepDo, ViewAt, LockInv, TailMicro, Executed;
    var w', th := StepDo(M, w, x, m, rest), w.threads[x];
    RightlyFacts(w, x);
    DoKeepsLog(M, w, x, m, rest);
    NoSkip(M, w, x, m);
    RightlyStep(w, w', x, w'.threads[x]);
  }

  lemma CheckStep(w: World, x: Tid)
    requires LockInv(w) && CanStep(w, x) && w.threads[x].stage.Checking?
    ensures LockInv(StepCheck(w, x))
  {
    hide LockInv, BracketOk, NoMutex, Claim, Check, OwnWrapper;
    var w', th := StepCheck(w, x), w.threads[x];
    RightlyFacts(w, x);
    if LeavesAtChecks(w, x) {
      ExitShape(w, x);
      RightlyStep(w, w', x, ExitThread(w, th));
    } else {
      RightlyStep(w, w', x, th.(stage := Waiting));
    }
  }

  lemma ReturnStep(w: World, x: Tid)
    requires LockInv(w) && AtReturn(w, x)
    ensures LockInv(StepReturn(w, x))
  {
    hide LockInv;
    RightlyFacts(w, x);
    OwnStepKeeps(w, StepReturn(w, x), x);
  }

  lemma InvokeStep(w: World, x: Tid, t: TxnId, c: Call)
    requires LockInv(w) && MayCall(w, x, t, c)
    ensures LockInv(SetThread(w, x, NewThread(t, c)))
  {
    hide HoldsRightly, Apart;
    var w', th := SetThread(w, x, NewThread(t, c)), NewThread(t, c);
    assert HoldsRightly(w', x, th) by { NewHolds(w', x, th); }
    OwnStepKeeps(w, w', x);
  }

  lemma NewHolds(w: World, x: Tid, th: Thread)
    requires th.t in w.txns && !th.r.skip && th.stage.Checking? && w.mutex != Some(x)
    requires forall t :: t in w.owner ==> w.owner[t] != x
    ensures HoldsRightly(w, x, th)
  {
  }

  // ---------------------------------------------------------------------
  // Every schedule
  // ---------------------------------------------------------------------

  lemma AdvanceStep(M: Machine, w: World, x: Tid)
    requires Sound(M) && LockInv(w) && CanStep(w, x)
    ensures LockInv(Threads.Step(M, w, x))
  {
    hide Sound, LockInv, StepCheck, StepLock, StepUnlock, StepMutex, StepDo, StepReturn, HasLock;
    match w.threads[x].stage
    case Checking => CheckStep(w, x);
    case Waiting => LockStep(w, x);
    case Inside(todo) =>
      if todo.Nil? { UnlockStep(w, x); } else if todo.op.Do? { DoStep(M, w, x, todo.op.m, todo.rest); } else { MutexStep(w, x); }
    case Leaving(todo) =>
      if todo.Nil? { ReturnStep(w, x); } else if todo.op.Do? { DoStep(M, w, x, todo.op.m, todo.rest); }
  }

  /** Nobody is inside the API. */
  predicate Idle(w: World) { w.threads == map[] && w.owner == map[] && w.mutex.None? }

  lemma {:induction false} LocksHeldRightly(M: Machine, w: World, acts: seq<Act>)
    requires Sound(M) && LockInv(w)
    ensures LockInv(Play(M, w, acts))
    decreases |acts|
  {
    hide Sound, LockInv, Threads.Step, CanStep, MayCall;
    if acts != [] {
      var v, a := Play(M, w, acts[..|acts| - 1]), acts[|acts| - 1];
      LocksHeldRightly(M, w, acts[..|acts| - 1]);
      if Enabled(v, a) {
        match a
        case Invoke(x, t, c) => InvokeStep(v, x, t, c);
        case Advance(x) => AdvanceStep(M, v, x);
      }
    }
  }

  // ---------------------------------------------------------------------
  // Somebody can always step
  // ---------------------------------------------------------------------

  /** The holder of the global mutex is never blocked. */
  lemma MutexHolderSteps(w: World)
    requires LockInv(w) && w.mutex.Some?
    ensures CanStep(w, w.mutex.value)
  {
    RightlyFacts(w, w.mutex.value);
  }

  /** A lock's holder can step, or waits for the mutex, whose holder can. */
  lemma OwnerSteps(w: World, x: Tid)
    requires LockInv(w) && x in w.threads && w.threads[x].stage.Inside?
    ensures CanStep(w, x) || (w.mutex.Some? && CanStep(w, w.mutex.value))
  {
    hide LockInv;
    RightlyFacts(w, x);
    if w.mutex.Some? { MutexHolderSteps(w); }
  }

  /** Some thread inside the API can step: the one asked about, the one that holds the lock it waits
      for, or the one that holds the mutex that one waits for. */
  lemma SomebodySteps(w: World, x: Tid) returns (y: Tid)
    requires LockInv(w) && x in w.threads
    ensures CanStep(w, y)
  {
    RightlyFacts(w, x);
    y := x;
    if !CanStep(w, y) && w.threads[x].stage.Waiting? {
      y := w.owner[w.threads[x].t];
      RightlyFacts(w, y);
    }
    if !CanStep(w, y) {
      OwnerSteps(w, y);
      y := w.mutex.value;
    }
  }

  // ---------------------------------------------------------------------
  // The work left
  // ---------------------------------------------------------------------

  function Length(ops: Ops): nat {
    if ops.Nil? then 0 else 1 + Length(ops.rest)
  }

  /** An upper bound on the steps a call has left. */
  function Left(th: Thread): nat {
    match th.stage
    case Checking => 4 + Length(Body(th.c)) + Length(Tail(th.c))
    case Waiting => 3 + Length(Body(th.c)) + Length(Tail(th.c))
    case Inside(todo) => 2 + Length(todo) + Length(Tail(th.c))
    case Leaving(todo) => 1 + Length(todo)
  }

  ghost function Work(ths: map<Tid, Thread>): nat
    decreases |ths|
  {
    if ths == map[] then 0 else
      var x :| x in ths;
      Left(ths[x]) + Work(ths - {x})
  }

  lemma {:induction false} WorkAt(ths: map<Tid, Thread>, x: Tid)
    requires x in ths
    ensures Work(ths) == Left(ths[x]) + Work(ths - {x})
    decreases |ths|
  {
    hide Left;
    var y :| y in ths && Work(ths) == Left(ths[y]) + Work(ths - {y});
    if y != x {
      WorkAt(ths - {y}, x);
      WorkAt(ths - {x}, y);
      assert ths - {y} - {x} == ths - {x} - {y};
    }
  }

  /** x returned, or has fewer steps left; the other records are the same. */
  predicate Lowers(w: World, w': World, x: Tid) {
    && x in w.threads
    && w'.threads - {x} == w.threads - {x}
    && (x in w'.threads ==> Left(w'.threads[x]) < Left(w.threads[x]))
  }

  lemma SetLowers(w: World, w': World, x: Tid, th': Thread)
    requires x in w.threads && w'.threads == w.threads[x := th'] && Left(th') < Left(w.threads[x])
    ensures Lowers(w, w', x)
  {
    hide Left;
  }

  lemma CheckLowers(w: World, x: Tid)
    requires CanStep(w, x) && w.threads[x].stage.Checking?
    ensures Lowers(w, StepCheck(w, x), x)
  {
    hide Lowers, Check, OwnWrapper, HasLock, Claim, Body, Tail;
    if LeavesAtChecks(w, x) {
      ExitShape(w, x);
      SetLowers(w, StepCheck(w, x), x, ExitThread(w, w.threads[x]));
    } else {
      SetLowers(w, StepCheck(w, x), x, w.threads[x].(stage := Waiting));
    }
  }

  lemma LockLowers(w: World, x: Tid)
    requires CanStep(w, x) && w.threads[x].stage.Waiting?
    ensures Lowers(w, StepLock(w, x), x)
  {
    hide Lowers, OwnWrapper, HasLock, Claim, Body, Tail;
    SetLowers(w, StepLock(w, x), x, StepLock(w, x).threads[x]);
  }

  lemma UnlockLowers(w: World, x: Tid, held: Option<Tid>, rest: Ops)
    requires CanStep(w, x) && w.threads[x].stage.Inside?
    ensures w.threads[x].stage.todo.Nil? ==> Lowers(w, StepUnlock(w, x), x)
    ensures w.threads[x].stage.todo.Cons? && w.threads[x].stage.todo.rest == rest ==> Lowers(w, StepMutex(w, x, held, rest), x)
  {
    hide Lowers, Tail;
    if w.threads[x].stage.todo.Nil? {
      SetLowers(w, StepUnlock(w, x), x, StepUnlock(w, x).threads[x]);
    } else if w.threads[x].stage.todo.rest == rest {
      SetLowers(w, StepMutex(w, x, held, rest), x, StepMutex(w, x, held, rest).threads[x]);
    }
  }

  lemma DoLowers(M: Machine, w: World, x: Tid, m: Micro, rest: Ops)
    requires AtDo(w, x, m, rest)
    ensures Lowers(w, StepDo(M, w, x, m, rest), x)
  {
    hide Lowers, StepDo, Tail;
    DoKeepsLog(M, w, x, m, rest);
    SetLowers(w, StepDo(M, w, x, m, rest), x, DoneThread(w.threads[x], Executed(M, w, x, m), rest));
  }

  lemma StepLowers(M: Machine, w: World, x: Tid)
    requires LockInv(w) && CanStep(w, x)
    ensures Lowers(w, Threads.Step(M, w, x), x)
  {
    hide LockInv, StepCheck, StepLock, StepUnlock, StepMutex, StepDo, HasLock;
    RightlyFacts(w, x);
    match w.threads[x].stage
    case Checking => CheckLowers(w, x);
    case Waiting => LockLowers(w, x);
    case Inside(todo) =>
      if todo.Nil? {
        UnlockLowers(w, x, None, Nil);
      } else if todo.op.Do? {
        DoLowers(M, w, x, todo.op.m, todo.rest);
      } else {
        UnlockLowers(w, x, if todo.op.Acquire? then Some(x) else None, todo.rest);
      }
    case Leaving(todo) => if todo.Cons? { DoLowers(M, w, x, todo.op.m, todo.rest); }
  }

  lemma WorkShrinks(M: Machine, w: World, x: Tid)
    requires LockInv(w) && CanStep(w, x)
    ensures Work(Threads.Step(M, w, x).threads) < Work(w.threads)
  {
    hide LockInv, CanStep, Threads.Step, Left;
    var w' := Threads.Step(M, w, x);
    StepLowers(M, w, x);
    WorkAt(w.threads, x);
    if x in w'.threads { WorkAt(w'.threads, x); } else { assert w'.threads - {x} == w'.threads; }
    LeftPositive(w.threads[x]);
  }

  lemma LeftPositive(th: Thread)
    ensures Left(th) > 0
  {
  }

  // ---------------------------------------------------------------------
  // Calls in flight finish
  // ---------------------------------------------------------------------

  /** Steps of threads in flight only, each of them possible where it stands. */
  ghost predicate OnlySteps(M: Machine, w: World, acts: seq<Act>)
    decreases |acts|
  {
    acts == [] ||
    (&& OnlySteps(M, w, acts[..|acts| - 1])
     && acts[|acts| - 1].Advance?
     && CanStep(Play(M, w, acts[..|acts| - 1]), acts[|acts| - 1].x))
  }

  lemma {:induction false} StepsAreBounded(M: Machine, w: World, acts: seq<Act>)
    requires Sound(M) && LockInv(w) && OnlySteps(M, w, acts)
    ensures |acts| + Work(Play(M, w, acts).threads) <= Work(w.threads)
    decreases |acts|
  {
    hide Sound, LockInv, Threads.Step, CanStep, Work;
    if acts != [] {
      StepsAreBounded(M, w, acts[..|acts| - 1]);
      LocksHeldRightly(M, w, acts[..|acts| - 1]);
      WorkShrinks(M, Play(M, w, acts[..|acts| - 1]), acts[|acts| - 1].x);
    }
  }

  /** No reachable state deadlocks.  From any schedule of any calls, however the threads in flight are
      then run, they take a bounded number of steps, and when none of them can step all have returned
      and every lock is free. */
  lemma NoDeadlock(M: Machine, w0: World, calls: seq<Act>, steps: seq<Act>)
    requires Sound(M) && Idle(w0)
    requires OnlySteps(M, Play(M, w0, calls), steps)
    ensures var w := Play(M, w0, calls);
            var w' := Play(M, w, steps);
            && |steps| <= Work(w.threads)
            && ((forall x :: !CanStep(w', x)) <==> w'.threads == map[])
            && (w'.threads == map[] ==> Idle(w'))
  {
    hide Sound, LockInv, Play, OnlySteps, CanStep, Work;
    IdleInv(w0);
    LocksHeldRightly(M, w0, calls);
    var w := Play(M, w0, calls);
    StepsAreBounded(M, w, steps);
    LocksHeldRightly(M, w, steps);
    var w' := Play(M, w, steps);
    if w'.threads != map[] {
      var x :| x in w'.threads;
      var y := SomebodySteps(w', x);
      assert CanStep(w', y);
    } else {
      EmptyIsIdle(w');
      forall x ensures !CanStep(w', x) { NeedsThread(w', x); }
    }
  }

  /** At every moment of every schedule: a thread about to lock, and a thread past its unlock, holds
      nothing; a thread about to take the global mutex holds its transaction's lock and not the mutex;
      a thread about to allocate a wrapper holds both;
      a thread holding the mutex holds its transaction's lock. */
  lemma LockDiscipline(M: Machine, w0: World, acts: seq<Act>, x: Tid)
    requires Sound(M) && Idle(w0) && x in Play(M, w0, acts).threads
    ensures var w := Play(M, w0, acts);
            var th := w.threads[x];
            && (th.stage.Waiting? || th.stage.Leaving? ==> w.mutex != Some(x) && forall t :: !Holds(w, x, t))
            && (th.stage.Inside? && th.stage.todo.Cons? && th.stage.todo.op.Acquire? ==> w.mutex != Some(x) && Holds(w, x, th.t))
            && (th.stage.Inside? && th.stage.todo.Cons? && th.stage.todo.op == Do(AllocWrapper) ==> w.mutex == Some(x))
            && (w.mutex == Some(x) ==> Holds(w, x, th.t))
            && (forall t :: Holds(w, x, t) ==> t == th.t)
  {
    hide Sound, LockInv, Play;
    IdleInv(w0);
    LocksHeldRightly(M, w0, acts);
    RightlyFacts(Play(M, w0, acts), x);
  }

  lemma NeedsThread(w: World, x: Tid)
    requires x !in w.threads
    ensures !CanStep(w, x)
  {
  }

  lemma IdleInv(w: World)
    requires Idle(w)
    ensures LockInv(w)
  {
  }

  lemma EmptyIsIdle(w: World)
    requires LockInv(w) && w.threads == map[]
    ensures Idle(w)
  {
  }
}
