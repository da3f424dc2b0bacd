/**
 Whole schedules.  From an initial world, any sequence of invocations and steps
 is equivalent to running the logged calls atomically in log order, and every
 logged call returns once.
 */
module Schedules {
  import opened Common
  import opened SegmentTree
  import opened Model
  import opened ThreadCode
  import opened Threads
  import opened Linearization
  import opened LinearSteps

  /** An invocation through a handle without a lock pointer is outside the guarded schedules. */
  ghost predicate Allowed(w: World, a: Act) {
    Enabled(w, a) && (a.Invoke? ==> Guarded(w, a.t, a.c))
  }

  ghost function Take(M: Machine, w: World, a: Act): World {
    if Allowed(w, a) then Next(M, w, a) else w
  }

  /** The world after a schedule; an act that is not allowed where it stands does not happen. */
  ghost function After(M: Machine, w: World, acts: seq<Act>): World
    decreases |acts|
  {
    if acts == [] then w else Take(M, After(M, w, acts[..|acts| - 1]), acts[|acts| - 1])
  }

  // ---------------------------------------------------------------------
  // Every schedule keeps the invariant
  // ---------------------------------------------------------------------

  lemma AdvanceKeeps(M: Machine, init: map<TxnId, Box>, w: World, x: Tid)
    requires Sound(M) && WorldInv(M, init, w) && CanStep(w, x)
    ensures WorldInv(M, init, Threads.Step(M, w, x))
  {
    hide Sound, WorldInv, StepDo, StepLock, StepUnlock, StepMutex, StepReturn, Check;
    match w.threads[x].stage
    case Checking =>
      if Check(w.threads[x].c, OwnWrapper(w, w.threads[x])).Pass? { PassKeeps(M, init, w, x); } else { ExitKeeps(M, init, w, x); }
    case Waiting => LockKeeps(M, init, w, x);
    case Inside(todo) =>
      if todo.Nil? {
        UnlockKeeps(M, init, w, x);
      } else if todo.op.Do? {
        DoKeeps(M, init, w, x, todo.op.m, todo.rest);
      } else {
        MutexKeeps(M, init, w, x);
      }
    case Leaving(todo) =>
      if todo.Nil? {
        ReturnKeeps(M, init, w, x);
      } else if todo.op.Do? {
        DoKeeps(M, init, w, x, todo.op.m, todo.rest);
      }
  }

  lemma TakeKeeps(M: Machine, init: map<TxnId, Box>, w: World, a: Act)
    requires Sound(M) && WorldInv(M, init, w)
    ensures WorldInv(M, init, Take(M, w, a))
  {
    hide Sound, WorldInv, MayCall, CanStep, Guarded, Threads.Step;
    if Allowed(w, a) {
      match a
      case Invoke(x, t, c) => InvokeKeeps(M, init, w, x, t, c);
      case Advance(x) => AdvanceKeeps(M, init, w, x);
    }
  }

  lemma {:induction false} AfterKeeps(M: Machine, init: map<TxnId, Box>, w: World, acts: seq<Act>)
    requires Sound(M) && WorldInv(M, init, w)
    ensures WorldInv(M, init, After(M, w, acts))
    decreases |acts|
  {
    hide Sound, WorldInv, Take;
    if acts != [] {
      AfterKeeps(M, init, w, acts[..|acts| - 1]);
      TakeKeeps(M, init, After(M, w, acts[..|acts| - 1]), acts[|acts| - 1]);
    }
  }

  // ---------------------------------------------------------------------
  // Where schedules start
  // ---------------------------------------------------------------------

  ghost predicate GoodStart(M: Machine, t: TxnId, b: Box) {
    && M.good(t, b) && !b.txn.status.ended
    && forall s :: s in b.open ==> s < Segs(b.txn)
  }

  /** Nothing in flight, and each transaction with its handles as given. */
  ghost predicate Starts(init: map<TxnId, Box>, w: World) {
    && w.txns == (map t | t in init :: init[t].txn)
    && (forall k: Key :: Get(w.wraps, k) == if k.t in init then Get(init[k.t].open, k.s) else None)
    && w.owner == map[] && w.mutex.None? && w.threads == map[] && w.log == [] && w.rets == map[]
  }

  lemma StartInv(M: Machine, init: map<TxnId, Box>, w: World)
    requires Starts(init, w) && forall t :: t in init ==> GoodStart(M, t, init[t])
    ensures WorldInv(M, init, w)
  {
    forall t | t in init ensures TxnOk(M, init, w, t) { assert GoodStart(M, t, init[t]); }
    forall k: Key ensures WrapOk(M, init, w, k) {
      assert Get(w.wraps, k) == if k.t in init then Get(init[k.t].open, k.s) else None;
      if k.t in init { assert GoodStart(M, k.t, init[k.t]); }
    }
  }

  // ---------------------------------------------------------------------
  // Every logged call is in flight or has returned, and not both
  // ---------------------------------------------------------------------

  /** The place in the log of the call x is in, once it has one. */
  function SlotOf(w: World, x: Tid): Option<nat> {
    if x in w.threads && Linearized(w.threads[x]) then Some(w.threads[x].slot) else None
  }

  /** Place k of the log belongs to exactly one call, in flight or returned. */
  ghost predicate SlotOk(w: World, k: nat) {
    && (k < |w.log| <==> k in w.rets || exists x :: SlotOf(w, x) == Some(k))
    && (k in w.rets ==> forall x :: SlotOf(w, x) != Some(k))
    && (forall x, y :: SlotOf(w, x) == Some(k) && SlotOf(w, y) == Some(k) ==> x == y)
  }

  ghost predicate SlotsOk(w: World) { forall k: nat :: SlotOk(w, k) }

  /** How one step can bear on the log: not at all, by logging x's call, or by returning from it. */
  ghost predicate SlotStep(w: World, w': World, x: Tid) {
    && w.log <= w'.log
    && (forall y :: y != x ==> SlotOf(w', y) == SlotOf(w, y))
    && (|| (|w'.log| == |w.log| && w'.rets == w.rets && SlotOf(w', x) == SlotOf(w, x))
        || (|w'.log| == |w.log| + 1 && w'.rets == w.rets && SlotOf(w, x) == None && SlotOf(w', x) == Some(|w.log|))
        || (|w'.log| == |w.log| && SlotOf(w, x).Some? && SlotOf(w', x) == None
            && w'.rets.Keys == w.rets.Keys + {SlotOf(w, x).value}))
  }

  lemma SlotStepKeeps(w: World, w': World, x: Tid, k: nat)
    requires SlotsOk(w) && SlotStep(w, w', x)
    ensures SlotOk(w', k)
  {
    hide SlotOf;
    assert SlotOk(w, k) && SlotOk(w, |w.log|);
    if k < |w'.log| && k !in w'.rets {
      if k < |w.log| {
        var y :| SlotOf(w, y) == Some(k);
        assert SlotOf(w', y) == Some(k);
      } else {
        assert SlotOf(w', x) == Some(k);
      }
    }
    forall y | SlotOf(w', y) == Some(k) ensures k < |w'.log| && k !in w'.rets {
      if y != x { assert SlotOf(w, y) == Some(k); }
    }
    forall y, z | SlotOf(w', y) == Some(k) && SlotOf(w', z) == Some(k) ensures y == z {
      assert y != x ==> SlotOf(w, y) == Some(k);
      assert z != x ==> SlotOf(w, z) == Some(k);
    }
  }

  /** SlotStep, for a step that replaces x's record. */
  lemma SetSlots(w: World, w': World, x: Tid, th': Thread)
    requires x in w.threads && w'.threads == w.threads[x := th'] && w'.rets == w.rets
    requires w.log <= w'.log
    requires || (w'.log == w.log && Linearized(th') == Linearized(w.threads[x]) && th'.slot == w.threads[x].slot)
             || (|w'.log| == |w.log| + 1 && !Linearized(w.threads[x]) && Linearized(th') && th'.slot == |w.log|)
    ensures SlotStep(w, w', x)
  {
  }

  lemma CheckSlots(w: World, x: Tid)
    requires CanStep(w, x) && w.threads[x].stage.Checking?
    ensures SlotStep(w, StepCheck(w, x), x)
  {
    hide Check, OwnWrapper, HasLock, SlotStep;
    if LeavesAtChecks(w, x) {
      ExitShape(w, x);
      SetSlots(w, StepCheck(w, x), x, ExitThread(w, w.threads[x]));
    } else {
      SetSlots(w, StepCheck(w, x), x, w.threads[x].(stage := Waiting));
    }
  }

  lemma LockSlots(w: World, x: Tid)
    requires CanStep(w, x) && !Linearized(w.threads[x])
    ensures SlotStep(w, StepLock(w, x), x)
  {
    hide OwnWrapper, Body, HasLock, Claim, SlotStep;
    SetSlots(w, StepLock(w, x), x, StepLock(w, x).threads[x]);
  }

  lemma DoSlots(M: Machine, w: World, x: Tid, m: Micro, rest: Ops)
    requires AtDo(w, x, m, rest)
    ensures SlotStep(w, StepDo(M, w, x, m, rest), x)
  {
    hide StepDo, SlotStep;
    DoKeepsLog(M, w, x, m, rest);
    SetSlots(w, StepDo(M, w, x, m, rest), x, DoneThread(w.threads[x], Executed(M, w, x, m), rest));
  }

  lemma UnlockSlots(w: World, x: Tid, held: Option<Tid>, rest: Ops)
    requires CanStep(w, x) && w.threads[x].stage.Inside?
    ensures SlotStep(w, StepUnlock(w, x), x) && SlotStep(w, StepMutex(w, x, held, rest), x)
  {
    hide Tail, SlotStep;
    SetSlots(w, StepUnlock(w, x), x, StepUnlock(w, x).threads[x]);
    SetSlots(w, StepMutex(w, x, held, rest), x, StepMutex(w, x, held, rest).threads[x]);
  }

  lemma ReturnSlots(w: World, x: Tid)
    requires CanStep(w, x) && Linearized(w.threads[x])
    ensures SlotStep(w, StepReturn(w, x), x)
  {
  }

  lemma StepSlots(M: Machine, w: World, x: Tid)
    requires CanStep(w, x)
    ensures SlotStep(w, Threads.Step(M, w, x), x)
  {
    hide StepCheck, StepLock, StepUnlock, StepMutex, StepDo, StepReturn, HasLock;
    match w.threads[x].stage
    case Checking => CheckSlots(w, x);
    case Waiting => LockSlots(w, x);
    case Inside(todo) =>
      if todo.Nil? {
        UnlockSlots(w, x, None, Nil);
      } else if todo.op.Do? {
        DoSlots(M, w, x, todo.op.m, todo.rest);
      } else {
        UnlockSlots(w, x, if todo.op.Acquire? then Some(x) else None, todo.rest);
      }
    case Leaving(todo) =>
      if todo.Nil? { ReturnSlots(w, x); } else if todo.op.Do? { DoSlots(M, w, x, todo.op.m, todo.rest); }
  }

  lemma {:induction false} AfterSlots(M: Machine, w: World, acts: seq<Act>)
    requires SlotsOk(w)
    ensures SlotsOk(After(M, w, acts)) && w.log <= After(M, w, acts).log
    decreases |acts|
  {
    hide Threads.Step, CanStep, Guarded, SlotStep, SlotsOk;
    if acts != [] {
      var v, a := After(M, w, acts[..|acts| - 1]), acts[|acts| - 1];
      AfterSlots(M, w, acts[..|acts| - 1]);
      if Allowed(v, a) {
        if a.Advance? { StepSlots(M, v, a.x); } else { InvokeSlots(v, a.x, a.t, a.c); }
        AllSlots(v, Next(M, v, a), a.x);
      }
    }
  }

  lemma InvokeSlots(w: World, x: Tid, t: TxnId, c: Call)
    requires x !in w.threads
    ensures SlotStep(w, SetThread(w, x, NewThread(t, c)), x)
  {
  }

  lemma AllSlots(w: World, w': World, x: Tid)
    requires SlotsOk(w) && SlotStep(w, w', x)
    ensures SlotsOk(w') && w.log <= w'.log
  {
    hide SlotOk;
    forall k: nat ensures SlotOk(w', k) { SlotStepKeeps(w, w', x, k); }
  }
}
