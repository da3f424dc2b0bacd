/** What becomes of custom events under threads: recording releases exactly the events it was called with. */
module Released {
  import opened Common
  import opened Model
  import opened ThreadCode
  import opened Threads
  import opened Linearization
  import opened LinearSteps
  import opened Schedules
  import opened Sdk

  /** Some logged call records event e. */
  ghost predicate RecordedIn(log: seq<Entry>, e: nat) {
    exists k: nat :: k < |log| && Records(log[k].c, e)
  }

  predicate Records(c: Call, e: nat) { c.RecordEvent? && c.event == e }

  predicate Gone(w: World, c: Call) { c.RecordEvent? ==> c.event !in w.events }

  /** After its unlock a record has its discard before it, or the event is gone. */
  predicate FateOk(w: World, th: Thread) {
    th.c.RecordEvent? && th.stage.Leaving? ==>
      th.stage.todo == Tail(th.c) || (th.stage.todo == Nil && th.c.event !in w.events)
  }

  ghost predicate EventOk(w0: World, w: World, e: nat) {
    Get(w.events, e) == Get(w0.events, e) || (RecordedIn(w.log, e) && e !in w.events)
  }

  ghost predicate EventsOk(w0: World, w: World) {
    && (forall e: nat :: EventOk(w0, w, e))
    && (forall k: nat :: k in w.rets ==> k < |w.log| && Gone(w, w.log[k].c))
    && (forall x :: x in w.threads ==> FateOk(w, w.threads[x]))
  }

  /** A step takes events away, and only recorded ones. */
  ghost predicate Shrinks(w: World, w': World) {
    && w.log <= w'.log
    && forall e: nat :: Get(w'.events, e) == Get(w.events, e) || (RecordedIn(w'.log, e) && e !in w'.events)
  }

  lemma RecordedGrows(log: seq<Entry>, log': seq<Entry>, e: nat)
    requires log <= log' && RecordedIn(log, e)
    ensures RecordedIn(log', e)
  {
    var k: nat :| k < |log| && Records(log[k].c, e);
    assert log'[k] == log[k];
  }

  lemma StepKeepsFates(w0: World, w: World, w': World, x: Tid)
    requires EventsOk(w0, w) && Shrinks(w, w') && OneChanged(w, w', x)
    requires x in w'.threads ==> FateOk(w', w'.threads[x])
    requires forall k: nat :: k in w'.rets && k !in w.rets ==> k < |w'.log| && Gone(w', w'.log[k].c)
    ensures EventsOk(w0, w')
  {
    hide Tail, RecordedIn;
    forall e: nat ensures EventOk(w0, w', e) {
      assert EventOk(w0, w, e);
      assert Get(w'.events, e) == Get(w.events, e) || (RecordedIn(w'.log, e) && e !in w'.events);
      if RecordedIn(w.log, e) { RecordedGrows(w.log, w'.log, e); }
    }
    forall k: nat | k in w'.rets ensures k < |w'.log| && Gone(w', w'.log[k].c) {
      if k in w.rets {
        var c := w.log[k].c;
        assert w'.log[k] == w.log[k] && Gone(w, c);
        if c.RecordEvent? { StaysGone(w, w', c.event); }
      }
    }
    forall y | y in w'.threads ensures FateOk(w', w'.threads[y]) {
      if y != x {
        assert Get(w'.threads, y) == Get(w.threads, y);
        var c := w.threads[y].c;
        assert FateOk(w, w.threads[y]);
        if c.RecordEvent? && c.event !in w.events { StaysGone(w, w', c.event); }
      }
    }
  }

  lemma StaysGone(w: World, w': World, e: nat)
    requires Shrinks(w, w') && e !in w.events
    ensures e !in w'.events
  {
    hide RecordedIn;
    assert e in w'.events ==> Get(w'.events, e) == Get(w.events, e);
  }

  // ---------------------------------------------------------------------
  // The steps
  // ---------------------------------------------------------------------

  /** A step that leaves events and returns alone. */
  lemma QuietStep(w0: World, w: World, w': World, x: Tid)
    requires EventsOk(w0, w) && w'.events == w.events && w'.rets == w.rets && w.log <= w'.log && OneChanged(w, w', x)
    requires x in w'.threads ==> FateOk(w', w'.threads[x])
    ensures EventsOk(w0, w')
  {
    hide EventsOk, FateOk, RecordedIn;
    StepKeepsFates(w0, w, w', x);
  }

  lemma SlotFacts(M: Machine, init: map<TxnId, Box>, w: World, x: Tid)
    requires WorldInv(M, init, w) && x in w.threads && Linearized(w.threads[x])
    ensures w.threads[x].slot < |w.log| && w.log[w.threads[x].slot].c == w.threads[x].c
    ensures w.threads[x].c.RecordEvent? ==> RecordedIn(w.log, w.threads[x].c.event)
    ensures !w.threads[x].r.skip && w.threads[x].t in w.txns
  {
    hide WorldInv, At, Future, AtomicRet;
    LateFacts(M, init, w, x);
    assert w.threads[x].c.RecordEvent? ==> Records(w.log[w.threads[x].slot].c, w.threads[x].c.event);
  }

  lemma DoEventsAre(M: Machine, w: World, x: Tid, m: Micro, rest: Ops)
    requires AtDo(w, x, m, rest)
    ensures var c, v := w.threads[x].c, Executed(M, w, x, m);
            && StepDo(M, w, x, m, rest).events == (if c.RecordEvent? then Put(w.events, c.event, v.event) else w.events)
            && (c.RecordEvent? ==> ViewAt(w, w.threads[x]).event == Get(w.events, c.event))
  {
  }

  lemma DoFate(M: Machine, init: map<TxnId, Box>, w0: World, w: World, x: Tid, m: Micro, rest: Ops)
    requires Sound(M) && WorldInv(M, init, w) && EventsOk(w0, w) && AtDo(w, x, m, rest)
    ensures EventsOk(w0, StepDo(M, w, x, m, rest))
  {
    hide Sound, WorldInv, ViewAt, StepDo, RecordedIn, EventOk;
    var th, v := w.threads[x], Executed(M, w, x, m);
    var w' := StepDo(M, w, x, m, rest);
    SlotFacts(M, init, w, x);
    DoKeepsLog(M, w, x, m, rest);
    DoEventsAre(M, w, x, m, rest);
    ViewRegs(w, th);
    ExecFacts(M, th.t, th.c, m, ViewAt(w, th));
    assert FateOk(w, th);
    assert FateOk(w', w'.threads[x]);
    assert OneChanged(w, w', x);
    StepKeepsFates(w0, w, w', x);
  }

  lemma CheckFate(M: Machine, w0: World, w: World, x: Tid)
    requires EventsOk(w0, w) && CanStep(w, x) && !Linearized(w.threads[x])
    ensures w.threads[x].stage.Checking? ==> EventsOk(w0, StepCheck(w, x))
    ensures w.threads[x].stage.Waiting? ==> EventsOk(w0, StepLock(w, x))
  {
    hide EventsOk, OwnWrapper, HasLock, Body, Tail, Claim;
    if w.threads[x].stage.Waiting? {
      QuietStep(w0, w, StepLock(w, x), x);
    } else if LeavesAtChecks(w, x) {
      ExitShape(w, x);
      QuietStep(w0, w, StepCheck(w, x), x);
    } else {
      QuietStep(w0, w, StepCheck(w, x), x);
    }
  }

  lemma InsideFate(w0: World, w: World, x: Tid, held: Option<Tid>, rest: Ops)
    requires EventsOk(w0, w) && CanStep(w, x) && w.threads[x].stage.Inside?
    ensures EventsOk(w0, StepUnlock(w, x)) && EventsOk(w0, StepMutex(w, x, held, rest))
  {
    hide EventsOk, Tail;
    QuietStep(w0, w, StepUnlock(w, x), x);
    QuietStep(w0, w, StepMutex(w, x, held, rest), x);
  }

  lemma ReturnFate(M: Machine, init: map<TxnId, Box>, w0: World, w: World, x: Tid)
    requires WorldInv(M, init, w) && EventsOk(w0, w) && AtReturn(w, x)
    ensures EventsOk(w0, StepReturn(w, x))
  {
    hide WorldInv, RecordedIn, EventOk;
    SlotFacts(M, init, w, x);
    assert FateOk(w, w.threads[x]);
    StepKeepsFates(w0, w, StepReturn(w, x), x);
  }

  lemma AdvanceFate(M: Machine, init: map<TxnId, Box>, w0: World, w: World, x: Tid)
    requires Sound(M) && WorldInv(M, init, w) && EventsOk(w0, w) && CanStep(w, x)
    ensures EventsOk(w0, Threads.Step(M, w, x))
  {
    hide Sound, WorldInv, EventsOk, StepCheck, StepLock, StepUnlock, StepMutex, StepDo, StepReturn, HasLock;
    match w.threads[x].stage
    case Checking => CheckFate(M, w0, w, x);
    case Waiting => CheckFate(M, w0, w, x);
    case Inside(todo) =>
      if todo.Nil? {
        InsideFate(w0, w, x, None, Nil);
      } else if todo.op.Do? {
        DoFate(M, init, w0, w, x, todo.op.m, todo.rest);
      } else {
        InsideFate(w0, w, x, if todo.op.Acquire? then Some(x) else None, todo.rest);
      }
    case Leaving(todo) =>
      if todo.Nil? { ReturnFate(M, init, w0, w, x); } else if todo.op.Do? { DoFate(M, init, w0, w, x, todo.op.m, todo.rest); }
  }

  lemma {:induction false} AfterFates(M: Machine, init: map<TxnId, Box>, w: World, acts: seq<Act>)
    requires Sound(M) && WorldInv(M, init, w) && EventsOk(w, w)
    ensures EventsOk(w, After(M, w, acts))
    decreases |acts|
  {
    hide Sound, WorldInv, EventsOk, Threads.Step, CanStep, MayCall, Guarded;
    if acts != [] {
      var v, a := After(M, w, acts[..|acts| - 1]), acts[|acts| - 1];
      AfterFates(M, init, w, acts[..|acts| - 1]);
      AfterKeeps(M, init, w, acts[..|acts| - 1]);
      if Allowed(v, a) {
        match a
        case Invoke(x, t, c) => QuietStep(w, v, SetThread(v, x, NewThread(t, c)), x);
        case Advance(x) => AdvanceFate(M, init, w, v, x);
      }
    }
  }

  /** Once every call has returned, exactly the events of the logged records are gone, and every other one is as it
      was. */
  lemma EventsAtQuiescence(init: map<TxnId, Box>, w0: World, acts: seq<Act>, e: nat)
    requires StartsSdk(init, w0) && After(SdkMachine(), w0, acts).threads == map[]
    ensures var w := After(SdkMachine(), w0, acts);
            Get(w.events, e) == if RecordedIn(w.log, e) then None else Get(w0.events, e)
  {
    hide Sound, SdkMachine, WorldInv, After, StartsSdk;
    var w := After(SdkMachine(), w0, acts);
    SdkSound();
    StartsInv(init, w0);
    StartFates(init, w0);
    AfterFates(SdkMachine(), init, w0, acts);
    QuiescentIsSequential(init, w0, acts);
    assert EventOk(w0, w, e);
    if RecordedIn(w.log, e) {
      var k: nat :| k < |w.log| && Records(w.log[k].c, e);
      assert k in w.rets && Gone(w, w.log[k].c);
    }
  }

  lemma StartFates(init: map<TxnId, Box>, w: World)
    requires StartsSdk(init, w)
    ensures EventsOk(w, w)
  {
  }
}
