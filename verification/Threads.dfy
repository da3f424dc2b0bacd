/**
 Any number of threads running the code of ThreadCode against shared
 transactions, one instruction at a time, in any interleaving.

 The machine is a parameter: `apply` is the atomic call, `exec` one instruction
 of its code, `good` the invariant of a transaction.  The protocol is described
 here and proved in Linearization from what Sound states about them.
 */
module Threads {
  import opened Common
  import opened SegmentTree
  import opened Model
  import opened ThreadCode

  type Tid = nat

  datatype Machine = Machine(
    apply: (TxnId, Box, Call) -> Result,
    exec: (TxnId, Call, Micro, View) -> View,
    good: (TxnId, Box) -> bool)

  /** A wrapper is identified by the transaction and the axiom segment it wraps. */
  datatype Key = Key(t: TxnId, s: SegId)

  datatype Stage =
    | Checking             // before the checks
    | Waiting              // at the lock
    | Inside(todo: Ops)    // under the lock, with this left to do
    | Leaving(todo: Ops)   // after the unlock, or after leaving at the checks

  /** `slot` is the position in the log once there is one; `claim` the handle it creates or consumes. */
  datatype Thread = Thread(t: TxnId, c: Call, stage: Stage, r: Regs, slot: nat, claim: Option<SegId>)

  datatype Entry = Entry(t: TxnId, c: Call)

  /** `log` lists the calls in the order in which they took the lock (or left at their checks). */
  datatype World = World(
    txns: map<TxnId, Txn>, wraps: map<Key, Wrapper>, events: map<nat, EventRecord>,
    owner: map<TxnId, Tid>, mutex: Option<Tid>, threads: map<Tid, Thread>,
    log: seq<Entry>, rets: map<nat, Ret>)

  // ---------------------------------------------------------------------
  // What a thread sees and writes
  // ---------------------------------------------------------------------

  function OwnSeg(th: Thread): Option<SegId> {
    if UsesHandle(th.c) then Some(th.c.seg) else if IsStart(th.c) then th.r.seg else None
  }

  function OwnWrapper(w: World, th: Thread): Option<Wrapper> {
    if OwnSeg(th).Some? then Get(w.wraps, Key(th.t, OwnSeg(th).value)) else None
  }

  function ViewAt(w: World, th: Thread): View
    requires th.t in w.txns
  {
    View(w.txns[th.t], OwnWrapper(w, th),
         if th.c.SetParent? then Get(w.wraps, Key(th.t, th.c.par)) else None,
         if th.c.RecordEvent? then Get(w.events, th.c.event) else None,
         th.r)
  }

  /** Stores a view back into the shared state. */
  function WriteBack(w: World, th: Thread, v: View): World {
    var th' := th.(r := v.r);
    w.(txns := w.txns[th.t := v.txn],
       wraps := if OwnSeg(th').Some? then Put(w.wraps, Key(th.t, OwnSeg(th').value), v.own) else w.wraps,
       events := if th.c.RecordEvent? then Put(w.events, th.c.event, v.event) else w.events)
  }

  function SetThread(w: World, x: Tid, th: Thread): World {
    w.(threads := w.threads[x := th])
  }

  /** Enters the call in the log. */
  function Logged(w: World, th: Thread): World {
    w.(log := w.log + [Entry(th.t, th.c)])
  }

  function Claimed(w: World, th: Thread): Thread
    requires th.t in w.txns
  {
    th.(slot := |w.log|, claim := Claim(th.c, w.txns[th.t]))
  }

  /** txn_lock is NULL on datastore and external segments, and locking NULL excludes nobody. */
  predicate HasLock(w: World, th: Thread) {
    UsesWrapperLock(th.c) ==> OwnWrapper(w, th).Some? && OwnWrapper(w, th).value.locked
  }

  // ---------------------------------------------------------------------
  // One step of one thread
  // ---------------------------------------------------------------------

  predicate CanStep(w: World, x: Tid) {
    && x in w.threads
    && w.threads[x].t in w.txns
    && match w.threads[x].stage
       case Waiting => HasLock(w, w.threads[x]) ==> w.threads[x].t !in w.owner
       case Inside(todo) => todo.Cons? && todo.op.Acquire? ==> w.mutex.None?
       case _ => true
  }

  function StepCheck(w: World, x: Tid): World
    requires CanStep(w, x)
  {
    var th := w.threads[x];
    match Check(th.c, OwnWrapper(w, th))
    case Pass => SetThread(w, x, th.(stage := Waiting))
    case Exit(ret) =>
      SetThread(Logged(w, th), x, Claimed(w, th).(stage := Leaving(Nil), r := th.r.(ret := ret)))
    case Destroy =>
      SetThread(Logged(w, th), x,
                Claimed(w, th).(stage := Leaving(Cons(Do(FreeWrapper), Nil)), r := th.r.(ret := Bool(false))))
  }

  function StepLock(w: World, x: Tid): World
    requires CanStep(w, x)
  {
    var th := w.threads[x];
    var w' := SetThread(Logged(w, th), x, Claimed(w, th).(stage := Inside(Body(th.c))));
    if HasLock(w, th) then w'.(owner := w'.owner[th.t := x]) else w'
  }

  function StepUnlock(w: World, x: Tid): World
    requires CanStep(w, x)
  {
    var th := w.threads[x];
    var w' := SetThread(w, x, th.(stage := Leaving(Tail(th.c))));
    if Get(w.owner, th.t) == Some(x) then w'.(owner := w'.owner - {th.t}) else w'
  }

  /** A goto inside the body drops what was left of it. */
  function StepDo(M: Machine, w: World, x: Tid, m: Micro, rest: Ops): World
    requires CanStep(w, x)
  {
    var th := w.threads[x];
    var v := M.exec(th.t, th.c, m, ViewAt(w, th));
    var next := if v.r.skip then Nil else rest;
    var stage := if th.stage.Inside? then Inside(next) else Leaving(next);
    SetThread(WriteBack(w, th, v), x, th.(stage := stage, r := v.r.(skip := false)))
  }

  function StepMutex(w: World, x: Tid, held: Option<Tid>, rest: Ops): World
    requires CanStep(w, x)
  {
    SetThread(w, x, w.threads[x].(stage := Inside(rest))).(mutex := held)
  }

  function StepReturn(w: World, x: Tid): World
    requires CanStep(w, x)
  {
    w.(threads := w.threads - {x}, rets := w.rets[w.threads[x].slot := w.threads[x].r.ret])
  }

  function Step(M: Machine, w: World, x: Tid): World
    requires CanStep(w, x)
  {
    match w.threads[x].stage
    case Checking => StepCheck(w, x)
    case Waiting => StepLock(w, x)
    case Inside(todo) =>
      (match todo
       case Nil => StepUnlock(w, x)
       case Cons(op, rest) =>
         match op
         case Acquire => StepMutex(w, x, Some(x), rest)
         case Release => StepMutex(w, x, None, rest)
         case Do(m) => StepDo(M, w, x, m, rest))
    case Leaving(todo) =>
      match todo
      case Nil => StepReturn(w, x)
      case Cons(op, rest) => if op.Do? then StepDo(M, w, x, op.m, rest) else w
  }

  // ---------------------------------------------------------------------
  // Client discipline
  // ---------------------------------------------------------------------

  predicate UsesSeg(th: Thread, s: SegId) {
    || th.claim == Some(s)
    || (UsesHandle(th.c) && th.c.seg == s)
    || (th.c.SetParent? && th.c.par == s)
  }

  /** Two calls in flight do not share a handle that one of them creates or consumes. */
  predicate Apart(x: Thread, y: Thread) {
    && (x.t == y.t && x.claim.Some? ==> !UsesSeg(y, x.claim.value))
    && (x.c.RecordEvent? && y.c.RecordEvent? ==> x.c.event != y.c.event)
  }

  function NewThread(t: TxnId, c: Call): Thread {
    Thread(t, c, Checking, Initial(c), 0, if c.EndSegment? then Some(c.seg) else None)
  }

  /** Live handles of this transaction, none of them being ended by another thread, and an event of its own. */
  ghost predicate MayCall(w: World, x: Tid, t: TxnId, c: Call) {
    && x !in w.threads && t in w.txns && Covered(c)
    && (UsesHandle(c) ==> Key(t, c.seg) in w.wraps)
    && (c.SetParent? ==> Key(t, c.par) in w.wraps)
    && (c.RecordEvent? ==> Get(w.events, c.event) == Some(c.record))
    && (forall y :: y in w.threads ==> Apart(w.threads[y], NewThread(t, c)) && Apart(NewThread(t, c), w.threads[y]))
  }

  /** The handle's own lock pointer is set: it was started by newrelic_start_segment. */
  predicate Guarded(w: World, t: TxnId, c: Call) {
    HasLock(w, NewThread(t, c))
  }

  datatype Act = Invoke(x: Tid, t: TxnId, c: Call) | Advance(x: Tid)

  ghost predicate Enabled(w: World, a: Act) {
    match a
    case Invoke(x, t, c) => MayCall(w, x, t, c)
    case Advance(x) => CanStep(w, x)
  }

  ghost function Next(M: Machine, w: World, a: Act): World
    requires Enabled(w, a)
  {
    match a
    case Invoke(x, t, c) => SetThread(w, x, NewThread(t, c))
    case Advance(x) => Step(M, w, x)
  }

  // ---------------------------------------------------------------------
  // The atomic reading of a log
  // ---------------------------------------------------------------------

  /** Transaction t after the logged calls, each run atomically in log order. */
  ghost function At(M: Machine, init: map<TxnId, Box>, log: seq<Entry>, t: TxnId): Box
    requires t in init
    decreases |log|
  {
    if log == [] then init[t]
    else
      var b, e := At(M, init, log[..|log| - 1], t), log[|log| - 1];
      if e.t == t then M.apply(t, b, e.c).box else b
  }

  /** What call k of the log returns when run atomically at its place. */
  ghost function AtomicRet(M: Machine, init: map<TxnId, Box>, log: seq<Entry>, k: nat): Ret
    requires k < |log| && log[k].t in init
  {
    M.apply(log[k].t, At(M, init, log[..k], log[k].t), log[k].c).ret
  }

  // ---------------------------------------------------------------------
  // Uninterrupted execution, for a machine
  // ---------------------------------------------------------------------

  ghost function Rest(M: Machine, id: TxnId, c: Call, ops: Ops, v: View): View {
    match ops
    case Nil => v
    case Cons(op, rest) =>
      match op
      case Do(m) =>
        var v' := M.exec(id, c, m, v);
        if v'.r.skip then v'.(r := v'.r.(skip := false)) else Rest(M, id, c, rest, v')
      case _ => Rest(M, id, c, rest, v)
  }

  /** Where a call in flight ends if nothing else runs. */
  ghost function Future(M: Machine, th: Thread, v: View): View {
    match th.stage
    case Inside(todo) => Rest(M, th.t, th.c, Tail(th.c), Rest(M, th.t, th.c, todo, v))
    case Leaving(todo) => Rest(M, th.t, th.c, todo, v)
    case _ => v
  }

  // ---------------------------------------------------------------------
  // What the protocol needs from the machine
  // ---------------------------------------------------------------------

  ghost predicate GoodStep(M: Machine, id: TxnId, b: Box, c: Call) {
    M.good(id, b) && Legal(b, c) && Covered(c) ==>
      var b' := M.apply(id, b, c).box;
      && M.good(id, b') && b'.txn.status.ended == b.txn.status.ended
      && (IsStart(c) && Claim(c, b.txn).Some? ==> |b'.txn.trace.segs| > |b.txn.trace.segs|)
  }

  /** Uninterrupted, the code of a call that passes its checks is the atomic call. */
  ghost predicate FinishOk(M: Machine, id: TxnId, b: Box, c: Call) {
    M.good(id, b) && Legal(b, c) && Covered(c) && Check(c, ViewOf(b, c).own).Pass? ==>
      var a := M.apply(id, b, c);
      var v := Rest(M, id, c, Tail(c), Rest(M, id, c, Body(c), ViewOf(b, c)));
      var claim := Claim(c, b.txn);
      && v.txn == a.box.txn && v.r.ret == a.ret && !v.r.fault
      && (claim.Some? ==> v.own == Get(a.box.open, claim.value))
      && (IsStart(c) ==> v.r.seg == claim)
  }

  ghost predicate ExitOk(M: Machine, id: TxnId, b: Box, c: Call) {
    M.good(id, b) && Legal(b, c) && Covered(c) ==>
      var a := M.apply(id, b, c);
      match Check(c, ViewOf(b, c).own)
      case Pass => true
      case Exit(ret) => a.box == b && a.ret == ret
      case Destroy => c.EndSegment? && a.box.txn == b.txn && c.seg !in a.box.open && a.ret == Bool(false)
  }

  /** A call changes no handle but the one it claims. */
  ghost predicate OpenFrame(M: Machine, id: TxnId, b: Box, c: Call, s: SegId) {
    Claim(c, b.txn) != Some(s) ==> Get(M.apply(id, b, c).box.open, s) == Get(b.open, s)
  }

  predicate TailMicro(m: Micro) { m.SetTxnLock? || m.StatusTrue? || m.FreeWrapper? || m.DiscardEvent? }

  /** What one instruction, taking v to v', may touch. */
  ghost predicate Frame(c: Call, m: Micro, v: View, v': View) {
    && v'.par == v.par
    && |v'.txn.trace.segs| >= |v.txn.trace.segs|
    && (UsesWrapperLock(c) || m.StartAxiom? || (!IsStart(c) && !UsesHandle(c)) ==> v'.own == v.own)
    && (!c.RecordEvent? ==> v'.event == v.event)
    && (v'.event == v.event || v'.event.None?)
    && (m.DiscardEvent? && c.RecordEvent? ==> v'.event.None?)
    && (m.StartAxiom? || v'.r.seg == v.r.seg)
    && (m.StartAxiom? && IsStart(c) && !v'.r.skip ==> v'.r.seg.Some?)
    && (m.StartAxiom? && v'.r.skip && !v.r.skip ==> v'.r.seg == v.r.seg)
    && (m.AllocWrapper? || TailMicro(m) ==> v'.r.skip == v.r.skip)
    && (TailMicro(m) && v.own.None? ==> v'.own.None?)
    && (v.r.fault ==> v'.r.fault)
    && (m.FreeWrapper? && c.EndSegment? && v.own.Some? ==> v' == v.(own := None))
  }

  ghost predicate ExecFrame(M: Machine, id: TxnId, c: Call, m: Micro, v: View) {
    Frame(c, m, v, M.exec(id, c, m, v))
  }

  /** The tail neither reads nor writes the transaction. */
  ghost predicate TailFrame(M: Machine, id: TxnId, c: Call, m: Micro, v: View, txn: Txn) {
    TailMicro(m) ==> M.exec(id, c, m, v.(txn := txn)) == M.exec(id, c, m, v).(txn := txn)
  }

  ghost predicate Sound(M: Machine) {
    && (forall id, b, c :: GoodStep(M, id, b, c))
    && (forall id, b, c :: FinishOk(M, id, b, c))
    && (forall id, b, c :: ExitOk(M, id, b, c))
    && (forall id, b, c, s :: OpenFrame(M, id, b, c, s))
    && (forall id, c, m, v :: ExecFrame(M, id, c, m, v))
    && (forall id, c, m, v, txn :: TailFrame(M, id, c, m, v, txn))
  }
}
