/**
 The SDK's calls meet what the thread protocol needs, so its schedules are
 equivalent to sequential runs of the model.
 */
module Sdk {
  import opened Common
  import opened SegmentTree
  import opened Model
  import opened Invariants
  import opened ThreadCode
  import opened Threads
  import opened Linearization
  import opened LinearSteps
  import opened Schedules
  import opened Histories

  ghost function SdkMachine(): Machine {
    Machine((t: TxnId, b: Box, c: Call) => Apply(t, b, c),
            (t: TxnId, c: Call, m: Micro, v: View) => Exec(t, c, m, v),
            (t: TxnId, b: Box) => Inv(t, b))
  }

  // ---------------------------------------------------------------------
  // One instruction
  // ---------------------------------------------------------------------

  lemma CreateFrame(id: TxnId, c: Call, m: Micro, v: View)
    requires IsStart(c)
    ensures Frame(c, m, v, DoCreate(id, c, m, v))
  {
  }

  lemma HandleFrame(c: Call, m: Micro, v: View)
    requires UsesHandle(c)
    ensures Frame(c, m, v, DoHandle(c, m, v))
  {
  }

  lemma TxnFrame(c: Call, m: Micro, v: View)
    requires !IsStart(c) && !UsesHandle(c)
    ensures Frame(c, m, v, DoTxn(c, m, v))
  {
  }

  lemma ExecFrameHolds(id: TxnId, c: Call, m: Micro, v: View)
    ensures ExecFrame(SdkMachine(), id, c, m, v)
  {
    hide Frame, DoCreate, DoHandle, DoTxn;
    if IsStart(c) { CreateFrame(id, c, m, v); } else if UsesHandle(c) { HandleFrame(c, m, v); } else { TxnFrame(c, m, v); }
  }

  lemma TailFrameHolds(id: TxnId, c: Call, m: Micro, v: View, txn: Txn)
    ensures TailFrame(SdkMachine(), id, c, m, v, txn)
  {
  }

  // ---------------------------------------------------------------------
  // One call
  // ---------------------------------------------------------------------

  lemma {:induction false} RestIsRunOps(id: TxnId, c: Call, ops: Ops, v: View)
    ensures Rest(SdkMachine(), id, c, ops, v) == RunOps(id, c, ops, v)
    decreases ops
  {
    hide Exec;
    if ops.Cons? {
      match ops.op
      case Do(m) => RestIsRunOps(id, c, ops.rest, Exec(id, c, m, v));
      case _ => RestIsRunOps(id, c, ops.rest, v);
    }
  }

  lemma FinishHolds(id: TxnId, b: Box, c: Call)
    ensures FinishOk(SdkMachine(), id, b, c)
  {
    hide Inv, Legal, Check, RunOps, Rest, Apply, Claim, Body, Tail, ViewOf;
    if Inv(id, b) && Legal(b, c) && Covered(c) && Check(c, ViewOf(b, c).own).Pass? {
      RestIsRunOps(id, c, Body(c), ViewOf(b, c));
      RestIsRunOps(id, c, Tail(c), RunOps(id, c, Body(c), ViewOf(b, c)));
      FinishIsApply(id, b, c);
    }
  }

  lemma ExitHolds(id: TxnId, b: Box, c: Call)
    ensures ExitOk(SdkMachine(), id, b, c)
  {
    hide Inv, Legal, Apply;
    if Inv(id, b) && Legal(b, c) && Covered(c) && !Check(c, ViewOf(b, c).own).Pass? {
      ExitIsApply(id, b, c);
      ExitClaim(c, ViewOf(b, c).own, b.txn);
    }
  }

  lemma GoodStepHolds(id: TxnId, b: Box, c: Call)
    ensures GoodStep(SdkMachine(), id, b, c)
  {
    hide Inv, Legal;
    if Inv(id, b) && Legal(b, c) && Covered(c) {
      ApplyKeepsInv(id, b, c);
      StackOfInv(id, b);
    }
  }

  lemma StackOfInv(id: TxnId, b: Box)
    requires Inv(id, b)
    ensures Current(b.txn.trace) < |b.txn.trace.segs|
  {
    CurrentInRange(b.txn.trace);
  }

  lemma OpenFrameHolds(id: TxnId, b: Box, c: Call, s: SegId)
    ensures OpenFrame(SdkMachine(), id, b, c, s)
  {
  }

  lemma SdkSound()
    ensures Sound(SdkMachine())
  {
    hide GoodStep, FinishOk, ExitOk, OpenFrame, ExecFrame, TailFrame, SdkMachine;
    forall id, b, c ensures GoodStep(SdkMachine(), id, b, c) { GoodStepHolds(id, b, c); }
    forall id, b, c ensures FinishOk(SdkMachine(), id, b, c) { FinishHolds(id, b, c); }
    forall id, b, c ensures ExitOk(SdkMachine(), id, b, c) { ExitHolds(id, b, c); }
    forall id, b, c, s ensures OpenFrame(SdkMachine(), id, b, c, s) { OpenFrameHolds(id, b, c, s); }
    forall id, c, m, v ensures ExecFrame(SdkMachine(), id, c, m, v) { ExecFrameHolds(id, c, m, v); }
    forall id, c, m, v, txn ensures TailFrame(SdkMachine(), id, c, m, v, txn) { TailFrameHolds(id, c, m, v, txn); }
  }

  // ---------------------------------------------------------------------
  // Schedules
  // ---------------------------------------------------------------------

  /** The calls on one transaction, in log order. */
  function CallsOf(log: seq<Entry>, t: TxnId): seq<Call>
    decreases |log|
  {
    if log == [] then []
    else
      var e := log[|log| - 1];
      var cs := CallsOf(log[..|log| - 1], t);
      if e.t == t then cs + [e.c] else cs
  }

  /** The sequential run of the calls logged on t, all of them or those before place n. */
  ghost function Sequential(init: map<TxnId, Box>, log: seq<Entry>, t: TxnId): Box
    requires t in init
  {
    Run(t, init[t], CallsOf(log, t))
  }

  lemma {:induction false} AtIsSequential(init: map<TxnId, Box>, log: seq<Entry>, t: TxnId)
    requires t in init
    ensures At(SdkMachine(), init, log, t) == Sequential(init, log, t)
    decreases |log|
  {
    hide Apply;
    if log != [] {
      var n := |log| - 1;
      var cs := CallsOf(log[..n], t);
      AtIsSequential(init, log[..n], t);
      if log[n].t == t { assert (cs + [log[n].c])[..|cs|] == cs; }
    }
  }

  lemma {:induction false} LogIsLegal(init: map<TxnId, Box>, log: seq<Entry>, t: TxnId)
    requires t in init && forall k: nat :: k < |log| ==> LogOk(SdkMachine(), init, log, k)
    ensures LegalRun(t, init[t], CallsOf(log, t))
    decreases |log|
  {
    hide Apply, Legal, At, SdkMachine;
    if log != [] {
      var n := |log| - 1;
      forall k: nat | k < n ensures LogOk(SdkMachine(), init, log[..n], k) {
        assert LogOk(SdkMachine(), init, log, k) && log[..n][..k] == log[..k];
      }
      LogIsLegal(init, log[..n], t);
      var cs := CallsOf(log[..n], t);
      if log[n].t == t {
        assert LogOk(SdkMachine(), init, log, n);
        AtIsSequential(init, log[..n], t);
        assert (cs + [log[n].c])[..|cs|] == cs;
      }
    }
  }

  lemma {:induction false} FaultsStay(M: Machine, id: TxnId, c: Call, ops: Ops, v: View)
    requires Sound(M) && v.r.fault
    ensures Rest(M, id, c, ops, v).r.fault
    decreases ops
  {
    hide Sound;
    if ops.Cons? {
      match ops.op
      case Do(m) =>
        ExecFacts(M, id, c, m, v);
        FaultsStay(M, id, c, ops.rest, M.exec(id, c, m, v));
      case _ => FaultsStay(M, id, c, ops.rest, v);
    }
  }

  lemma NoFault(M: Machine, init: map<TxnId, Box>, w: World, x: Tid)
    requires Sound(M) && WorldInv(M, init, w) && x in w.threads
    ensures !w.threads[x].r.fault
  {
    hide WorldInv, Sound, Rest, At;
    var th := w.threads[x];
    if Linearized(th) {
      LateFacts(M, init, w, x);
      var v := ViewAt(w, th);
      if th.r.fault {
        FaultsStay(M, th.t, th.c, th.stage.todo, v);
        FaultsStay(M, th.t, th.c, Tail(th.c), if th.stage.Inside? then Rest(M, th.t, th.c, th.stage.todo, v) else v);
      }
    } else {
      EarlyFacts(M, init, w, x);
    }
  }

  /** What equals the sequential run: unlocked transactions, handles nobody is creating or ending, and
      every value returned. */
  ghost predicate TxnIsAtomic(init: map<TxnId, Box>, w: World, t: TxnId)
    requires t in init
  {
    && LegalRun(t, init[t], CallsOf(w.log, t))
    && t in w.txns
    && (t !in w.owner ==> w.txns[t] == Sequential(init, w.log, t).txn)
  }

  ghost predicate HandleIsAtomic(init: map<TxnId, Box>, w: World, k: Key)
    requires k.t in init
  {
    Detached(w, k) || Get(w.wraps, k) == Get(Sequential(init, w.log, k.t).open, k.s)
  }

  ghost predicate RetIsAtomic(init: map<TxnId, Box>, w: World, k: nat)
    requires k in w.rets
  {
    && k < |w.log| && w.log[k].t in init
    && w.rets[k] == Apply(w.log[k].t, Sequential(init, w.log[..k], w.log[k].t), w.log[k].c).ret
  }

  ghost predicate StartsSdk(init: map<TxnId, Box>, w: World) {
    Starts(init, w) && forall t :: t in init ==> Inv(t, init[t]) && !init[t].txn.status.ended
  }

  lemma StartsInv(init: map<TxnId, Box>, w: World)
    requires StartsSdk(init, w)
    ensures WorldInv(SdkMachine(), init, w) && SlotsOk(w)
  {
    forall t | t in init ensures GoodStart(SdkMachine(), t, init[t]) {
      forall s | s in init[t].open ensures s < Segs(init[t].txn) { assert HandleOk(t, init[t], s); }
    }
    StartInv(SdkMachine(), init, w);
  }

  /** Every schedule of any number of threads, stopped anywhere, is the sequential runs of the calls in
      the order in which they took their locks, and no instruction ever touched freed memory. */
  lemma SchedulesAreAtomic(init: map<TxnId, Box>, w0: World, acts: seq<Act>)
    requires StartsSdk(init, w0)
    ensures var w := After(SdkMachine(), w0, acts);
            && (forall t :: t in init ==> TxnIsAtomic(init, w, t))
            && (forall k: Key :: k.t in init ==> HandleIsAtomic(init, w, k))
            && (forall k: nat :: k in w.rets ==> RetIsAtomic(init, w, k))
            && (forall k: nat :: SlotOk(w, k))
            && (forall x :: x in w.threads ==> !w.threads[x].r.fault)
  {
    hide Sound, SdkMachine, WorldInv, After, At, Apply, StartsSdk, SlotOk;
    var w := After(SdkMachine(), w0, acts);
    SdkSound();
    StartsInv(init, w0);
    AfterKeeps(SdkMachine(), init, w0, acts);
    AfterSlots(SdkMachine(), w0, acts);
    forall t | t in init ensures TxnIsAtomic(init, w, t) {
      LogFacts(SdkMachine(), init, w);
      LogIsLegal(init, w.log, t);
      GoodFacts(SdkMachine(), init, w, t);
      AtIsSequential(init, w.log, t);
    }
    forall k: Key | k.t in init ensures HandleIsAtomic(init, w, k) {
      WrapFacts(SdkMachine(), init, w, k);
      AtIsSequential(init, w.log, k.t);
    }
    forall k: nat | k in w.rets ensures RetIsAtomic(init, w, k) {
      RetFacts(SdkMachine(), init, w, k);
      AtIsSequential(init, w.log[..k], w.log[k].t);
      ApplyOfMachine(w.log[k].t, At(SdkMachine(), init, w.log[..k], w.log[k].t), w.log[k].c);
    }
    forall x | x in w.threads ensures !w.threads[x].r.fault { NoFault(SdkMachine(), init, w, x); }
  }

  lemma ApplyOfMachine(id: TxnId, b: Box, c: Call)
    ensures SdkMachine().apply(id, b, c) == Apply(id, b, c)
  {
  }

  lemma WrapFacts(M: Machine, init: map<TxnId, Box>, w: World, k: Key)
    requires WorldInv(M, init, w) && k.t in init
    ensures Detached(w, k) || Get(w.wraps, k) == Get(At(M, init, w.log, k.t).open, k.s)
  {
    hide ThreadOk, TxnOk, OwnerOk, LogOk, RetOk, Apart, At, Detached;
    assert WrapOk(M, init, w, k);
  }

  lemma RetFacts(M: Machine, init: map<TxnId, Box>, w: World, k: nat)
    requires WorldInv(M, init, w) && k in w.rets
    ensures RetOk(M, init, w, k)
  {
    hide ThreadOk, TxnOk, OwnerOk, LogOk, WrapOk, Apart, At, RetOk;
  }

  /** When every call has returned, the whole state is the sequential one, and each call of the log
      returned exactly once. */
  lemma QuiescentIsSequential(init: map<TxnId, Box>, w0: World, acts: seq<Act>)
    requires StartsSdk(init, w0) && After(SdkMachine(), w0, acts).threads == map[]
    ensures var w := After(SdkMachine(), w0, acts);
            && w.owner == map[] && w.mutex.None?
            && (forall t :: t in init ==> t in w.txns && w.txns[t] == Sequential(init, w.log, t).txn)
            && (forall k: Key :: k.t in init ==> Get(w.wraps, k) == Get(Sequential(init, w.log, k.t).open, k.s))
            && (forall k: nat :: k in w.rets <==> k < |w.log|)
  {
    hide SdkMachine, After, StartsSdk, LegalRun, Sequential;
    var w := After(SdkMachine(), w0, acts);
    SchedulesAreAtomic(init, w0, acts);
    LocksFree(init, w0, acts);
    forall t | t in init ensures t in w.txns && w.txns[t] == Sequential(init, w.log, t).txn { assert TxnIsAtomic(init, w, t); }
    forall k: Key | k.t in init ensures Get(w.wraps, k) == Get(Sequential(init, w.log, k.t).open, k.s) {
      assert HandleIsAtomic(init, w, k);
    }
    forall k: nat ensures k in w.rets <==> k < |w.log| { assert SlotOk(w, k); }
  }

  lemma LocksFree(init: map<TxnId, Box>, w0: World, acts: seq<Act>)
    requires StartsSdk(init, w0) && After(SdkMachine(), w0, acts).threads == map[]
    ensures var w := After(SdkMachine(), w0, acts); w.owner == map[] && w.mutex.None?
  {
    hide Sound, SdkMachine, After, StartsSdk, SlotsOk, TxnOk, LogOk, WrapOk, Apart, RetOk, ThreadOk;
    var w := After(SdkMachine(), w0, acts);
    SdkSound();
    StartsInv(init, w0);
    AfterKeeps(SdkMachine(), init, w0, acts);
    forall t ensures t !in w.owner { assert t in w.owner ==> OwnerOk(w, t); }
  }

  /** A transaction that no thread holds has one well-formed tree, whatever the interleaving. */
  lemma TreesUnderThreads(init: map<TxnId, Box>, w0: World, acts: seq<Act>, t: TxnId)
    requires StartsSdk(init, w0) && t in init && t !in After(SdkMachine(), w0, acts).owner
    ensures var w := After(SdkMachine(), w0, acts); t in w.txns && Tree(w.txns[t].trace.segs)
  {
    hide Sound, SdkMachine, After, StartsSdk, At, WorldInv, SlotsOk;
    var w := After(SdkMachine(), w0, acts);
    SdkSound();
    StartsInv(init, w0);
    AfterKeeps(SdkMachine(), init, w0, acts);
    GoodFacts(SdkMachine(), init, w, t);
    GoodIsTree(t, At(SdkMachine(), init, w.log, t));
  }

  lemma GoodIsTree(t: TxnId, b: Box)
    requires SdkMachine().good(t, b)
    ensures Tree(b.txn.trace.segs)
  {
  }

  // ---------------------------------------------------------------------
  // What follows for threads
  // ---------------------------------------------------------------------

  /** Two schedules whose calls on t record the same multiset of samples leave the same metric table. */
  lemma MetricsIgnoreInterleaving(init: map<TxnId, Box>, w0: World, acts: seq<Act>, w0': World, acts': seq<Act>, t: TxnId)
    requires StartsSdk(init, w0) && StartsSdk(init, w0') && t in init
    requires var w, w' := After(SdkMachine(), w0, acts), After(SdkMachine(), w0', acts');
             && t !in w.owner && t !in w'.owner
             && multiset(SamplesOf(t, init[t], CallsOf(w.log, t))) == multiset(SamplesOf(t, init[t], CallsOf(w'.log, t)))
    ensures var w, w' := After(SdkMachine(), w0, acts), After(SdkMachine(), w0', acts');
            t in w.txns && t in w'.txns && w.txns[t].metrics == w'.txns[t].metrics
  {
    hide SdkMachine, After, StartsSdk, LegalRun, Model.Run, SamplesOf;
    var w, w' := After(SdkMachine(), w0, acts), After(SdkMachine(), w0', acts');
    SchedulesAreAtomic(init, w0, acts);
    SchedulesAreAtomic(init, w0', acts');
    assert TxnIsAtomic(init, w, t) && TxnIsAtomic(init, w', t);
    MetricsIgnoreOrder(t, init[t], CallsOf(w.log, t), CallsOf(w'.log, t));
  }

  /** With errors enabled, the error an unlocked transaction holds is the last one of maximum priority in the order
      in which the threads took the lock. */
  lemma ErrorsFollowLockOrder(init: map<TxnId, Box>, w0: World, acts: seq<Act>, t: TxnId, now: nat) returns (k: nat)
    requires StartsSdk(init, w0) && t in init && init[t] == Fresh(true, now) && t !in After(SdkMachine(), w0, acts).owner
    ensures var w := After(SdkMachine(), w0, acts);
            && t in w.txns
            && RetainsRight(w.txns[t].status.error, CallsOf(w.log, t), k)
            && var e, cs := w.txns[t].status.error, CallsOf(w.log, t);
               e.Some? ==> k < |cs| && cs[k].NoticeError? && e.value.priority == cs[k].priority
                           && Some(e.value.message) == cs[k].message && Some(e.value.class_) == cs[k].class_
  {
    hide SdkMachine, After, StartsSdk, LegalRun, Model.Run;
    var w := After(SdkMachine(), w0, acts);
    SchedulesAreAtomic(init, w0, acts);
    assert TxnIsAtomic(init, w, t);
    var cs := CallsOf(w.log, t);
    k := Retention(cs);
    StatusOfRun(t, Fresh(true, now), cs);
  }
}
