/**
 Every interleaving of the threads equals running the logged calls atomically,
 one after the other, in the order in which they took their transaction's lock.
 */
module Linearization {
  import opened Common
  import opened SegmentTree
  import opened Model
  import opened ThreadCode
  import opened Threads

  // ---------------------------------------------------------------------
  // The invariant
  // ---------------------------------------------------------------------

  predicate Linearized(th: Thread) { th.stage.Inside? || th.stage.Leaving? }

  predicate ClaimsKey(th: Thread, k: Key) { th.t == k.t && th.claim == Some(k.s) }

  /** A logged call in flight is creating or consuming this wrapper. */
  ghost predicate Detached(w: World, k: Key) {
    exists x :: x in w.threads && Linearized(w.threads[x]) && ClaimsKey(w.threads[x], k)
  }

  /** The global mutex is taken and given back in turn, around the allocation and nothing else. */
  predicate BracketOk(ops: Ops, held: bool) {
    match ops
    case Nil => !held
    case Cons(op, rest) =>
      match op
      case Acquire => !held && BracketOk(rest, true)
      case Release => held && BracketOk(rest, false)
      case Do(m) => (held <==> m.AllocWrapper?) && BracketOk(rest, held)
  }

  predicate NoStart(ops: Ops) {
    ops.Nil? || (ops.op != Do(StartAxiom) && NoStart(ops.rest))
  }

  predicate TailOnly(ops: Ops) {
    ops.Nil? || (ops.op.Do? && TailMicro(ops.op.m) && TailOnly(ops.rest))
  }

  predicate HandlesBelow(c: Call, n: nat) {
    (UsesHandle(c) ==> c.seg < n) && (c.SetParent? ==> c.par < n)
  }

  function Segs(t: Txn): nat { |t.trace.segs| }

  /** A call that is not in the log yet. */
  ghost predicate EarlyOk(w: World, th: Thread)
    requires th.t in w.txns
  {
    && th.r == Initial(th.c)
    && th.claim == NewThread(th.t, th.c).claim
    && (UsesHandle(th.c) ==> Key(th.t, th.c.seg) in w.wraps)
    && (th.c.SetParent? ==> Key(th.t, th.c.par) in w.wraps)
    && (th.c.RecordEvent? ==> Get(w.events, th.c.event) == Some(th.c.record))
    && HasLock(w, th)
    && (th.stage.Waiting? ==> Check(th.c, OwnWrapper(w, th)).Pass?)
  }

  /** A call in the log ends, if left alone, where its atomic version ends. */
  ghost predicate OnCourse(M: Machine, init: map<TxnId, Box>, w: World, th: Thread)
    requires th.t in w.txns && th.t in init
  {
    var f := Future(M, th, ViewAt(w, th));
    && th.slot < |w.log| && w.log[th.slot] == Entry(th.t, th.c)
    && f.r.ret == AtomicRet(M, init, w.log, th.slot)
    && !f.r.fault
    && (th.claim.Some? ==> f.own == Get(At(M, init, w.log, th.t).open, th.claim.value))
    && (IsStart(th.c) ==> f.r.seg == th.claim)
    && (th.stage.Inside? ==> f.txn == At(M, init, w.log, th.t).txn)
  }

  predicate RegsOk(th: Thread) {
    && !th.r.skip
    && (th.r.seg.Some? ==> IsStart(th.c) && th.r.seg == th.claim)
    && (th.claim.Some? ==> IsStart(th.c) || th.c.EndSegment?)
    && (th.c.EndSegment? ==> th.claim == Some(th.c.seg))
  }

  ghost predicate InsideOk(M: Machine, init: map<TxnId, Box>, w: World, x: Tid, th: Thread)
    requires th.stage.Inside? && th.t in w.txns && th.t in init
  {
    && Get(w.owner, th.t) == Some(x)
    && BracketOk(th.stage.todo, w.mutex == Some(x))
    && (|| (IsStart(th.c) && th.stage.todo == Body(th.c) && th.r.seg.None?)
        || (NoStart(th.stage.todo) && (IsStart(th.c) ==> th.r.seg.Some? || th.stage.todo.Nil?)))
    && (IsStart(th.c) && th.claim.Some? ==> th.claim.value < Segs(At(M, init, w.log, th.t).txn))
  }

  ghost predicate LeavingOk(w: World, x: Tid, th: Thread)
    requires th.stage.Leaving? && th.t in w.txns
  {
    && TailOnly(th.stage.todo)
    && w.mutex != Some(x)
    && Get(w.owner, th.t) != Some(x)
    && (th.claim.Some? ==> th.claim.value < Segs(w.txns[th.t]))
  }

  ghost predicate ThreadOk(M: Machine, init: map<TxnId, Box>, w: World, x: Tid, th: Thread) {
    && th.t in w.txns && th.t in init && Covered(th.c)
    && HandlesBelow(th.c, Segs(w.txns[th.t]))
    && (!Linearized(th) ==> EarlyOk(w, th) && w.mutex != Some(x) && Get(w.owner, th.t) != Some(x))
    && (Linearized(th) ==> RegsOk(th) && OnCourse(M, init, w, th))
    && (th.stage.Inside? ==> InsideOk(M, init, w, x, th))
    && (th.stage.Leaving? ==> LeavingOk(w, x, th))
  }

  ghost predicate TxnOk(M: Machine, init: map<TxnId, Box>, w: World, t: TxnId)
    requires t in init
  {
    var b := At(M, init, w.log, t);
    && t in w.txns
    && M.good(t, b) && !b.txn.status.ended
    && (t !in w.owner ==> w.txns[t] == b.txn)
  }

  /** Except while a call in flight claims it, a handle is what the atomic reading says it is. */
  ghost predicate WrapOk(M: Machine, init: map<TxnId, Box>, w: World, k: Key) {
    if k.t in init then
      && k.t in w.txns
      && (|| Detached(w, k)
          || ((k in w.wraps ==> k.s < Segs(w.txns[k.t])) && Get(At(M, init, w.log, k.t).open, k.s) == Get(w.wraps, k)))
    else k !in w.wraps
  }

  predicate OwnerOk(w: World, t: TxnId)
    requires t in w.owner
  {
    w.owner[t] in w.threads && w.threads[w.owner[t]].t == t && w.threads[w.owner[t]].stage.Inside?
  }

  ghost predicate LogOk(M: Machine, init: map<TxnId, Box>, log: seq<Entry>, k: nat)
    requires k < |log|
  {
    log[k].t in init && Legal(At(M, init, log[..k], log[k].t), log[k].c)
  }

  ghost predicate RetOk(M: Machine, init: map<TxnId, Box>, w: World, k: nat)
    requires k in w.rets
  {
    k < |w.log| && w.log[k].t in init && w.rets[k] == AtomicRet(M, init, w.log, k)
  }

  ghost predicate WorldInv(M: Machine, init: map<TxnId, Box>, w: World) {
    && w.txns.Keys == init.Keys
    && (forall t :: t in init ==> TxnOk(M, init, w, t))
    && (forall k: Key :: WrapOk(M, init, w, k))
    && (forall x :: x in w.threads ==> ThreadOk(M, init, w, x, w.threads[x]))
    && (forall x, y :: x in w.threads && y in w.threads && x != y ==> Apart(w.threads[x], w.threads[y]))
    && (forall t :: t in w.owner ==> OwnerOk(w, t))
    && (w.mutex.Some? ==> w.mutex.value in w.threads && w.threads[w.mutex.value].stage.Inside?)
    && (forall k: nat :: k < |w.log| ==> LogOk(M, init, w.log, k))
    && (forall k :: k in w.rets ==> RetOk(M, init, w, k))
  }

  // ---------------------------------------------------------------------
  // Logs
  // ---------------------------------------------------------------------

  lemma AtSnoc(M: Machine, init: map<TxnId, Box>, log: seq<Entry>, e: Entry, t: TxnId)
    requires t in init
    ensures At(M, init, log + [e], t)
         == if e.t == t then M.apply(t, At(M, init, log, t), e.c).box else At(M, init, log, t)
  {
    assert (log + [e])[..|log|] == log;
  }

  /** A call logged on a good transaction keeps it good and its place in the log legal. */
  lemma LogGrows(M: Machine, init: map<TxnId, Box>, log: seq<Entry>, e: Entry)
    requires Sound(M) && e.t in init && Covered(e.c)
    requires forall k: nat :: k < |log| ==> LogOk(M, init, log, k)
    requires var b := At(M, init, log, e.t); M.good(e.t, b) && !b.txn.status.ended && Legal(b, e.c)
    ensures forall k: nat :: k < |log| + 1 ==> LogOk(M, init, log + [e], k)
    ensures var b' := At(M, init, log + [e], e.t); M.good(e.t, b') && !b'.txn.status.ended
  {
    forall k: nat | k < |log| + 1 ensures LogOk(M, init, log + [e], k) {
      if k < |log| {
        assert LogOk(M, init, log, k);
        assert (log + [e])[..k] == log[..k];
      } else {
        assert (log + [e])[..k] == log;
      }
    }
    AtSnoc(M, init, log, e, e.t);
    assert GoodStep(M, e.t, At(M, init, log, e.t), e.c);
  }

  lemma AtomicRetStable(M: Machine, init: map<TxnId, Box>, log: seq<Entry>, e: Entry, k: nat)
    requires k < |log| && log[k].t in init
    ensures AtomicRet(M, init, log + [e], k) == AtomicRet(M, init, log, k)
  {
    assert (log + [e])[..k] == log[..k];
  }

  // ---------------------------------------------------------------------
  // Tails do not see the transaction
  // ---------------------------------------------------------------------

  lemma {:induction false} TailIgnoresTxn(M: Machine, id: TxnId, c: Call, ops: Ops, v: View, txn: Txn)
    requires Sound(M) && TailOnly(ops)
    ensures Rest(M, id, c, ops, v.(txn := txn)) == Rest(M, id, c, ops, v).(txn := txn)
    decreases ops
  {
    if ops.Cons? {
      var m := ops.op.m;
      assert TailFrame(M, id, c, m, v, txn);
      TailIgnoresTxn(M, id, c, ops.rest, M.exec(id, c, m, v), txn);
    }
  }

  lemma {:induction false} RestKeepsSeg(M: Machine, id: TxnId, c: Call, ops: Ops, v: View)
    requires Sound(M) && NoStart(ops)
    ensures Rest(M, id, c, ops, v).r.seg == v.r.seg
    decreases ops
  {
    if ops.Cons? {
      match ops.op
      case Do(m) =>
        assert ExecFrame(M, id, c, m, v);
        RestKeepsSeg(M, id, c, ops.rest, M.exec(id, c, m, v));
      case _ =>
        RestKeepsSeg(M, id, c, ops.rest, v);
    }
  }

  lemma CodeShape(c: Call)
    ensures TailOnly(Tail(c)) && BracketOk(Body(c), false) && NoStart(Tail(c))
    ensures IsStart(c) ==> Body(c).Cons? && Body(c).op == Do(StartAxiom) && NoStart(Body(c).rest)
    ensures !IsStart(c) ==> NoStart(Body(c))
  {
    hide BracketOk;
    BodyBrackets(c);
  }

  lemma BodyBrackets(c: Call)
    ensures BracketOk(Body(c), false)
  {
    hide BracketOk;
    if IsStart(c) {
      var next := if c.StartCustom? then Cons(Do(NameSegment), Nil) else Cons(Do(TypeSegment), Cons(Do(CopyFields), Nil));
      PlainBrackets(next);
      CreateBrackets(next);
    } else {
      PlainBrackets(Body(c));
    }
  }

  predicate Plain(ops: Ops) {
    ops.Nil? || (ops.op.Do? && !ops.op.m.AllocWrapper? && Plain(ops.rest))
  }

  lemma {:induction false} PlainBrackets(ops: Ops)
    requires Plain(ops)
    ensures BracketOk(ops, false)
  {
    if ops.Cons? { PlainBrackets(ops.rest); }
  }

  lemma CreateBrackets(next: Ops)
    requires BracketOk(next, false)
    ensures BracketOk(Create(next), false)
  {
    var fill := Cons(Do(FillWrapper), next);
    assert BracketOk(Cons(Release, fill), true);
    assert BracketOk(Cons(Do(AllocWrapper), Cons(Release, fill)), true);
  }

  // ---------------------------------------------------------------------
  // What a step of x leaves alone
  // ---------------------------------------------------------------------

  /** th is the stepping thread's record, with the claim it has after the step. */
  ghost predicate Framed(M: Machine, init: map<TxnId, Box>, w: World, w': World, x: Tid, th: Thread) {
    && th.t in init && th.t in w.txns
    && w'.txns.Keys == w.txns.Keys
    && (forall t :: t in w.txns && t != th.t ==> w'.txns[t] == w.txns[t])
    && Segs(w'.txns[th.t]) >= Segs(w.txns[th.t])
    && (forall k: Key :: !ClaimsKey(th, k) ==> Get(w'.wraps, k) == Get(w.wraps, k))
    && (forall e :: !(th.c.RecordEvent? && th.c.event == e) ==> Get(w'.events, e) == Get(w.events, e))
    && (forall t, y: Tid :: y != x ==> (Get(w'.owner, t) == Some(y) <==> Get(w.owner, t) == Some(y)))
    && (forall y: Tid :: y != x ==> (w'.mutex == Some(y) <==> w.mutex == Some(y)))
    && (forall y :: y != x ==> Get(w'.threads, y) == Get(w.threads, y))
    && (forall t :: t in init && t != th.t ==> At(M, init, w'.log, t) == At(M, init, w.log, t))
    && (forall s: SegId :: th.claim != Some(s) ==>
          Get(At(M, init, w'.log, th.t).open, s) == Get(At(M, init, w.log, th.t).open, s))
    && (Get(w.owner, th.t).Some? && Get(w.owner, th.t) != Some(x) ==>
          && w'.txns[th.t] == w.txns[th.t]
          && At(M, init, w'.log, th.t).txn == At(M, init, w.log, th.t).txn)
    && (w'.log == w.log || w'.log == w.log + [Entry(th.t, th.c)])
  }

  lemma EarlyFrame(M: Machine, init: map<TxnId, Box>, w: World, w': World, x: Tid, th: Thread, y: Tid)
    requires Framed(M, init, w, w', x, th) && y != x && y in w.threads
    requires Apart(th, w.threads[y])
    requires w.threads[y].t in w.txns && !Linearized(w.threads[y]) && EarlyOk(w, w.threads[y])
    ensures EarlyOk(w', w.threads[y])
  {
    var ty := w.threads[y];
    if UsesHandle(ty.c) {
      assert !ClaimsKey(th, Key(ty.t, ty.c.seg));
      assert Get(w'.wraps, Key(ty.t, ty.c.seg)) == Get(w.wraps, Key(ty.t, ty.c.seg));
    }
    if ty.c.SetParent? {
      assert !ClaimsKey(th, Key(ty.t, ty.c.par));
      assert Get(w'.wraps, Key(ty.t, ty.c.par)) == Get(w.wraps, Key(ty.t, ty.c.par));
    }
    assert OwnWrapper(w', ty) == OwnWrapper(w, ty);
  }

  lemma OwnFrame(M: Machine, init: map<TxnId, Box>, w: World, w': World, x: Tid, th: Thread, ty: Thread)
    requires Framed(M, init, w, w', x, th) && Apart(th, ty) && RegsOk(ty)
    ensures OwnWrapper(w', ty) == OwnWrapper(w, ty)
  {
    if OwnSeg(ty).Some? {
      var k := Key(ty.t, OwnSeg(ty).value);
      assert UsesSeg(ty, k.s);
      assert !ClaimsKey(th, k);
      assert Get(w'.wraps, k) == Get(w.wraps, k);
    }
  }

  /** The view of another thread changes at most in a transaction it does not hold. */
  lemma ViewFrame(M: Machine, init: map<TxnId, Box>, w: World, w': World, x: Tid, th: Thread, ty: Thread)
    requires Framed(M, init, w, w', x, th) && Apart(th, ty) && ty.t in w.txns && RegsOk(ty)
    ensures ty.t in w'.txns
    ensures ViewAt(w', ty) == ViewAt(w, ty).(txn := w'.txns[ty.t])
  {
    OwnFrame(M, init, w, w', x, th, ty);
    if ty.c.SetParent? {
      var k := Key(ty.t, ty.c.par);
      assert UsesSeg(ty, k.s);
      assert !ClaimsKey(th, k);
      assert Get(w'.wraps, k) == Get(w.wraps, k);
    }
  }

  lemma CourseFrame(M: Machine, init: map<TxnId, Box>, w: World, w': World, x: Tid, th: Thread, y: Tid)
    requires Sound(M) && Framed(M, init, w, w', x, th) && y != x && y in w.threads
    requires Apart(th, w.threads[y]) && w.threads[y].t in w.txns && w.threads[y].t in init && RegsOk(w.threads[y])
    requires Linearized(w.threads[y]) && OnCourse(M, init, w, w.threads[y])
    requires w.threads[y].stage.Inside? ==> Get(w.owner, w.threads[y].t) == Some(y)
    requires w.threads[y].stage.Leaving? ==> TailOnly(w.threads[y].stage.todo)
    ensures w.threads[y].t in w'.txns && OnCourse(M, init, w', w.threads[y])
  {
    hide Sound, At, AtomicRet, Rest;
    var ty := w.threads[y];
    ViewFrame(M, init, w, w', x, th, ty);
    var v, v' := ViewAt(w, ty), ViewAt(w', ty);
    if w'.log != w.log {
      AtomicRetStable(M, init, w.log, Entry(th.t, th.c), ty.slot);
    }
    if ty.stage.Leaving? {
      TailIgnoresTxn(M, ty.t, ty.c, ty.stage.todo, v, w'.txns[ty.t]);
    } else {
      assert v' == v;
    }
    if ty.claim.Some? && ty.t == th.t {
      assert th.claim != ty.claim;
    }
  }

  lemma OthersOk(M: Machine, init: map<TxnId, Box>, w: World, w': World, x: Tid, th: Thread, y: Tid)
    requires Sound(M) && Framed(M, init, w, w', x, th) && y != x && y in w.threads
    requires Apart(th, w.threads[y]) && ThreadOk(M, init, w, y, w.threads[y])
    ensures y in w'.threads && w'.threads[y] == w.threads[y] && ThreadOk(M, init, w', y, w.threads[y])
  {
    var ty := w.threads[y];
    assert Get(w'.threads, y) == Get(w.threads, y);
    if Linearized(ty) {
      CourseFrame(M, init, w, w', x, th, y);
    } else {
      EarlyFrame(M, init, w, w', x, th, y);
    }
  }

  lemma WrapFrame(M: Machine, init: map<TxnId, Box>, w: World, w': World, x: Tid, th: Thread, k: Key)
    requires Framed(M, init, w, w', x, th) && !ClaimsKey(th, k)
    requires WrapOk(M, init, w, k)
    requires x in w.threads && Linearized(w.threads[x]) ==> !ClaimsKey(w.threads[x], k)
    ensures WrapOk(M, init, w', k)
  {
    assert Get(w'.wraps, k) == Get(w.wraps, k);
    if Detached(w, k) {
      var y :| y in w.threads && Linearized(w.threads[y]) && ClaimsKey(w.threads[y], k);
      assert Get(w'.threads, y) == Get(w.threads, y);
    }
  }

  lemma TxnsFrame(M: Machine, init: map<TxnId, Box>, w: World, w': World, x: Tid, th: Thread)
    requires WorldInv(M, init, w) && Framed(M, init, w, w', x, th) && TxnOk(M, init, w', th.t)
    requires forall t :: t != th.t ==> Get(w'.owner, t) == Get(w.owner, t)
    ensures forall t :: t in init ==> TxnOk(M, init, w', t)
  {
    forall t | t in init ensures TxnOk(M, init, w', t) {
      if t != th.t {
        assert TxnOk(M, init, w, t);
        assert Get(w'.owner, t) == Get(w.owner, t);
      }
    }
  }

  lemma WrapsFrame(M: Machine, init: map<TxnId, Box>, w: World, w': World, x: Tid, th: Thread)
    requires WorldInv(M, init, w) && Framed(M, init, w, w', x, th)
    requires forall k: Key :: ClaimsKey(th, k) ==> WrapOk(M, init, w', k)
    requires x in w.threads && Linearized(w.threads[x]) ==> w.threads[x].claim == th.claim && w.threads[x].t == th.t
    ensures forall k: Key :: WrapOk(M, init, w', k)
  {
    forall k: Key ensures WrapOk(M, init, w', k) {
      if !ClaimsKey(th, k) {
        assert Get(w'.wraps, k) == Get(w.wraps, k);
        assert WrapOk(M, init, w, k);
        WrapFrame(M, init, w, w', x, th, k);
      }
    }
  }

  ghost predicate OneChanged(w: World, w': World, x: Tid) {
    forall y :: y != x ==> Get(w'.threads, y) == Get(w.threads, y)
  }

  lemma ThreadsFrame(M: Machine, init: map<TxnId, Box>, w: World, w': World, x: Tid, th: Thread)
    requires Sound(M) && Framed(M, init, w, w', x, th)
    requires forall y :: y in w.threads ==> ThreadOk(M, init, w, y, w.threads[y])
    requires forall y :: y in w.threads && y != x ==> Apart(th, w.threads[y])
    requires x in w'.threads ==> ThreadOk(M, init, w', x, w'.threads[x])
    ensures forall y :: y in w'.threads ==> ThreadOk(M, init, w', y, w'.threads[y])
  {
    forall y | y in w'.threads ensures ThreadOk(M, init, w', y, w'.threads[y]) {
      if y != x {
        assert Get(w'.threads, y) == Get(w.threads, y);
        OthersOk(M, init, w, w', x, th, y);
      }
    }
  }

  lemma ApartFrame(w: World, w': World, x: Tid, th: Thread)
    requires forall y, z :: y in w.threads && z in w.threads && y != z ==> Apart(w.threads[y], w.threads[z])
    requires forall y :: y in w.threads && y != x ==> Apart(th, w.threads[y]) && Apart(w.threads[y], th)
    requires OneChanged(w, w', x) && (x in w'.threads ==> w'.threads[x] == th)
    ensures forall y, z :: y in w'.threads && z in w'.threads && y != z ==> Apart(w'.threads[y], w'.threads[z])
  {
    forall y, z | y in w'.threads && z in w'.threads && y != z ensures Apart(w'.threads[y], w'.threads[z]) {
      assert y != x ==> Get(w'.threads, y) == Get(w.threads, y);
      assert z != x ==> Get(w'.threads, z) == Get(w.threads, z);
    }
  }

  lemma LocksFrame(M: Machine, init: map<TxnId, Box>, w: World, w': World, x: Tid, th: Thread)
    requires WorldInv(M, init, w) && Framed(M, init, w, w', x, th)
    requires th.t in w'.owner ==> OwnerOk(w', th.t)
    requires w'.mutex == Some(x) ==> x in w'.threads && w'.threads[x].stage.Inside?
    requires forall t :: t != th.t ==> Get(w'.owner, t) == Get(w.owner, t)
    requires x in w.threads ==> w.threads[x].t == th.t
    ensures forall t :: t in w'.owner ==> OwnerOk(w', t)
    ensures w'.mutex.Some? ==> w'.mutex.value in w'.threads && w'.threads[w'.mutex.value].stage.Inside?
  {
    forall t | t in w'.owner ensures OwnerOk(w', t) {
      if t != th.t {
        assert Get(w'.owner, t) == Get(w.owner, t);
        assert OwnerOk(w, t);
        assert w.owner[t] != x;
        assert Get(w'.threads, w.owner[t]) == Get(w.threads, w.owner[t]);
      }
    }
    if w'.mutex.Some? && w'.mutex.value != x {
      assert w.mutex == w'.mutex;
      assert Get(w'.threads, w.mutex.value) == Get(w.threads, w.mutex.value);
    }
  }

  /** Everything the stepping thread's own lemma does not have to look at. */
  lemma RestOfWorld(M: Machine, init: map<TxnId, Box>, w: World, w': World, x: Tid, th: Thread)
    requires Sound(M) && WorldInv(M, init, w) && Framed(M, init, w, w', x, th)
    requires forall y :: y in w.threads && y != x ==> Apart(th, w.threads[y]) && Apart(w.threads[y], th)
    requires TxnOk(M, init, w', th.t)
    requires forall k: Key :: ClaimsKey(th, k) ==> WrapOk(M, init, w', k)
    requires x in w.threads ==> w.threads[x].t == th.t && (Linearized(w.threads[x]) ==> w.threads[x].claim == th.claim)
    requires x in w'.threads ==> w'.threads[x] == th && ThreadOk(M, init, w', x, th)
    requires th.t in w'.owner ==> OwnerOk(w', th.t)
    requires w'.mutex == Some(x) ==> x in w'.threads && w'.threads[x].stage.Inside?
    requires forall k: nat :: k < |w'.log| ==> LogOk(M, init, w'.log, k)
    requires forall k :: k in w'.rets ==> RetOk(M, init, w', k)
    requires forall t :: t != th.t ==> Get(w'.owner, t) == Get(w.owner, t)
    ensures WorldInv(M, init, w')
  {
    hide Sound, TxnOk, WrapOk, ThreadOk, LogOk, RetOk, Apart, At, OwnerOk;
    assert OneChanged(w, w', x);
    TxnsFrame(M, init, w, w', x, th);
    WrapsFrame(M, init, w, w', x, th);
    ThreadsFrame(M, init, w, w', x, th);
    ApartFrame(w, w', x, th);
    LocksFrame(M, init, w, w', x, th);
  }
}
