/** Each kind of step keeps the invariant of Linearization. */
module LinearSteps {
  import opened Common
  import opened SegmentTree
  import opened Model
  import opened ThreadCode
  import opened Threads
  import opened Linearization

  // ---------------------------------------------------------------------
  // Handles of calls that are not logged yet
  // ---------------------------------------------------------------------

  /** A live handle that nobody is creating or consuming is the one the atomic reading has. */
  lemma SettledWrap(M: Machine, init: map<TxnId, Box>, w: World, k: Key)
    requires WorldInv(M, init, w) && k in w.wraps && !Detached(w, k)
    ensures k.t in init && k.t in w.txns && k.s < Segs(w.txns[k.t])
    ensures Get(At(M, init, w.log, k.t).open, k.s) == Some(w.wraps[k])
  {
    hide ThreadOk, TxnOk, OwnerOk, LogOk, RetOk, Apart, At, Detached;
    assert WrapOk(M, init, w, k);
  }

  lemma NotDetached(w: World, x: Tid, th: Thread, k: Key)
    requires th.t == k.t && UsesSeg(th, k.s)
    requires x in w.threads ==> !Linearized(w.threads[x])
    requires forall y :: y in w.threads && y != x ==> Apart(w.threads[y], th)
    ensures !Detached(w, k)
  {
    forall y | y in w.threads && Linearized(w.threads[y]) ensures !ClaimsKey(w.threads[y], k) {
      assert Apart(w.threads[y], th);
    }
  }

  lemma NotEnded(M: Machine, init: map<TxnId, Box>, w: World, t: TxnId)
    requires WorldInv(M, init, w) && t in init
    ensures TxnOk(M, init, w, t) && !At(M, init, w.log, t).txn.status.ended
  {
    hide ThreadOk, WrapOk, OwnerOk, LogOk, RetOk, Apart, At;
    assert TxnOk(M, init, w, t);
  }

  lemma ApartFacts(M: Machine, init: map<TxnId, Box>, w: World, x: Tid)
    requires WorldInv(M, init, w) && x in w.threads
    ensures forall y :: y in w.threads && y != x ==> Apart(w.threads[x], w.threads[y]) && Apart(w.threads[y], w.threads[x])
  {
    hide ThreadOk, TxnOk, WrapOk, OwnerOk, LogOk, RetOk, Apart, At;
  }

  /** What an early call sees through its handles is what the atomic reading has, so it is legal there. */
  lemma EarlyView(M: Machine, init: map<TxnId, Box>, w: World, x: Tid)
    requires WorldInv(M, init, w) && x in w.threads && !Linearized(w.threads[x])
    ensures var th := w.threads[x];
            && th.t in init && th.t in w.txns
            && var b := At(M, init, w.log, th.t);
            && Legal(b, th.c)
            && ViewAt(w, th) == ViewOf(b, th.c).(txn := w.txns[th.t])
  {
    hide WorldInv, At;
    var th := w.threads[x];
    EarlyFacts(M, init, w, x);
    NotEnded(M, init, w, th.t);
    ApartFacts(M, init, w, x);
    if UsesHandle(th.c) {
      NotDetached(w, x, th, Key(th.t, th.c.seg));
      SettledWrap(M, init, w, Key(th.t, th.c.seg));
    }
    if th.c.SetParent? {
      NotDetached(w, x, th, Key(th.t, th.c.par));
      SettledWrap(M, init, w, Key(th.t, th.c.par));
    }
  }

  lemma WrapCarries(M: Machine, init: map<TxnId, Box>, w: World, w': World, x: Tid, k: Key)
    requires WrapOk(M, init, w, k) && OneChanged(w, w', x)
    requires w'.txns == w.txns && w'.wraps == w.wraps && w'.log == w.log
    requires x in w.threads ==> !Linearized(w.threads[x])
    ensures WrapOk(M, init, w', k)
  {
    if Detached(w, k) {
      var y :| y in w.threads && Linearized(w.threads[y]) && ClaimsKey(w.threads[y], k);
      assert Get(w'.threads, y) == Get(w.threads, y);
    }
  }

  /** What every thread in flight may rely on. */
  lemma Home(M: Machine, init: map<TxnId, Box>, w: World, x: Tid)
    requires WorldInv(M, init, w) && x in w.threads
    ensures var th := w.threads[x];
            && th.t in init && th.t in w.txns && Covered(th.c)
            && ThreadOk(M, init, w, x, th) && TxnOk(M, init, w, th.t)
  {
    hide OnCourse, EarlyOk, InsideOk, LeavingOk, TxnOk;
    assert ThreadOk(M, init, w, x, w.threads[x]);
  }

  lemma EarlyFacts(M: Machine, init: map<TxnId, Box>, w: World, x: Tid)
    requires WorldInv(M, init, w) && x in w.threads && !Linearized(w.threads[x])
    ensures var th := w.threads[x];
            && th.t in init && th.t in w.txns && Covered(th.c)
            && HandlesBelow(th.c, Segs(w.txns[th.t])) && EarlyOk(w, th)
            && w.mutex != Some(x) && Get(w.owner, th.t) != Some(x)
  {
    hide OnCourse, EarlyOk, InsideOk, LeavingOk, TxnOk;
    assert ThreadOk(M, init, w, x, w.threads[x]);
  }

  lemma OwnerFacts(M: Machine, init: map<TxnId, Box>, w: World, t: TxnId)
    requires WorldInv(M, init, w)
    ensures t in w.owner ==> OwnerOk(w, t)
  {
    hide ThreadOk, TxnOk, WrapOk, LogOk, RetOk, Apart;
  }

  /** Nothing shared changed but locks and the stepping thread. */
  lemma QuietFramed(M: Machine, init: map<TxnId, Box>, w: World, w': World, x: Tid, th: Thread)
    requires th.t in init && th.t in w.txns
    requires w'.txns == w.txns && w'.wraps == w.wraps && w'.events == w.events && w'.log == w.log
    requires forall t, y: Tid :: y != x ==> (Get(w'.owner, t) == Some(y) <==> Get(w.owner, t) == Some(y))
    requires forall y: Tid :: y != x ==> (w'.mutex == Some(y) <==> w.mutex == Some(y))
    requires OneChanged(w, w', x)
    ensures Framed(M, init, w, w', x, th)
  {
    hide At;
  }

  lemma SetThreadChangesOne(w: World, x: Tid, th: Thread)
    ensures OneChanged(w, SetThread(w, x, th), x)
  {
  }

  /** Returns and the log, when neither changed. */
  lemma SameLogAndRets(M: Machine, init: map<TxnId, Box>, w: World, w': World)
    requires WorldInv(M, init, w) && w'.log == w.log && w'.rets == w.rets
    ensures forall k: nat :: k < |w'.log| ==> LogOk(M, init, w'.log, k)
    ensures forall k :: k in w'.rets ==> RetOk(M, init, w', k)
  {
    hide ThreadOk, TxnOk, WrapOk, OwnerOk, LogOk, Apart, At, AtomicRet;
    forall k | k in w'.rets ensures RetOk(M, init, w', k) { assert RetOk(M, init, w, k); }
  }

  /** Transactions whose log, value and lock did not change. */
  lemma SameTxnOk(M: Machine, init: map<TxnId, Box>, w: World, w': World, t: TxnId)
    requires WorldInv(M, init, w) && t in init
    requires w'.txns == w.txns && w'.log == w.log && (t in w.owner ==> t in w'.owner)
    ensures TxnOk(M, init, w', t)
  {
    hide ThreadOk, WrapOk, OwnerOk, LogOk, RetOk, Apart, At;
    assert TxnOk(M, init, w, t);
  }

  lemma DetachedByIt(M: Machine, init: map<TxnId, Box>, w': World, x: Tid)
    requires x in w'.threads && Linearized(w'.threads[x])
    requires w'.threads[x].t in init && w'.threads[x].t in w'.txns
    ensures forall k: Key :: ClaimsKey(w'.threads[x], k) ==> WrapOk(M, init, w', k)
  {
    hide At;
    forall k: Key | ClaimsKey(w'.threads[x], k) ensures WrapOk(M, init, w', k) {
      assert Detached(w', k);
    }
  }

  // ---------------------------------------------------------------------
  // Invoke, and passing the checks
  // ---------------------------------------------------------------------

  /** A step that only records a new stage of a call that is not logged yet. */
  lemma EarlyStep(M: Machine, init: map<TxnId, Box>, w: World, x: Tid, th: Thread)
    requires Sound(M) && WorldInv(M, init, w) && th.t in init && th.t in w.txns
    requires x in w.threads ==> !Linearized(w.threads[x]) && w.threads[x].t == th.t
    requires !Linearized(th) && ThreadOk(M, init, SetThread(w, x, th), x, th)
    requires Get(w.owner, th.t) != Some(x) && w.mutex != Some(x)
    requires forall y :: y in w.threads && y != x ==> Apart(th, w.threads[y]) && Apart(w.threads[y], th)
    ensures WorldInv(M, init, SetThread(w, x, th))
  {
    hide Sound, WorldInv, ThreadOk, TxnOk, WrapOk, LogOk, RetOk, Apart, Framed, At;
    var w' := SetThread(w, x, th);
    SetThreadChangesOne(w, x, th);
    OwnerFacts(M, init, w, th.t);
    SameLogAndRets(M, init, w, w');
    SameTxnOk(M, init, w, w', th.t);
    EarlyWraps(M, init, w, w', x, th);
    QuietFramed(M, init, w, w', x, th);
    RestOfWorld(M, init, w, w', x, th);
  }

  lemma EarlyWraps(M: Machine, init: map<TxnId, Box>, w: World, w': World, x: Tid, th: Thread)
    requires WorldInv(M, init, w) && OneChanged(w, w', x)
    requires w'.txns == w.txns && w'.wraps == w.wraps && w'.log == w.log
    requires x in w.threads ==> !Linearized(w.threads[x])
    ensures forall k: Key :: ClaimsKey(th, k) ==> WrapOk(M, init, w', k)
  {
    hide ThreadOk, TxnOk, OwnerOk, LogOk, RetOk, Apart, At, WrapOk;
    forall k: Key | ClaimsKey(th, k) ensures WrapOk(M, init, w', k) {
      assert WrapOk(M, init, w, k);
      WrapCarries(M, init, w, w', x, k);
    }
  }

  lemma NewThreadOk(M: Machine, init: map<TxnId, Box>, w: World, x: Tid, t: TxnId, c: Call)
    requires WorldInv(M, init, w) && MayCall(w, x, t, c) && Guarded(w, t, c)
    ensures t in init && Get(w.owner, t) != Some(x) && w.mutex != Some(x)
    ensures ThreadOk(M, init, SetThread(w, x, NewThread(t, c)), x, NewThread(t, c))
  {
    hide WorldInv, OnCourse, InsideOk, LeavingOk, At, OwnerOk, Detached, UsesSeg, Apart;
    var th := NewThread(t, c);
    Idle(M, init, w, x, t);
    NewHandles(M, init, w, x, t, c);
    assert OwnWrapper(SetThread(w, x, th), th) == OwnWrapper(w, th);
  }

  lemma Idle(M: Machine, init: map<TxnId, Box>, w: World, x: Tid, t: TxnId)
    requires WorldInv(M, init, w) && x !in w.threads && t in w.txns
    ensures t in init && Get(w.owner, t) != Some(x) && w.mutex != Some(x)
  {
    hide ThreadOk, TxnOk, WrapOk, LogOk, RetOk, Apart, At;
    assert t in w.owner ==> OwnerOk(w, t);
  }

  lemma NewHandles(M: Machine, init: map<TxnId, Box>, w: World, x: Tid, t: TxnId, c: Call)
    requires WorldInv(M, init, w) && MayCall(w, x, t, c)
    ensures HandlesBelow(c, Segs(w.txns[t]))
  {
    hide WorldInv, At;
    var th := NewThread(t, c);
    if UsesHandle(c) {
      NotDetached(w, x, th, Key(t, c.seg));
      SettledWrap(M, init, w, Key(t, c.seg));
    }
    if c.SetParent? {
      NotDetached(w, x, th, Key(t, c.par));
      SettledWrap(M, init, w, Key(t, c.par));
    }
  }

  lemma InvokeKeeps(M: Machine, init: map<TxnId, Box>, w: World, x: Tid, t: TxnId, c: Call)
    requires Sound(M) && WorldInv(M, init, w) && MayCall(w, x, t, c) && Guarded(w, t, c)
    ensures WorldInv(M, init, SetThread(w, x, NewThread(t, c)))
  {
    hide Sound, WorldInv, ThreadOk, Apart, At;
    NewThreadOk(M, init, w, x, t, c);
    EarlyStep(M, init, w, x, NewThread(t, c));
  }

  lemma PassKeeps(M: Machine, init: map<TxnId, Box>, w: World, x: Tid)
    requires Sound(M) && WorldInv(M, init, w) && CanStep(w, x) && w.threads[x].stage.Checking?
    requires Check(w.threads[x].c, OwnWrapper(w, w.threads[x])).Pass?
    ensures WorldInv(M, init, StepCheck(w, x))
  {
    hide Sound, WorldInv, ThreadOk, EarlyOk, Apart, At;
    EarlyFacts(M, init, w, x);
    var th' := w.threads[x].(stage := Waiting);
    PassThreadOk(M, init, w, x);
    PassApart(M, init, w, x, th');
    EarlyStep(M, init, w, x, th');
  }

  lemma PassThreadOk(M: Machine, init: map<TxnId, Box>, w: World, x: Tid)
    requires WorldInv(M, init, w) && CanStep(w, x) && w.threads[x].stage.Checking?
    requires Check(w.threads[x].c, OwnWrapper(w, w.threads[x])).Pass?
    ensures var th' := w.threads[x].(stage := Waiting); ThreadOk(M, init, SetThread(w, x, th'), x, th')
  {
    hide WorldInv, OnCourse, InsideOk, LeavingOk, At;
    EarlyFacts(M, init, w, x);
    var th := w.threads[x];
    var th' := th.(stage := Waiting);
    assert OwnWrapper(SetThread(w, x, th'), th') == OwnWrapper(w, th);
  }

  /** A record with the same call and claim is as far apart from the others as the one it replaces. */
  lemma PassApart(M: Machine, init: map<TxnId, Box>, w: World, x: Tid, th': Thread)
    requires WorldInv(M, init, w) && x in w.threads
    requires th'.t == w.threads[x].t && th'.c == w.threads[x].c && th'.claim == w.threads[x].claim
    ensures forall y :: y in w.threads && y != x ==> Apart(th', w.threads[y]) && Apart(w.threads[y], th')
  {
    hide ThreadOk, TxnOk, WrapOk, OwnerOk, LogOk, RetOk, At;
    forall y | y in w.threads && y != x ensures Apart(th', w.threads[y]) && Apart(w.threads[y], th') {
      assert Apart(w.threads[x], w.threads[y]) && Apart(w.threads[y], w.threads[x]);
    }
  }

  // ---------------------------------------------------------------------
  // Leaving at the checks
  // ---------------------------------------------------------------------

  /** The atomic reading after one more entry, seen from the other handles and transactions. */
  lemma LoggedFrame(M: Machine, init: map<TxnId, Box>, log: seq<Entry>, e: Entry)
    requires Sound(M) && e.t in init
    ensures forall t :: t in init && t != e.t ==> At(M, init, log + [e], t) == At(M, init, log, t)
    ensures var b := At(M, init, log, e.t);
            forall s: SegId :: Claim(e.c, b.txn) != Some(s) ==>
              Get(At(M, init, log + [e], e.t).open, s) == Get(b.open, s)
  {
    hide At, GoodStep, FinishOk, ExitOk, ExecFrame, TailFrame, Claim;
    forall t | t in init && t != e.t ensures At(M, init, log + [e], t) == At(M, init, log, t) {
      AtSnoc(M, init, log, e, t);
    }
    var b := At(M, init, log, e.t);
    AtSnoc(M, init, log, e, e.t);
    forall s: SegId | Claim(e.c, b.txn) != Some(s)
      ensures Get(At(M, init, log + [e], e.t).open, s) == Get(b.open, s)
    {
      assert OpenFrame(M, e.t, b, e.c, s);
    }
  }

  lemma RetsCarry(M: Machine, init: map<TxnId, Box>, w: World, w': World, e: Entry)
    requires WorldInv(M, init, w) && w'.rets == w.rets && w'.log == w.log + [e]
    ensures forall k :: k in w'.rets ==> RetOk(M, init, w', k)
  {
    hide ThreadOk, TxnOk, WrapOk, OwnerOk, LogOk, Apart, AtomicRet;
    forall k | k in w'.rets ensures RetOk(M, init, w', k) {
      assert RetOk(M, init, w, k);
      AtomicRetStable(M, init, w.log, e, k);
    }
  }

  lemma LogFacts(M: Machine, init: map<TxnId, Box>, w: World)
    requires WorldInv(M, init, w)
    ensures forall k: nat :: k < |w.log| ==> LogOk(M, init, w.log, k)
  {
    hide ThreadOk, TxnOk, WrapOk, OwnerOk, LogOk, RetOk, Apart, At;
  }

  /** A logged call: its transaction stays good and the log legal. */
  lemma LogStep(M: Machine, init: map<TxnId, Box>, w: World, x: Tid)
    requires Sound(M) && WorldInv(M, init, w) && x in w.threads && !Linearized(w.threads[x])
    ensures var th := w.threads[x];
            && th.t in init && th.t in w.txns
            && var log' := w.log + [Entry(th.t, th.c)];
            && (forall k: nat :: k < |log'| ==> LogOk(M, init, log', k))
            && M.good(th.t, At(M, init, log', th.t)) && !At(M, init, log', th.t).txn.status.ended
  {
    hide Sound, WorldInv, At, LogOk, EarlyOk;
    var th := w.threads[x];
    EarlyView(M, init, w, x);
    EarlyFacts(M, init, w, x);
    NotEnded(M, init, w, th.t);
    LogFacts(M, init, w);
    LogGrows(M, init, w.log, Entry(th.t, th.c));
  }

  /** The record of a call that leaves at its checks. */
  function ExitThread(w: World, th: Thread): Thread
    requires th.t in w.txns
  {
    match Check(th.c, OwnWrapper(w, th))
    case Exit(ret) => Claimed(w, th).(stage := Leaving(Nil), r := th.r.(ret := ret))
    case _ => Claimed(w, th).(stage := Leaving(Cons(Do(FreeWrapper), Nil)), r := th.r.(ret := Bool(false)))
  }

  predicate LeavesAtChecks(w: World, x: Tid) {
    && CanStep(w, x) && w.threads[x].stage.Checking?
    && !Check(w.threads[x].c, OwnWrapper(w, w.threads[x])).Pass?
  }

  lemma ExitShape(w: World, x: Tid)
    requires LeavesAtChecks(w, x)
    ensures var th := w.threads[x];
            StepCheck(w, x) == SetThread(Logged(w, th), x, ExitThread(w, th))
  {
  }

  lemma ExitClaim(c: Call, own: Option<Wrapper>, txn: Txn)
    requires !Check(c, own).Pass?
    ensures Claim(c, txn) == if c.EndSegment? then Some(c.seg) else None
    ensures c.EndSegment? <==> Check(c, own).Destroy?
  {
  }

  /** In the atomic reading such a call changes nothing but the handle it consumes. */
  lemma ExitAtomic(M: Machine, init: map<TxnId, Box>, w: World, x: Tid)
    requires Sound(M) && WorldInv(M, init, w) && LeavesAtChecks(w, x)
    ensures var th := w.threads[x];
            && th.t in init && th.t in w.txns
            && var b, b' := At(M, init, w.log, th.t), At(M, init, w.log + [Entry(th.t, th.c)], th.t);
            var th' := ExitThread(w, th);
            && b'.txn == b.txn
            && (th.c.EndSegment? ==> th.c.seg !in b'.open)
            && M.apply(th.t, b, th.c).ret == th'.r.ret
            && th'.claim == (if th.c.EndSegment? then Some(th.c.seg) else None)
            && Claim(th.c, b.txn) == th'.claim
  {
    hide WorldInv, At, GoodStep, FinishOk, OpenFrame, ExecFrame, TailFrame, Legal, TxnOk, EarlyOk;
    var th := w.threads[x];
    EarlyFacts(M, init, w, x);
    EarlyView(M, init, w, x);
    NotEnded(M, init, w, th.t);
    GoodFacts(M, init, w, th.t);
    var b := At(M, init, w.log, th.t);
    ExitClaim(th.c, OwnWrapper(w, th), w.txns[th.t]);
    ExitClaim(th.c, OwnWrapper(w, th), b.txn);
    assert ExitOk(M, th.t, b, th.c);
    AtSnoc(M, init, w.log, Entry(th.t, th.c), th.t);
  }

  lemma GoodFacts(M: Machine, init: map<TxnId, Box>, w: World, t: TxnId)
    requires WorldInv(M, init, w) && t in init
    ensures M.good(t, At(M, init, w.log, t)) && t in w.txns
    ensures t !in w.owner ==> w.txns[t] == At(M, init, w.log, t).txn
  {
    hide ThreadOk, WrapOk, OwnerOk, LogOk, RetOk, Apart, At;
    assert TxnOk(M, init, w, t);
  }

  /** A step that logs a call without touching transactions, wrappers or events. */
  lemma LogFramed(M: Machine, init: map<TxnId, Box>, w: World, w': World, x: Tid, th: Thread)
    requires Sound(M) && th.t in init && th.t in w.txns
    requires w'.txns == w.txns && w'.wraps == w.wraps && w'.events == w.events
    requires w'.mutex == w.mutex && w'.log == w.log + [Entry(th.t, th.c)]
    requires forall t, y: Tid :: y != x ==> (Get(w'.owner, t) == Some(y) <==> Get(w.owner, t) == Some(y))
    requires OneChanged(w, w', x)
    requires th.claim == Claim(th.c, At(M, init, w.log, th.t).txn)
    requires th.t in w.owner ==> At(M, init, w'.log, th.t).txn == At(M, init, w.log, th.t).txn
    ensures Framed(M, init, w, w', x, th)
  {
    hide Sound, At, Claim;
    LoggedFrame(M, init, w.log, Entry(th.t, th.c));
  }

  lemma ExitThreadOk(M: Machine, init: map<TxnId, Box>, w: World, x: Tid)
    requires Sound(M) && WorldInv(M, init, w) && LeavesAtChecks(w, x)
    ensures ThreadOk(M, init, StepCheck(w, x), x, ExitThread(w, w.threads[x]))
  {
    hide WorldInv, At, GoodStep, FinishOk, OpenFrame, ExitOk, TailFrame, Claim, Check;
    var th := w.threads[x];
    var th' := ExitThread(w, th);
    var w' := StepCheck(w, x);
    EarlyFacts(M, init, w, x);
    ExitShape(w, x);
    ExitAtomic(M, init, w, x);
    assert w'.log[..|w.log|] == w.log;
    ExitFuture(M, w, x);
  }

  lemma ExitFuture(M: Machine, w: World, x: Tid)
    requires Sound(M) && LeavesAtChecks(w, x) && w.threads[x].r == Initial(w.threads[x].c)
    requires w.threads[x].c.EndSegment? ==> Key(w.threads[x].t, w.threads[x].c.seg) in w.wraps
    ensures var th := w.threads[x];
            var w', th' := StepCheck(w, x), ExitThread(w, th);
            && th'.t in w'.txns
            && var v := ViewAt(w', th');
            Future(M, th', v) == if th.c.EndSegment? then v.(own := None) else v
  {
    hide GoodStep, FinishOk, OpenFrame, ExitOk, TailFrame, Claim, ViewAt;
    var th := w.threads[x];
    var w', th' := StepCheck(w, x), ExitThread(w, th);
    var v := ViewAt(w', th');
    ExitShape(w, x);
    ExitClaim(th.c, OwnWrapper(w, th), w.txns[th.t]);
    ViewRegs(w', th');
    if th.c.EndSegment? {
      assert v.own.Some? by { ViewOfEnd(w', th'); }
      assert ExecFrame(M, th.t, th.c, FreeWrapper, v);
      assert Rest(M, th.t, th.c, Nil, v.(own := None)) == v.(own := None);
    }
  }

  lemma ViewOfEnd(w: World, th: Thread)
    requires th.t in w.txns && th.c.EndSegment? && Key(th.t, th.c.seg) in w.wraps
    ensures ViewAt(w, th).own.Some?
  {
  }

  lemma ViewRegs(w: World, th: Thread)
    requires th.t in w.txns
    ensures ViewAt(w, th).r == th.r && ViewAt(w, th).txn == w.txns[th.t]
  {
  }

  lemma ExitKeeps(M: Machine, init: map<TxnId, Box>, w: World, x: Tid)
    requires Sound(M) && WorldInv(M, init, w) && LeavesAtChecks(w, x)
    ensures WorldInv(M, init, StepCheck(w, x))
  {
    hide Sound, WorldInv, ThreadOk, TxnOk, WrapOk, LogOk, RetOk, Apart, At, Framed, EarlyOk, Check, Claim;
    var th := w.threads[x];
    var th', w' := ExitThread(w, th), StepCheck(w, x);
    EarlyFacts(M, init, w, x);
    ExitShape(w, x);
    ExitAtomic(M, init, w, x);
    ExitThreadOk(M, init, w, x);
    LogStep(M, init, w, x);
    SetThreadChangesOne(w, x, th');
    LogFramed(M, init, w, w', x, th');
    ExitTxnOk(M, init, w, w', th);
    assert th'.claim == th.claim by { EarlyClaim(M, init, w, x); }
    PassApart(M, init, w, x, th');
    DetachedByIt(M, init, w', x);
    OwnerFacts(M, init, w, th.t);
    RetsCarry(M, init, w, w', Entry(th.t, th.c));
    RestOfWorld(M, init, w, w', x, th');
  }

  lemma EarlyClaim(M: Machine, init: map<TxnId, Box>, w: World, x: Tid)
    requires WorldInv(M, init, w) && x in w.threads && !Linearized(w.threads[x])
    ensures var th := w.threads[x]; th.claim == if th.c.EndSegment? then Some(th.c.seg) else None
  {
    hide WorldInv;
    EarlyFacts(M, init, w, x);
  }

  lemma ExitTxnOk(M: Machine, init: map<TxnId, Box>, w: World, w': World, th: Thread)
    requires WorldInv(M, init, w) && th.t in init
    requires w'.txns == w.txns && w'.owner == w.owner && w'.log == w.log + [Entry(th.t, th.c)]
    requires var b' := At(M, init, w'.log, th.t);
             b'.txn == At(M, init, w.log, th.t).txn && M.good(th.t, b') && !b'.txn.status.ended
    ensures TxnOk(M, init, w', th.t)
  {
    hide WorldInv, At;
    GoodFacts(M, init, w, th.t);
  }

  // ---------------------------------------------------------------------
  // Taking the lock
  // ---------------------------------------------------------------------

  /** The next segment number of an unlocked transaction is used by nobody. */
  lemma NextSegIsFree(M: Machine, init: map<TxnId, Box>, w: World, t: TxnId, y: Tid)
    requires WorldInv(M, init, w) && t in w.txns && t !in w.owner && y in w.threads && w.threads[y].t == t
    ensures !UsesSeg(w.threads[y], Segs(w.txns[t]))
  {
    hide WorldInv, At, OnCourse, TxnOk;
    Home(M, init, w, y);
  }

  function LockThread(w: World, th: Thread): Thread
    requires th.t in w.txns
  {
    Claimed(w, th).(stage := Inside(Body(th.c)))
  }

  lemma LockApart(M: Machine, init: map<TxnId, Box>, w: World, x: Tid, y: Tid)
    requires WorldInv(M, init, w) && x in w.threads && y in w.threads && x != y
    requires w.threads[x].t in w.txns && w.threads[x].t !in w.owner && !Linearized(w.threads[x])
    ensures Apart(LockThread(w, w.threads[x]), w.threads[y]) && Apart(w.threads[y], LockThread(w, w.threads[x]))
  {
    hide WorldInv;
    var th, ty := w.threads[x], w.threads[y];
    ApartFacts(M, init, w, x);
    assert Apart(th, ty) && Apart(ty, th);
    EarlyClaim(M, init, w, x);
    if ty.t == th.t { NextSegIsFree(M, init, w, th.t, y); }
  }

  lemma LockShape(M: Machine, init: map<TxnId, Box>, w: World, x: Tid)
    requires WorldInv(M, init, w) && CanStep(w, x) && w.threads[x].stage.Waiting?
    ensures var th := w.threads[x];
            && th.t !in w.owner && th.t in init && Check(th.c, OwnWrapper(w, th)).Pass?
            && StepLock(w, x) == SetThread(Logged(w, th), x, LockThread(w, th)).(owner := w.owner[th.t := x])
  {
    hide WorldInv;
    EarlyFacts(M, init, w, x);
  }

  lemma LockAtomic(M: Machine, init: map<TxnId, Box>, w: World, x: Tid)
    requires Sound(M) && WorldInv(M, init, w) && CanStep(w, x) && w.threads[x].stage.Waiting?
    ensures var th := w.threads[x];
            && th.t in init
            && var b := At(M, init, w.log, th.t);
            && w.txns[th.t] == b.txn && M.good(th.t, b) && Legal(b, th.c) && Covered(th.c)
            && ViewAt(w, th) == ViewOf(b, th.c)
            && Check(th.c, ViewOf(b, th.c).own).Pass?
  {
    hide WorldInv, Sound, At, EarlyOk, TxnOk, Legal, Check;
    var th := w.threads[x];
    LockShape(M, init, w, x);
    EarlyFacts(M, init, w, x);
    EarlyView(M, init, w, x);
    GoodFacts(M, init, w, th.t);
  }

  /** Right after the lock is taken, the rest of the call is the atomic call. */
  lemma LockCourse(M: Machine, init: map<TxnId, Box>, w: World, x: Tid)
    requires Sound(M) && WorldInv(M, init, w) && CanStep(w, x) && w.threads[x].stage.Waiting?
    ensures var w', th' := StepLock(w, x), LockThread(w, w.threads[x]);
            && th'.t in w'.txns && th'.t in init
            && OnCourse(M, init, w', th')
            && (IsStart(th'.c) && th'.claim.Some? ==> th'.claim.value < Segs(At(M, init, w'.log, th'.t).txn))
  {
    hide WorldInv, At, ExitOk, OpenFrame, ExecFrame, TailFrame, Legal, Check, Body, Tail, ViewAt, ViewOf, Rest;
    var th := w.threads[x];
    var w', th' := StepLock(w, x), LockThread(w, th);
    LockShape(M, init, w, x);
    LockAtomic(M, init, w, x);
    var b := At(M, init, w.log, th.t);
    assert FinishOk(M, th.t, b, th.c) && GoodStep(M, th.t, b, th.c);
    AtSnoc(M, init, w.log, Entry(th.t, th.c), th.t);
    assert w'.log[..|w.log|] == w.log;
    LockView(M, init, w, x);
  }

  lemma LockView(M: Machine, init: map<TxnId, Box>, w: World, x: Tid)
    requires WorldInv(M, init, w) && CanStep(w, x) && w.threads[x].stage.Waiting?
    ensures var w', th' := StepLock(w, x), LockThread(w, w.threads[x]);
            th'.t in w'.txns && ViewAt(w', th') == ViewAt(w, w.threads[x])
  {
    hide WorldInv;
    LockShape(M, init, w, x);
  }

  lemma LockThreadOk(M: Machine, init: map<TxnId, Box>, w: World, x: Tid)
    requires Sound(M) && WorldInv(M, init, w) && CanStep(w, x) && w.threads[x].stage.Waiting?
    ensures ThreadOk(M, init, StepLock(w, x), x, LockThread(w, w.threads[x]))
  {
    hide WorldInv, Sound, At, OnCourse, BracketOk, NoStart;
    var th := w.threads[x];
    LockShape(M, init, w, x);
    EarlyFacts(M, init, w, x);
    LockCourse(M, init, w, x);
    CodeShape(th.c);
  }

  lemma LockKeeps(M: Machine, init: map<TxnId, Box>, w: World, x: Tid)
    requires Sound(M) && WorldInv(M, init, w) && CanStep(w, x) && w.threads[x].stage.Waiting?
    ensures WorldInv(M, init, StepLock(w, x))
  {
    hide Sound, WorldInv, ThreadOk, TxnOk, WrapOk, LogOk, RetOk, Apart, At, Framed, EarlyOk, Check, Claim, Legal, ViewAt, ViewOf;
    var th := w.threads[x];
    var th', w' := LockThread(w, th), StepLock(w, x);
    LockShape(M, init, w, x);
    LockAtomic(M, init, w, x);
    LockThreadOk(M, init, w, x);
    LogStep(M, init, w, x);
    SetThreadChangesOne(w, x, th');
    assert OneChanged(w, w', x);
    LogFramed(M, init, w, w', x, th');
    LockedTxnOk(M, init, w', th.t);
    forall y | y in w.threads && y != x ensures Apart(th', w.threads[y]) && Apart(w.threads[y], th') {
      LockApart(M, init, w, x, y);
    }
    DetachedByIt(M, init, w', x);
    RetsCarry(M, init, w, w', Entry(th.t, th.c));
    EarlyFacts(M, init, w, x);
    RestOfWorld(M, init, w, w', x, th');
  }

  lemma LockedTxnOk(M: Machine, init: map<TxnId, Box>, w': World, t: TxnId)
    requires t in init && t in w'.txns && t in w'.owner
    requires M.good(t, At(M, init, w'.log, t)) && !At(M, init, w'.log, t).txn.status.ended
    ensures TxnOk(M, init, w', t)
  {
  }

  // ---------------------------------------------------------------------
  // Under the lock and after it
  // ---------------------------------------------------------------------

  lemma LateFacts(M: Machine, init: map<TxnId, Box>, w: World, x: Tid)
    requires WorldInv(M, init, w) && x in w.threads && Linearized(w.threads[x])
    ensures var th := w.threads[x];
            && th.t in init && th.t in w.txns && Covered(th.c)
            && HandlesBelow(th.c, Segs(w.txns[th.t]))
            && RegsOk(th) && OnCourse(M, init, w, th)
            && (th.stage.Inside? ==> InsideOk(M, init, w, x, th))
            && (th.stage.Leaving? ==> LeavingOk(w, x, th))
  {
    hide OnCourse, EarlyOk, InsideOk, LeavingOk, TxnOk, RegsOk, HandlesBelow;
    assert ThreadOk(M, init, w, x, w.threads[x]);
  }

  /** Steps of a logged call that leave transactions, wrappers, events, log and returns alone. */
  lemma LateStep(M: Machine, init: map<TxnId, Box>, w: World, w': World, x: Tid, th': Thread)
    requires Sound(M) && WorldInv(M, init, w) && x in w.threads && Linearized(w.threads[x])
    requires w' == SetThread(w, x, th').(owner := w'.owner, mutex := w'.mutex) && Linearized(th')
    requires th'.t == w.threads[x].t && th'.c == w.threads[x].c && th'.claim == w.threads[x].claim
    requires forall t, y: Tid :: y != x ==> (Get(w'.owner, t) == Some(y) <==> Get(w.owner, t) == Some(y))
    requires forall t :: t != th'.t ==> Get(w'.owner, t) == Get(w.owner, t)
    requires forall y: Tid :: y != x ==> (w'.mutex == Some(y) <==> w.mutex == Some(y))
    requires w'.mutex == Some(x) ==> th'.stage.Inside?
    requires th'.t in w'.owner ==> OwnerOk(w', th'.t)
    requires th'.t in init ==> TxnOk(M, init, w', th'.t)
    requires ThreadOk(M, init, w', x, th')
    ensures WorldInv(M, init, w')
  {
    hide Sound, WorldInv, ThreadOk, TxnOk, WrapOk, LogOk, RetOk, Apart, At, Framed, OnCourse, InsideOk, LeavingOk;
    LateFacts(M, init, w, x);
    SetThreadChangesOne(w, x, th');
    assert OneChanged(w, w', x);
    QuietFramed(M, init, w, w', x, th');
    PassApart(M, init, w, x, th');
    DetachedByIt(M, init, w', x);
    SameLogAndRets(M, init, w, w');
    RestOfWorld(M, init, w, w', x, th');
  }

  // -- the global mutex --

  lemma MutexThreadOk(M: Machine, init: map<TxnId, Box>, w: World, x: Tid)
    requires WorldInv(M, init, w) && CanStep(w, x) && w.threads[x].stage.Inside?
    requires w.threads[x].stage.todo.Cons? && !w.threads[x].stage.todo.op.Do?
    ensures var todo := w.threads[x].stage.todo;
            var held := if todo.op.Acquire? then Some(x) else None;
            ThreadOk(M, init, StepMutex(w, x, held, todo.rest), x, w.threads[x].(stage := Inside(todo.rest)))
    ensures w.threads[x].stage.todo.op.Release? ==> w.mutex == Some(x)
  {
    hide WorldInv, At, AtomicRet;
    var th := w.threads[x];
    var todo := th.stage.todo;
    LateFacts(M, init, w, x);
    var held := if todo.op.Acquire? then Some(x) else None;
    var w' := StepMutex(w, x, held, todo.rest);
    var th' := th.(stage := Inside(todo.rest));
    assert ViewAt(w', th') == ViewAt(w, th);
    assert Rest(M, th.t, th.c, todo, ViewAt(w, th)) == Rest(M, th.t, th.c, todo.rest, ViewAt(w, th));
    CodeShape(th.c);
  }

  lemma MutexKeeps(M: Machine, init: map<TxnId, Box>, w: World, x: Tid)
    requires Sound(M) && WorldInv(M, init, w) && CanStep(w, x) && w.threads[x].stage.Inside?
    requires w.threads[x].stage.todo.Cons? && !w.threads[x].stage.todo.op.Do?
    ensures var todo := w.threads[x].stage.todo;
            WorldInv(M, init, StepMutex(w, x, if todo.op.Acquire? then Some(x) else None, todo.rest))
  {
    hide Sound, WorldInv, ThreadOk, TxnOk, At, OnCourse;
    var th := w.threads[x];
    var todo := th.stage.todo;
    var w' := StepMutex(w, x, if todo.op.Acquire? then Some(x) else None, todo.rest);
    LateFacts(M, init, w, x);
    MutexThreadOk(M, init, w, x);
    SameTxnOk(M, init, w, w', th.t);
    LateStep(M, init, w, w', x, th.(stage := Inside(todo.rest)));
  }

  // -- the unlock --

  lemma TailKeepsTxn(M: Machine, id: TxnId, c: Call, ops: Ops, v: View)
    requires Sound(M) && TailOnly(ops)
    ensures Rest(M, id, c, ops, v).txn == v.txn
  {
    hide Sound, Rest;
    TailIgnoresTxn(M, id, c, ops, v, v.txn);
    assert v.(txn := v.txn) == v;
  }

  predicate AtUnlock(w: World, x: Tid) {
    CanStep(w, x) && w.threads[x].stage == Inside(Nil)
  }

  /** With nothing left to do the transaction is where the atomic reading has it. */
  lemma UnlockSettles(M: Machine, init: map<TxnId, Box>, w: World, x: Tid)
    requires Sound(M) && WorldInv(M, init, w) && AtUnlock(w, x)
    ensures var th := w.threads[x]; th.t in init && w.txns[th.t] == At(M, init, w.log, th.t).txn
  {
    hide Sound, WorldInv, At, InsideOk;
    var th := w.threads[x];
    LateFacts(M, init, w, x);
    CodeShape(th.c);
    TailKeepsTxn(M, th.t, th.c, Tail(th.c), ViewAt(w, th));
  }

  lemma UnlockThreadOk(M: Machine, init: map<TxnId, Box>, w: World, x: Tid)
    requires Sound(M) && WorldInv(M, init, w) && AtUnlock(w, x)
    ensures Get(w.owner, w.threads[x].t) == Some(x)
    ensures ThreadOk(M, init, StepUnlock(w, x), x, w.threads[x].(stage := Leaving(Tail(w.threads[x].c))))
  {
    hide Sound, WorldInv, At;
    var th := w.threads[x];
    var w', th' := StepUnlock(w, x), th.(stage := Leaving(Tail(th.c)));
    LateFacts(M, init, w, x);
    UnlockSettles(M, init, w, x);
    CodeShape(th.c);
    assert ViewAt(w', th') == ViewAt(w, th);
    assert Rest(M, th.t, th.c, Nil, ViewAt(w, th)) == ViewAt(w, th);
  }

  lemma UnlockKeeps(M: Machine, init: map<TxnId, Box>, w: World, x: Tid)
    requires Sound(M) && WorldInv(M, init, w) && AtUnlock(w, x)
    ensures WorldInv(M, init, StepUnlock(w, x))
  {
    hide Sound, WorldInv, ThreadOk, At, OnCourse;
    var th := w.threads[x];
    var w' := StepUnlock(w, x);
    LateFacts(M, init, w, x);
    UnlockThreadOk(M, init, w, x);
    UnlockSettles(M, init, w, x);
    GoodFacts(M, init, w, th.t);
    NotEnded(M, init, w, th.t);
    LateStep(M, init, w, w', x, th.(stage := Leaving(Tail(th.c))));
  }

  // -- one instruction --

  /** The next instruction of a logged call. */
  predicate AtDo(w: World, x: Tid, m: Micro, rest: Ops) {
    && CanStep(w, x)
    && (w.threads[x].stage == Inside(Cons(Do(m), rest)) || w.threads[x].stage == Leaving(Cons(Do(m), rest)))
  }

  function DoneThread(th: Thread, v: View, rest: Ops): Thread {
    var next := if v.r.skip then Nil else rest;
    th.(stage := if th.stage.Inside? then Inside(next) else Leaving(next), r := v.r.(skip := false))
  }

  function Executed(M: Machine, w: World, x: Tid, m: Micro): View
    requires x in w.threads && w.threads[x].t in w.txns
  {
    M.exec(w.threads[x].t, w.threads[x].c, m, ViewAt(w, w.threads[x]))
  }

  lemma DoShape(M: Machine, w: World, x: Tid, m: Micro, rest: Ops)
    requires AtDo(w, x, m, rest)
    ensures var th, v := w.threads[x], Executed(M, w, x, m);
            && StepDo(M, w, x, m, rest) == SetThread(WriteBack(w, th, v), x, DoneThread(th, v, rest))
            && Threads.Step(M, w, x) == StepDo(M, w, x, m, rest)
  {
    hide WriteBack, ViewAt, OwnWrapper, HasLock;
  }

  lemma ExecFacts(M: Machine, id: TxnId, c: Call, m: Micro, v: View)
    requires Sound(M)
    ensures ExecFrame(M, id, c, m, v)
    ensures TailMicro(m) ==> M.exec(id, c, m, v).txn == v.txn
  {
    hide ExecFrame, TailMicro;
    assert TailFrame(M, id, c, m, v, v.txn);
    assert v.(txn := v.txn) == v;
  }

  /** Where the next instruction may be the one that starts a segment, and the register it sets. */
  lemma DoSeg(M: Machine, init: map<TxnId, Box>, w: World, x: Tid, m: Micro, rest: Ops)
    requires Sound(M) && WorldInv(M, init, w) && AtDo(w, x, m, rest)
    ensures var th, v := w.threads[x], Executed(M, w, x, m);
            && (v.r.seg.Some? ==> IsStart(th.c) && v.r.seg == th.claim)
            && (m.StartAxiom? ==> th.stage.Inside? && IsStart(th.c) && th.r.seg.None?)
            && (th.stage.Inside? ==> NoStart(rest) && (IsStart(th.c) ==> v.r.seg.Some? || v.r.skip))
  {
    hide WorldInv, At, ViewAt, Sound;
    var th, v0, v := w.threads[x], ViewAt(w, w.threads[x]), Executed(M, w, x, m);
    LateFacts(M, init, w, x);
    CodeShape(th.c);
    ViewRegs(w, th);
    ExecFacts(M, th.t, th.c, m, v0);
    if m.StartAxiom? && !v.r.skip {
      RestKeepsSeg(M, th.t, th.c, rest, v);
      RestKeepsSeg(M, th.t, th.c, Tail(th.c), Rest(M, th.t, th.c, rest, v));
    }
  }

  /** Without a handle of its own to store to, the instruction leaves none. */
  lemma DoOwnNone(M: Machine, init: map<TxnId, Box>, w: World, x: Tid, m: Micro, rest: Ops)
    requires Sound(M) && WorldInv(M, init, w) && AtDo(w, x, m, rest)
    requires OwnSeg(DoneThread(w.threads[x], Executed(M, w, x, m), rest)).None?
    ensures Executed(M, w, x, m).own.None?
  {
    hide WorldInv, At, Sound, OnCourse, BracketOk, NoStart;
    var th, v0 := w.threads[x], ViewAt(w, w.threads[x]);
    LateFacts(M, init, w, x);
    DoSeg(M, init, w, x, m, rest);
    ExecFacts(M, th.t, th.c, m, v0);
  }

  /** Storing a view and looking again. */
  lemma WriteThenView(w: World, x: Tid, th: Thread, v: View, rest: Ops)
    requires th.t in w.txns && v.par == ViewAt(w, th).par
    requires OwnSeg(DoneThread(th, v, rest)).None? ==> v.own.None?
    requires th.c.SetParent? ==> v.own == OwnWrapper(w, th)
    requires !th.c.RecordEvent? ==> v.event.None?
    ensures var w', th' := SetThread(WriteBack(w, th, v), x, DoneThread(th, v, rest)), DoneThread(th, v, rest);
            th.t in w'.txns && ViewAt(w', th') == v.(r := v.r.(skip := false))
  {
  }

  /** After the instruction the thread sees what the instruction left. */
  lemma DoView(M: Machine, init: map<TxnId, Box>, w: World, x: Tid, m: Micro, rest: Ops)
    requires Sound(M) && WorldInv(M, init, w) && AtDo(w, x, m, rest)
    ensures var th, v := w.threads[x], Executed(M, w, x, m);
            var w' := StepDo(M, w, x, m, rest);
            th.t in w'.txns && ViewAt(w', DoneThread(th, v, rest)) == v.(r := v.r.(skip := false))
  {
    hide WorldInv, Sound, WriteBack;
    var th, v0, v := w.threads[x], ViewAt(w, w.threads[x]), Executed(M, w, x, m);
    DoShape(M, w, x, m, rest);
    ExecFacts(M, th.t, th.c, m, v0);
    if OwnSeg(DoneThread(th, v, rest)).None? { DoOwnNone(M, init, w, x, m, rest); }
    WriteThenView(w, x, th, v, rest);
  }

  lemma DoFuture(M: Machine, th: Thread, v0: View, m: Micro, rest: Ops)
    requires th.stage == Inside(Cons(Do(m), rest)) || th.stage == Leaving(Cons(Do(m), rest))
    ensures var v := M.exec(th.t, th.c, m, v0);
            Future(M, DoneThread(th, v, rest), v.(r := v.r.(skip := false))) == Future(M, th, v0)
  {
    var v := M.exec(th.t, th.c, m, v0);
    if !v.r.skip { assert v.(r := v.r.(skip := false)) == v; }
  }

  lemma DoCourse(M: Machine, init: map<TxnId, Box>, w: World, x: Tid, m: Micro, rest: Ops)
    requires Sound(M) && WorldInv(M, init, w) && AtDo(w, x, m, rest)
    ensures var th, w' := w.threads[x], StepDo(M, w, x, m, rest);
            th.t in init && th.t in w'.txns && OnCourse(M, init, w', DoneThread(th, Executed(M, w, x, m), rest))
  {
    hide WorldInv, At, Sound, Future, ViewAt, InsideOk, LeavingOk, WriteBack;
    var th, v0 := w.threads[x], ViewAt(w, w.threads[x]);
    LateFacts(M, init, w, x);
    DoShape(M, w, x, m, rest);
    DoView(M, init, w, x, m, rest);
    DoFuture(M, th, v0, m, rest);
    DoKeepsLog(M, w, x, m, rest);
  }

  lemma DoKeepsLog(M: Machine, w: World, x: Tid, m: Micro, rest: Ops)
    requires AtDo(w, x, m, rest)
    ensures var w', v := StepDo(M, w, x, m, rest), Executed(M, w, x, m);
            && w'.log == w.log && w'.rets == w.rets && w'.owner == w.owner && w'.mutex == w.mutex
            && w'.txns == w.txns[w.threads[x].t := v.txn]
            && w'.threads == w.threads[x := DoneThread(w.threads[x], v, rest)]
  {
  }

  lemma DoThreadOk(M: Machine, init: map<TxnId, Box>, w: World, x: Tid, m: Micro, rest: Ops)
    requires Sound(M) && WorldInv(M, init, w) && AtDo(w, x, m, rest)
    ensures ThreadOk(M, init, StepDo(M, w, x, m, rest), x, DoneThread(w.threads[x], Executed(M, w, x, m), rest))
  {
    hide WorldInv, At, Sound, OnCourse, ViewAt, StepDo;
    var th, v0 := w.threads[x], ViewAt(w, w.threads[x]);
    LateFacts(M, init, w, x);
    ViewRegs(w, th);
    DoKeepsLog(M, w, x, m, rest);
    DoCourse(M, init, w, x, m, rest);
    DoSeg(M, init, w, x, m, rest);
    ExecFacts(M, th.t, th.c, m, v0);
  }

  /** An instruction changes no handle but the claimed one. */
  lemma DoWraps(M: Machine, init: map<TxnId, Box>, w: World, x: Tid, m: Micro, rest: Ops, k: Key)
    requires Sound(M) && WorldInv(M, init, w) && AtDo(w, x, m, rest) && !ClaimsKey(w.threads[x], k)
    ensures Get(StepDo(M, w, x, m, rest).wraps, k) == Get(w.wraps, k)
  {
    hide WorldInv, At, Sound, OnCourse, InsideOk, LeavingOk;
    var th, v0 := w.threads[x], ViewAt(w, w.threads[x]);
    LateFacts(M, init, w, x);
    DoSeg(M, init, w, x, m, rest);
    ExecFacts(M, th.t, th.c, m, v0);
  }

  lemma DoTxnOk(M: Machine, init: map<TxnId, Box>, w: World, x: Tid, m: Micro, rest: Ops)
    requires Sound(M) && WorldInv(M, init, w) && AtDo(w, x, m, rest)
    ensures var w', t := StepDo(M, w, x, m, rest), w.threads[x].t;
            && t in init && TxnOk(M, init, w', t)
            && Segs(w'.txns[t]) >= Segs(w.txns[t])
            && (Get(w.owner, t) != Some(x) ==> w'.txns[t] == w.txns[t])
  {
    hide WorldInv, At, Sound, OnCourse, ViewAt, StepDo;
    var th, v0 := w.threads[x], ViewAt(w, w.threads[x]);
    LateFacts(M, init, w, x);
    ViewRegs(w, th);
    DoKeepsLog(M, w, x, m, rest);
    ExecFacts(M, th.t, th.c, m, v0);
    NotEnded(M, init, w, th.t);
  }

  lemma DoFramed(M: Machine, init: map<TxnId, Box>, w: World, x: Tid, m: Micro, rest: Ops)
    requires Sound(M) && WorldInv(M, init, w) && AtDo(w, x, m, rest)
    ensures var th := w.threads[x];
            Framed(M, init, w, StepDo(M, w, x, m, rest), x, DoneThread(th, Executed(M, w, x, m), rest))
  {
    hide WorldInv, At, Sound, OnCourse, ViewAt, InsideOk, LeavingOk, TxnOk, StepDo;
    var th, v := w.threads[x], Executed(M, w, x, m);
    var w', th' := StepDo(M, w, x, m, rest), DoneThread(th, v, rest);
    LateFacts(M, init, w, x);
    DoKeepsLog(M, w, x, m, rest);
    DoTxnOk(M, init, w, x, m, rest);
    forall k: Key | !ClaimsKey(th', k) ensures Get(w'.wraps, k) == Get(w.wraps, k) {
      DoWraps(M, init, w, x, m, rest, k);
    }
    DoEvents(M, w, x, m, rest);
  }

  lemma DoEvents(M: Machine, w: World, x: Tid, m: Micro, rest: Ops)
    requires AtDo(w, x, m, rest)
    ensures forall e :: !(w.threads[x].c.RecordEvent? && w.threads[x].c.event == e) ==>
              Get(StepDo(M, w, x, m, rest).events, e) == Get(w.events, e)
  {
  }

  lemma DoKeeps(M: Machine, init: map<TxnId, Box>, w: World, x: Tid, m: Micro, rest: Ops)
    requires Sound(M) && WorldInv(M, init, w) && AtDo(w, x, m, rest)
    ensures WorldInv(M, init, StepDo(M, w, x, m, rest))
  {
    hide Sound, WorldInv, ThreadOk, TxnOk, WrapOk, LogOk, RetOk, Apart, At, Framed, OnCourse, InsideOk, LeavingOk, StepDo;
    var th, v := w.threads[x], Executed(M, w, x, m);
    var w', th' := StepDo(M, w, x, m, rest), DoneThread(th, v, rest);
    LateFacts(M, init, w, x);
    DoKeepsLog(M, w, x, m, rest);
    DoThreadOk(M, init, w, x, m, rest);
    DoTxnOk(M, init, w, x, m, rest);
    DoFramed(M, init, w, x, m, rest);
    PassApart(M, init, w, x, th');
    DetachedByIt(M, init, w', x);
    SameLogAndRets(M, init, w, w');
    DoLocks(M, init, w, w', x);
    RestOfWorld(M, init, w, w', x, th');
  }

  lemma DoLocks(M: Machine, init: map<TxnId, Box>, w: World, w': World, x: Tid)
    requires WorldInv(M, init, w) && x in w.threads && w'.owner == w.owner && w'.mutex == w.mutex
    requires x in w'.threads && w'.threads == w.threads[x := w'.threads[x]]
    requires w'.threads[x].t == w.threads[x].t && (w.threads[x].stage.Inside? ==> w'.threads[x].stage.Inside?)
    ensures w.threads[x].t in w'.owner ==> OwnerOk(w', w.threads[x].t)
    ensures w'.mutex == Some(x) ==> w'.threads[x].stage.Inside?
  {
    hide ThreadOk, TxnOk, WrapOk, LogOk, RetOk, Apart, At;
    assert w.threads[x].t in w.owner ==> OwnerOk(w, w.threads[x].t);
  }

  // -- the return --

  predicate AtReturn(w: World, x: Tid) {
    CanStep(w, x) && w.threads[x].stage == Leaving(Nil)
  }

  /** The handle a returning call created is the one the atomic reading has. */
  lemma ReturnWrap(M: Machine, init: map<TxnId, Box>, w: World, x: Tid, k: Key)
    requires WorldInv(M, init, w) && AtReturn(w, x) && ClaimsKey(w.threads[x], k)
    ensures WrapOk(M, init, StepReturn(w, x), k)
  {
    hide WorldInv, At, AtomicRet;
    LateFacts(M, init, w, x);
  }

  lemma ReturnRets(M: Machine, init: map<TxnId, Box>, w: World, x: Tid)
    requires WorldInv(M, init, w) && AtReturn(w, x)
    ensures forall k :: k in StepReturn(w, x).rets ==> RetOk(M, init, StepReturn(w, x), k)
  {
    hide WorldInv, At, AtomicRet;
    LateFacts(M, init, w, x);
    SameLogAndRets(M, init, w, w);
    var w' := StepReturn(w, x);
    forall k | k in w'.rets ensures RetOk(M, init, w', k) {
      if k != w.threads[x].slot { assert RetOk(M, init, w, k); }
    }
  }

  lemma ReturnKeeps(M: Machine, init: map<TxnId, Box>, w: World, x: Tid)
    requires Sound(M) && WorldInv(M, init, w) && AtReturn(w, x)
    ensures WorldInv(M, init, StepReturn(w, x))
  {
    hide Sound, WorldInv, ThreadOk, TxnOk, WrapOk, LogOk, RetOk, Apart, At, Framed, OnCourse;
    var th, w' := w.threads[x], StepReturn(w, x);
    LateFacts(M, init, w, x);
    QuietFramed(M, init, w, w', x, th);
    PassApart(M, init, w, x, th);
    SameTxnOk(M, init, w, w', th.t);
    forall k: Key | ClaimsKey(th, k) ensures WrapOk(M, init, w', k) { ReturnWrap(M, init, w, x, k); }
    SameLogAndRets(M, init, w, w.(threads := w'.threads));
    ReturnRets(M, init, w, x);
    OwnerFacts(M, init, w, th.t);
    RestOfWorld(M, init, w, w', x, th);
  }
}
