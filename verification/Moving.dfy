/**
 The exact condition under which reparenting can break the tree at all.  Any
 number of threads move any live segments of a transaction, to each other and to
 the root, any number of times.
 */
module Moving {
  import opened Common
  import opened SegmentTree
  import opened Model
  import opened Invariants
  import opened ThreadCode
  import opened Threads
  import opened Linearization
  import opened LinearSteps
  import opened Deadlock
  import opened Sdk
  import opened Race

  predicate MoveCall(c: Call) { c.SetParent? || c.SetParentRoot? }

  /** Only reparenting calls on t are made. */
  ghost predicate OnlyMoves(acts: seq<Act>, t: TxnId) {
    forall i :: 0 <= i < |acts| && acts[i].Invoke? ==> acts[i].t == t && MoveCall(acts[i].c)
  }

  ghost predicate HandlesOk(w: World, t: TxnId) {
    t in w.txns && forall s: SegId :: Key(t, s) in w.wraps ==> Live(w, t, s) && 0 < s < |w.txns[t].trace.segs|
  }

  /** Nobody in the API, and t well formed with its handles. */
  ghost predicate Mobile(w: World, t: TxnId) {
    Deadlock.Idle(w) && HandlesOk(w, t) && Tree(w.txns[t].trace.segs)
  }

  /** Two live handles, the first of them without a lock pointer. */
  predicate LoosePair(w: World, t: TxnId, s: SegId, p: SegId) {
    s != p && Live(w, t, s) && Live(w, t, p) && !Locks(w, t, s)
  }

  ghost predicate Loose(w: World, t: TxnId) {
    exists s: SegId, p: SegId :: LoosePair(w, t, s, p)
  }

  // ---------------------------------------------------------------------
  // What keeps the tree
  // ---------------------------------------------------------------------

  ghost predicate AllLocked(w: World, t: TxnId) {
    forall s: SegId :: Key(t, s) in w.wraps ==> Locks(w, t, s)
  }

  ghost predicate AtMostOne(w: World, t: TxnId) {
    forall s: SegId, p: SegId :: Key(t, s) in w.wraps && Key(t, p) in w.wraps ==> s == p
  }

  lemma NotLoose(w: World, t: TxnId)
    requires HandlesOk(w, t) && !Loose(w, t)
    ensures AllLocked(w, t) || AtMostOne(w, t)
  {
    if !AllLocked(w, t) {
      var s: SegId :| Key(t, s) in w.wraps && !Locks(w, t, s);
      forall p: SegId | Key(t, p) in w.wraps ensures p == s { assert !LoosePair(w, t, s, p); }
    }
  }

  /** With every handle locked nobody else has linked since the walk; with one handle only the root is moved to. */
  ghost predicate SafeMove(segs: seq<Seg>, c: Call, locked: bool)
    requires MoveCall(c)
  {
    if locked then !Above(segs, c.seg, To(c)) else To(c) == ROOT
  }

  ghost predicate HasHandles(w: World, t: TxnId, c: Call) {
    MoveCall(c) && Key(t, c.seg) in w.wraps && (c.SetParent? ==> Key(t, c.par) in w.wraps)
  }

  ghost predicate MoveOk(w: World, x: Tid, th: Thread, t: TxnId, locked: bool)
    requires t in w.txns
  {
    && th.t == t && HasHandles(w, t, th.c)
    && (th.stage.Checking? ==> th == NewThread(t, th.c))
    && (th.stage.Waiting? ==> Race.Moving(th.c) && th == NewThread(t, th.c).(stage := Waiting))
    && (th.stage.Leaving? ==> th.stage.todo == Nil)
    && (th.stage.Inside? ==>
          && Race.Moving(th.c)
          && (locked ==> Get(w.owner, t) == Some(x))
          && (|| th.stage.todo == Nil
              || th == Mover(t, th.c, th.slot, COUNT, Refused)
              || th == Mover(t, th.c, th.slot, WALK, Refused)
              || (&& th == Mover(t, th.c, th.slot, LINK, th.r.verdict)
                  && (th.r.verdict.Moves? ==> SafeMove(w.txns[t].trace.segs, th.c, locked)))))
  }

  ghost predicate Handles(w: World, t: TxnId, locked: bool) {
    HandlesOk(w, t) && if locked then AllLocked(w, t) else AtMostOne(w, t)
  }

  ghost predicate MoveInv(w: World, t: TxnId, locked: bool) {
    && Handles(w, t, locked)
    && Tree(w.txns[t].trace.segs)
    && (forall x :: x in w.threads ==> MoveOk(w, x, w.threads[x], t, locked))
  }

  lemma OneMoves(w: World, w': World, t: TxnId, locked: bool, x: Tid)
    requires MoveInv(w, t, locked) && t in w'.txns && w'.wraps == w.wraps
    requires |w'.txns[t].trace.segs| == |w.txns[t].trace.segs| && Tree(w'.txns[t].trace.segs)
    requires OneChanged(w, w', x)
    requires x in w'.threads ==> MoveOk(w', x, w'.threads[x], t, locked)
    requires w'.txns[t].trace == w.txns[t].trace || !locked || Get(w.owner, t) == Some(x)
    requires forall y: Tid :: y != x && Get(w.owner, t) == Some(y) ==> Get(w'.owner, t) == Some(y)
    ensures MoveInv(w', t, locked)
  {
    hide Tree, Above, Initial, NewThread, Mover;
    forall y | y in w'.threads ensures MoveOk(w', y, w'.threads[y], t, locked) {
      if y != x {
        assert Get(w'.threads, y) == Get(w.threads, y);
        assert MoveOk(w, y, w.threads[y], t, locked);
      }
    }
  }

  // ---------------------------------------------------------------------
  // One step
  // ---------------------------------------------------------------------

  lemma MoveFacts(w: World, x: Tid, t: TxnId, locked: bool)
    requires MoveInv(w, t, locked) && x in w.threads
    ensures var th := w.threads[x];
            && MoveOk(w, x, th, t, locked) && HasHandles(w, t, th.c) && th.t == t && t in w.txns
            && Live(w, t, th.c.seg) && (th.c.SetParent? ==> Live(w, t, th.c.par))
            && (locked ==> Locks(w, t, th.c.seg))
            && (!locked && th.c.SetParent? ==> th.c.seg == th.c.par)
            && 0 < th.c.seg < |w.txns[t].trace.segs| && To(th.c) < |w.txns[t].trace.segs|
            && Tree(w.txns[t].trace.segs)
  {
    hide MoveOk, Tree;
    assert MoveOk(w, x, w.threads[x], t, locked);
    MoveHandles(w, x, w.threads[x], t, locked);
  }

  lemma MoveHandles(w: World, x: Tid, th: Thread, t: TxnId, locked: bool)
    requires t in w.txns && MoveOk(w, x, th, t, locked)
    ensures th.t == t && HasHandles(w, t, th.c)
  {
  }

  lemma CheckMoves(w: World, x: Tid, t: TxnId, locked: bool)
    requires MoveInv(w, t, locked) && CanStep(w, x) && w.threads[x].stage.Checking?
    ensures MoveInv(Adv(w, x), t, locked)
  {
    hide MoveInv, Tree, Above;
    MoveFacts(w, x, t, locked);
    var th := w.threads[x];
    if Race.Moving(th.c) {
      Passes(w, x, t, th.c);
    } else {
      assert LeavesAtChecks(w, x);
      ExitShape(w, x);
    }
    OneMoves(w, Adv(w, x), t, locked, x);
  }

  lemma LockMoves(w: World, x: Tid, t: TxnId, locked: bool)
    requires MoveInv(w, t, locked) && CanStep(w, x) && w.threads[x].stage.Waiting?
    ensures MoveInv(Adv(w, x), t, locked)
  {
    hide Adv, MoveInv, Tree, Above;
    MoveFacts(w, x, t, locked);
    PassesLock(w, x, t, w.threads[x].c);
    OneMoves(w, Adv(w, x), t, locked, x);
  }

  lemma CountMoves(w: World, x: Tid, t: TxnId, locked: bool)
    requires MoveInv(w, t, locked) && x in w.threads && w.threads[x].stage == Inside(COUNT)
    ensures MoveInv(Adv(w, x), t, locked)
  {
    hide Adv, MoveInv, Tree, Above;
    MoveFacts(w, x, t, locked);
    Counts(w, x, t, w.threads[x].c, w.threads[x].slot);
    OneMoves(w, Adv(w, x), t, locked, x);
  }

  lemma WalkMoves(w: World, x: Tid, t: TxnId, locked: bool)
    requires MoveInv(w, t, locked) && x in w.threads && w.threads[x].stage == Inside(WALK)
    ensures MoveInv(Adv(w, x), t, locked)
  {
    hide Adv, MoveInv, Tree, Above;
    MoveFacts(w, x, t, locked);
    Walks(w, x, t, w.threads[x].c, w.threads[x].slot);
    OneMoves(w, Adv(w, x), t, locked, x);
  }

  lemma SafeMoveKeepsTree(segs: seq<Seg>, c: Call, locked: bool)
    requires Tree(segs) && MoveCall(c) && 0 < c.seg < |segs| && To(c) < |segs| && SafeMove(segs, c, locked)
    ensures Tree(Link(segs, c.seg, To(c)))
  {
    if !locked && Above(segs, c.seg, ROOT) {
      NothingAboveRoot(segs, c.seg);
      assert false;
    }
    LinkTreeIff(segs, c.seg, To(c));
  }

  lemma LinkMoves(w: World, x: Tid, t: TxnId, locked: bool)
    requires MoveInv(w, t, locked) && x in w.threads && w.threads[x].stage == Inside(LINK)
    ensures MoveInv(Adv(w, x), t, locked)
  {
    hide Adv, MoveInv, SafeMove, Tree, Link;
    MoveFacts(w, x, t, locked);
    var th := w.threads[x];
    Links(w, x, t, th.c, th.slot, th.r.verdict);
    if th.r.verdict.Moves? { SafeMoveKeepsTree(w.txns[t].trace.segs, th.c, locked); }
    OneMoves(w, Adv(w, x), t, locked, x);
  }

  lemma LeaveMoves(w: World, x: Tid, t: TxnId, locked: bool)
    requires MoveInv(w, t, locked) && x in w.threads
    requires w.threads[x].stage == Inside(Nil) || w.threads[x].stage.Leaving?
    ensures MoveInv(Adv(w, x), t, locked)
  {
    hide Adv, MoveInv, Tree, Above;
    MoveFacts(w, x, t, locked);
    if w.threads[x].stage.Inside? { Unlocks(w, x); } else { Returns(w, x); }
    OneMoves(w, Adv(w, x), t, locked, x);
  }

  lemma StepMoves(w: World, x: Tid, t: TxnId, locked: bool)
    requires MoveInv(w, t, locked)
    ensures MoveInv(Adv(w, x), t, locked)
  {
    hide MoveInv, Threads.Step, Tree, Above, SafeMove;
    if CanStep(w, x) {
      MoveFacts(w, x, t, locked);
      match w.threads[x].stage
      case Checking => CheckMoves(w, x, t, locked);
      case Waiting => LockMoves(w, x, t, locked);
      case Inside(todo) =>
        if todo == Nil {
          LeaveMoves(w, x, t, locked);
        } else if todo == COUNT {
          CountMoves(w, x, t, locked);
        } else if todo == WALK {
          WalkMoves(w, x, t, locked);
        } else {
          LinkMoves(w, x, t, locked);
        }
      case Leaving(_) => LeaveMoves(w, x, t, locked);
    }
  }

  lemma InvokeMoves(w: World, x: Tid, c: Call, t: TxnId, locked: bool)
    requires MoveInv(w, t, locked) && MayCall(w, x, t, c) && MoveCall(c)
    ensures MoveInv(SetThread(w, x, NewThread(t, c)), t, locked)
  {
    hide Tree, Apart, Above;
    OneMoves(w, SetThread(w, x, NewThread(t, c)), t, locked, x);
  }

  lemma {:induction false} RunMoves(w: World, acts: seq<Act>, t: TxnId, locked: bool)
    requires MoveInv(w, t, locked) && OnlyMoves(acts, t)
    ensures MoveInv(Play(SdkMachine(), w, acts), t, locked)
    decreases |acts|
  {
    hide MoveInv, Threads.Step, CanStep, MayCall, SdkMachine;
    if acts != [] {
      var front, a := acts[..|acts| - 1], acts[|acts| - 1];
      RunMoves(w, front, t, locked);
      var v := Play(SdkMachine(), w, front);
      if a.Advance? {
        StepMoves(v, a.x, t, locked);
      } else if Enabled(v, a) {
        InvokeMoves(v, a.x, a.c, t, locked);
      }
    }
  }

  /** Unless two handles are live and one of them has no lock pointer, the tree holds at every moment. */
  lemma MovesKeepTree(w: World, acts: seq<Act>, t: TxnId)
    requires Mobile(w, t) && !Loose(w, t) && OnlyMoves(acts, t)
    ensures var w' := Play(SdkMachine(), w, acts); t in w'.txns && Tree(w'.txns[t].trace.segs)
  {
    hide SdkMachine, Play, Tree, MoveOk, Loose;
    NotLoose(w, t);
    RunMoves(w, acts, t, AllLocked(w, t));
  }

  // ---------------------------------------------------------------------
  // One call alone
  // ---------------------------------------------------------------------

  lemma {:induction false} PlayConcat(w: World, a: seq<Act>, b: seq<Act>)
    ensures Play(SdkMachine(), w, a + b) == Play(SdkMachine(), Play(SdkMachine(), w, a), b)
    decreases |b|
  {
    hide SdkMachine, Enabled, Next;
    if b == [] {
      assert a + b == a;
    } else {
      var n := |b| - 1;
      assert (a + b)[..|a| + n] == a + b[..n];
      PlayConcat(w, a, b[..n]);
    }
  }

  function Alone(x: Tid, t: TxnId, c: Call): seq<Act> {
    [Invoke(x, t, c)] + [Advance(x), Advance(x), Advance(x), Advance(x)] + [Advance(x)] + [Advance(x), Advance(x)]
  }

  /** A reparent that nobody disturbs. */
  lemma MoveAlone(w: World, x: Tid, t: TxnId, c: Call)
    requires Deadlock.Idle(w) && t in w.txns && Race.Moving(c) && Live(w, t, c.seg) && (c.SetParent? ==> Live(w, t, c.par))
    requires c.seg < |w.txns[t].trace.segs| && To(c) < |w.txns[t].trace.segs|
    ensures var w' := Play(SdkMachine(), w, Alone(x, t, c));
            && Deadlock.Idle(w') && w'.wraps == w.wraps && t in w'.txns
            && w'.txns[t].trace == LinkedTxn(w.txns[t], c.seg, To(c), VerdictOf(w.txns[t].trace, c.seg, To(c))).trace
  {
    hide SdkMachine, Play, Adv, Adv2, Adv4, VerdictOf, Initial, Link;
    var M, a := SdkMachine(), [Invoke(x, t, c)];
    PlayNothing(w);
    PlayInvoke(w, [], x, t, c);
    assert [] + a == a;
    var w1 := Play(M, w, a);
    PlayAdvance4(w, a, x);
    WalksThrough(w1, x, t, c);
    var b := a + [Advance(x), Advance(x), Advance(x), Advance(x)];
    var w5 := Play(M, w, b);
    PlayAdvance(w, b, x);
    Links(w5, x, t, c, |w1.log|, VerdictOf(w.txns[t].trace, c.seg, To(c)));
    PlayAdvance2(w, b + [Advance(x)], x);
    Finishes(Play(M, w, b + [Advance(x)]), x, t);
    assert Play(M, w, Alone(x, t, c)).owner == map[];
  }

  /** Moving s to the root, alone: s is then a child of the root and nothing else has moved. */
  lemma RootAlone(w: World, x: Tid, t: TxnId, s: SegId)
    requires Mobile(w, t) && Live(w, t, s)
    ensures var w' := Play(SdkMachine(), w, Alone(x, t, SetParentRoot(s)));
            && Mobile(w', t) && w'.wraps == w.wraps && |w'.txns[t].trace.segs| == |w.txns[t].trace.segs|
            && s < |w.txns[t].trace.segs|
            && forall i :: 0 <= i < |w.txns[t].trace.segs| ==>
                 w'.txns[t].trace.segs[i].parent == if i == s then Some(ROOT) else w.txns[t].trace.segs[i].parent
  {
    hide SdkMachine, Play, Tree, Alone;
    var segs := w.txns[t].trace.segs;
    MoveAlone(w, x, t, SetParentRoot(s));
    RootVerdict(w.txns[t].trace, s);
    if VerdictOf(w.txns[t].trace, s, ROOT) == Moves {
      LinkParents(segs, s, ROOT);
      LinkTreeIff(segs, s, ROOT);
    }
  }

  lemma RootVerdict(t: Trace, s: SegId)
    requires Tree(t.segs) && 0 < s < |t.segs|
    ensures !Above(t.segs, s, ROOT)
    ensures VerdictOf(t, s, ROOT) == if t.segs[s].parent == Some(ROOT) then Stays else Moves
  {
    if Above(t.segs, s, ROOT) {
      NothingAboveRoot(t.segs, s);
      assert false;
    }
  }

  lemma ChildrenOfRootApart(ss: seq<Seg>, s: SegId, p: SegId)
    requires Tree(ss) && 0 < s < |ss| && 0 < p < |ss| && s != p && ss[s].parent == Some(ROOT) && ss[p].parent == Some(ROOT)
    ensures !Above(ss, s, p)
  {
    forall n: nat ensures Up(ss, p, n) != Some(s) {
      if n >= 2 { assert Up(ss, ROOT, n - 1) == None; }
    }
  }

  // ---------------------------------------------------------------------
  // The condition
  // ---------------------------------------------------------------------

  /** Both to the root, one after the other, and then across. */
  function LooseSchedule(t: TxnId, s: SegId, p: SegId): seq<Act> {
    Alone(0, t, SetParentRoot(s)) + Alone(0, t, SetParentRoot(p)) + RaceSchedule(0, 1, t, s, p)
  }

  lemma LooseBreaks(w: World, t: TxnId, s: SegId, p: SegId)
    requires Mobile(w, t) && LoosePair(w, t, s, p)
    ensures var w' := Play(SdkMachine(), w, LooseSchedule(t, s, p));
            Deadlock.Idle(w') && t in w'.txns && !Tree(w'.txns[t].trace.segs)
  {
    hide SdkMachine, Play, Tree, Alone, RaceSchedule, Above, Up;
    var a, b, c := Alone(0, t, SetParentRoot(s)), Alone(0, t, SetParentRoot(p)), RaceSchedule(0, 1, t, s, p);
    var w1 := Play(SdkMachine(), w, a);
    RootAlone(w, 0, t, s);
    var w2 := Play(SdkMachine(), w1, b);
    RootAlone(w1, 0, t, p);
    PlayConcat(w, a, b);
    PlayConcat(w, a + b, c);
    ChildrenOfRootApart(w2.txns[t].trace.segs, s, p);
    ChildrenOfRootApart(w2.txns[t].trace.segs, p, s);
    RaceBreaksTree(w2, 0, 1, t, s, p);
  }

  lemma LooseScheduleMoves(t: TxnId, s: SegId, p: SegId)
    ensures OnlyMoves(LooseSchedule(t, s, p), t)
  {
  }

  ghost predicate MovesBreak(w: World, acts: seq<Act>, t: TxnId) {
    var w' := Play(SdkMachine(), w, acts);
    OnlyMoves(acts, t) && Deadlock.Idle(w') && t in w'.txns && !Tree(w'.txns[t].trace.segs)
  }

  /** From every idle well-formed state: reparenting through the live handles of t can end with every call returned
      and no tree if and only if t has two live handles and one of them has no lock pointer. */
  lemma MovesBreakIff(w: World, t: TxnId)
    requires Mobile(w, t)
    ensures (exists acts :: MovesBreak(w, acts, t)) <==> Loose(w, t)
  {
    hide SdkMachine, Play, Tree, Mobile, LooseSchedule, OnlyMoves;
    if Loose(w, t) {
      var s: SegId, p: SegId :| LoosePair(w, t, s, p);
      LooseBreaks(w, t, s, p);
      LooseScheduleMoves(t, s, p);
      assert MovesBreak(w, LooseSchedule(t, s, p), t);
    } else {
      forall acts ensures !MovesBreak(w, acts, t) {
        if OnlyMoves(acts, t) { MovesKeepTree(w, acts, t); }
      }
    }
  }
}
