/**
 The exact condition for two segments to be put above each other: schedules of
 any number of threads that reparent s to p and p to s keep the tree at every
 moment, unless neither is below the other and one of them has no lock pointer.
 */
module Crossing {
  import opened Common
  import opened SegmentTree
  import opened Model
  import opened Invariants
  import opened ThreadCode
  import opened Threads
  import opened Linearization
  import opened Deadlock
  import opened Sdk
  import opened Race

  predicate CrossCall(c: Call, s: SegId, p: SegId) { c == SetParent(s, p) || c == SetParent(p, s) }

  /** Only these two calls are made, by any threads and any number of times. */
  ghost predicate OnlyCross(acts: seq<Act>, t: TxnId, s: SegId, p: SegId) {
    forall i :: 0 <= i < |acts| && acts[i].Invoke? ==> acts[i].t == t && CrossCall(acts[i].c, s, p)
  }

  // ---------------------------------------------------------------------
  // What keeps the tree
  // ---------------------------------------------------------------------

  /** A mover about to link does no harm: with p above s from the start only s is ever moved, and with both handles
      locked nobody else has linked since its walk. */
  ghost predicate SafeToLink(segs: seq<Seg>, c: Call, s: SegId, ordered: bool)
    requires c.SetParent?
  {
    if ordered then c.seg == s else !Above(segs, c.seg, c.par)
  }

  /** The record of a crossing call at each stage. */
  ghost predicate MoverOk(w: World, x: Tid, th: Thread, t: TxnId, s: SegId, p: SegId, ordered: bool)
    requires t in w.txns
  {
    && th.t == t && CrossCall(th.c, s, p)
    && (th.stage.Checking? ==> th == NewThread(t, th.c))
    && (th.stage.Waiting? ==> th == NewThread(t, th.c).(stage := Waiting))
    && (th.stage.Leaving? ==> th.stage.todo == Nil)
    && (th.stage.Inside? ==>
          && (!ordered ==> Get(w.owner, t) == Some(x))
          && (|| th.stage.todo == Nil
              || th == Mover(t, th.c, th.slot, COUNT, Refused)
              || th == Mover(t, th.c, th.slot, WALK, Refused)
              || (&& th == Mover(t, th.c, th.slot, LINK, th.r.verdict)
                  && (th.r.verdict.Moves? ==> SafeToLink(w.txns[t].trace.segs, th.c, s, ordered)))))
  }

  ghost predicate SegsOk(segs: seq<Seg>, s: SegId, p: SegId, ordered: bool) {
    Tree(segs) && 0 < s < |segs| && 0 < p < |segs| && (ordered ==> Above(segs, p, s))
  }

  /** What every schedule of crossing calls keeps. */
  ghost predicate CrossInv(w: World, t: TxnId, s: SegId, p: SegId, ordered: bool) {
    && t in w.txns && s != p && Live(w, t, s) && Live(w, t, p)
    && (!ordered ==> Locks(w, t, s) && Locks(w, t, p))
    && SegsOk(w.txns[t].trace.segs, s, p, ordered)
    && (forall x :: x in w.threads ==> MoverOk(w, x, w.threads[x], t, s, p, ordered))
  }

  /** One record replaced, the others as safe as before. */
  lemma OneMover(w: World, w': World, t: TxnId, s: SegId, p: SegId, ordered: bool, x: Tid)
    requires CrossInv(w, t, s, p, ordered) && t in w'.txns && w'.wraps == w.wraps
    requires OneChanged(w, w', x)
    requires x in w'.threads ==> MoverOk(w', x, w'.threads[x], t, s, p, ordered)
    requires w'.txns[t].trace == w.txns[t].trace || (ordered || Get(w.owner, t) == Some(x))
    requires SegsOk(w'.txns[t].trace.segs, s, p, ordered)
    requires forall y: Tid :: y != x && Get(w.owner, t) == Some(y) ==> Get(w'.owner, t) == Some(y)
    ensures CrossInv(w', t, s, p, ordered)
  {
    hide SegsOk, Above, Initial, NewThread, Mover;
    forall y | y in w'.threads ensures MoverOk(w', y, w'.threads[y], t, s, p, ordered) {
      if y != x {
        assert Get(w'.threads, y) == Get(w.threads, y);
        assert MoverOk(w, y, w.threads[y], t, s, p, ordered);
      }
    }
  }

  // ---------------------------------------------------------------------
  // One step
  // ---------------------------------------------------------------------

  lemma MoverFacts(w: World, x: Tid, t: TxnId, s: SegId, p: SegId, ordered: bool)
    requires CrossInv(w, t, s, p, ordered) && x in w.threads
    ensures MoverOk(w, x, w.threads[x], t, s, p, ordered) && Sees(w, x, w.threads[x])
    ensures !ordered ==> Locks(w, t, w.threads[x].c.seg)
  {
    hide MoverOk, SegsOk;
    assert MoverOk(w, x, w.threads[x], t, s, p, ordered);
    MoverCall(w, x, w.threads[x], t, s, p, ordered);
  }

  lemma MoverCall(w: World, x: Tid, th: Thread, t: TxnId, s: SegId, p: SegId, ordered: bool)
    requires t in w.txns && MoverOk(w, x, th, t, s, p, ordered)
    ensures th.t == t && CrossCall(th.c, s, p)
  {
  }

  lemma CheckCross(w: World, x: Tid, t: TxnId, s: SegId, p: SegId, ordered: bool)
    requires CrossInv(w, t, s, p, ordered) && x in w.threads && w.threads[x].stage.Checking?
    ensures CrossInv(Adv(w, x), t, s, p, ordered)
  {
    hide Adv, CrossInv, SegsOk, Above;
    MoverFacts(w, x, t, s, p, ordered);
    var th := w.threads[x];
    Passes(w, x, t, th.c);
    CrossFacts(w, t, s, p, ordered);
    OneMover(w, Adv(w, x), t, s, p, ordered, x);
  }

  lemma CrossFacts(w: World, t: TxnId, s: SegId, p: SegId, ordered: bool)
    requires CrossInv(w, t, s, p, ordered)
    ensures t in w.txns && SegsOk(w.txns[t].trace.segs, s, p, ordered)
    ensures !ordered ==> Locks(w, t, s) && Locks(w, t, p)
  {
    hide MoverOk, SegsOk;
  }

  lemma LockCross(w: World, x: Tid, t: TxnId, s: SegId, p: SegId, ordered: bool)
    requires CrossInv(w, t, s, p, ordered) && CanStep(w, x) && w.threads[x].stage.Waiting?
    ensures CrossInv(Adv(w, x), t, s, p, ordered)
  {
    hide Adv, CrossInv, SegsOk, Above;
    MoverFacts(w, x, t, s, p, ordered);
    var th := w.threads[x];
    PassesLock(w, x, t, th.c);
    CrossFacts(w, t, s, p, ordered);
    OneMover(w, Adv(w, x), t, s, p, ordered, x);
  }

  lemma CountCross(w: World, x: Tid, t: TxnId, s: SegId, p: SegId, ordered: bool)
    requires CrossInv(w, t, s, p, ordered) && x in w.threads && w.threads[x].stage == Inside(COUNT)
    ensures CrossInv(Adv(w, x), t, s, p, ordered)
  {
    hide Adv, CrossInv, SegsOk, Above;
    MoverFacts(w, x, t, s, p, ordered);
    var th := w.threads[x];
    Counts(w, x, t, th.c, th.slot);
    CrossFacts(w, t, s, p, ordered);
    OneMover(w, Adv(w, x), t, s, p, ordered, x);
  }

  /** In a tree with p above s, p is never found movable below s. */
  lemma WalkIsSafe(t: Trace, c: Call, s: SegId, p: SegId, ordered: bool)
    requires SegsOk(t.segs, s, p, ordered) && s != p && CrossCall(c, s, p)
    requires VerdictOf(t, c.seg, c.par) == Moves
    ensures SafeToLink(t.segs, c, s, ordered)
  {
    hide Tree, Above;
  }

  lemma WalkCross(w: World, x: Tid, t: TxnId, s: SegId, p: SegId, ordered: bool)
    requires CrossInv(w, t, s, p, ordered) && x in w.threads && w.threads[x].stage == Inside(WALK)
    ensures CrossInv(Adv(w, x), t, s, p, ordered)
  {
    hide Adv, CrossInv, SegsOk, SafeToLink, VerdictOf;
    MoverFacts(w, x, t, s, p, ordered);
    var th := w.threads[x];
    Walks(w, x, t, th.c, th.slot);
    CrossFacts(w, t, s, p, ordered);
    if VerdictOf(w.txns[t].trace, th.c.seg, th.c.par) == Moves { WalkIsSafe(w.txns[t].trace, th.c, s, p, ordered); }
    OneMover(w, Adv(w, x), t, s, p, ordered, x);
  }

  /** A safe link keeps the tree, and p above s. */
  lemma LinkIsSafe(segs: seq<Seg>, c: Call, s: SegId, p: SegId, ordered: bool)
    requires SegsOk(segs, s, p, ordered) && s != p && CrossCall(c, s, p) && SafeToLink(segs, c, s, ordered)
    ensures SegsOk(Link(segs, c.seg, c.par), s, p, ordered)
  {
    hide Tree;
    if ordered { NotBothAbove(segs, s, p); }
    LinkTreeIff(segs, c.seg, c.par);
    if ordered {
      LinkParents(segs, s, p);
      assert Up(Link(segs, s, p), s, 1) == Up(Link(segs, s, p), p, 0);
    }
  }

  lemma NotBothAbove(segs: seq<Seg>, s: SegId, p: SegId)
    requires Tree(segs) && s < |segs| && s != p && Above(segs, p, s)
    ensures !Above(segs, s, p)
  {
    var n: nat :| Up(segs, s, n) == Some(p);
    forall m: nat ensures Up(segs, p, m) != Some(s) {
      UpAdds(segs, s, n, m);
      NoCycle(segs, s, n + m);
    }
  }

  lemma LinkCross(w: World, x: Tid, t: TxnId, s: SegId, p: SegId, ordered: bool)
    requires CrossInv(w, t, s, p, ordered) && x in w.threads && w.threads[x].stage == Inside(LINK)
    ensures CrossInv(Adv(w, x), t, s, p, ordered)
  {
    hide Adv, CrossInv, SafeToLink, Above, Tree, Link;
    MoverFacts(w, x, t, s, p, ordered);
    var th := w.threads[x];
    CrossFacts(w, t, s, p, ordered);
    Links(w, x, t, th.c, th.slot, th.r.verdict);
    if th.r.verdict.Moves? { LinkIsSafe(w.txns[t].trace.segs, th.c, s, p, ordered); }
    OneMover(w, Adv(w, x), t, s, p, ordered, x);
  }

  lemma LeaveCross(w: World, x: Tid, t: TxnId, s: SegId, p: SegId, ordered: bool)
    requires CrossInv(w, t, s, p, ordered) && x in w.threads
    requires w.threads[x].stage == Inside(Nil) || w.threads[x].stage.Leaving?
    ensures CrossInv(Adv(w, x), t, s, p, ordered)
  {
    hide Adv, CrossInv, SegsOk, Above;
    MoverFacts(w, x, t, s, p, ordered);
    CrossFacts(w, t, s, p, ordered);
    if w.threads[x].stage.Inside? { Unlocks(w, x); } else { Returns(w, x); }
    OneMover(w, Adv(w, x), t, s, p, ordered, x);
  }

  lemma StepCross(w: World, x: Tid, t: TxnId, s: SegId, p: SegId, ordered: bool)
    requires CrossInv(w, t, s, p, ordered)
    ensures CrossInv(Adv(w, x), t, s, p, ordered)
  {
    hide CrossInv, Threads.Step, SegsOk, Above, SafeToLink;
    if CanStep(w, x) {
      MoverFacts(w, x, t, s, p, ordered);
      match w.threads[x].stage
      case Checking => CheckCross(w, x, t, s, p, ordered);
      case Waiting => LockCross(w, x, t, s, p, ordered);
      case Inside(todo) =>
        if todo == Nil {
          LeaveCross(w, x, t, s, p, ordered);
        } else if todo == COUNT {
          CountCross(w, x, t, s, p, ordered);
        } else if todo == WALK {
          WalkCross(w, x, t, s, p, ordered);
        } else {
          LinkCross(w, x, t, s, p, ordered);
        }
      case Leaving(_) => LeaveCross(w, x, t, s, p, ordered);
    }
  }

  // ---------------------------------------------------------------------
  // Every schedule
  // ---------------------------------------------------------------------

  lemma InvokeCross(w: World, x: Tid, c: Call, t: TxnId, s: SegId, p: SegId, ordered: bool)
    requires CrossInv(w, t, s, p, ordered) && MayCall(w, x, t, c) && CrossCall(c, s, p)
    ensures CrossInv(SetThread(w, x, NewThread(t, c)), t, s, p, ordered)
  {
    hide CrossInv, SegsOk, Apart;
    CrossFacts(w, t, s, p, ordered);
    OneMover(w, SetThread(w, x, NewThread(t, c)), t, s, p, ordered, x);
  }

  lemma {:induction false} RunCross(w: World, acts: seq<Act>, t: TxnId, s: SegId, p: SegId, ordered: bool)
    requires CrossInv(w, t, s, p, ordered) && OnlyCross(acts, t, s, p)
    ensures CrossInv(Play(SdkMachine(), w, acts), t, s, p, ordered)
    decreases |acts|
  {
    hide CrossInv, Threads.Step, CanStep, MayCall, SdkMachine;
    if acts != [] {
      var front, a := acts[..|acts| - 1], acts[|acts| - 1];
      RunCross(w, front, t, s, p, ordered);
      var v := Play(SdkMachine(), w, front);
      if a.Advance? {
        StepCross(v, a.x, t, s, p, ordered);
      } else if Enabled(v, a) {
        InvokeCross(v, a.x, a.c, t, s, p, ordered);
      }
    }
  }

  /** A pair that is not racy keeps its tree at every moment of every schedule of the two calls. */
  lemma CrossingKeepsTree(w: World, acts: seq<Act>, t: TxnId, s: SegId, p: SegId)
    requires Pair(w, t, s, p) && !Racy(w, t, s, p) && OnlyCross(acts, t, s, p)
    ensures var w' := Play(SdkMachine(), w, acts); t in w'.txns && Tree(w'.txns[t].trace.segs)
  {
    hide SdkMachine, Play, Above, Tree, MoverOk;
    var ss := w.txns[t].trace.segs;
    if Above(ss, s, p) {
      RunCross(w, acts, t, p, s, true);
    } else {
      RunCross(w, acts, t, s, p, Above(ss, p, s));
    }
  }

  /** This schedule of the two calls ends with everybody returned and no tree. */
  ghost predicate Breaks(w: World, acts: seq<Act>, t: TxnId, s: SegId, p: SegId) {
    var w' := Play(SdkMachine(), w, acts);
    OnlyCross(acts, t, s, p) && Idle(w') && t in w'.txns && !Tree(w'.txns[t].trace.segs)
  }

  /** Two reparents across a pair of live segments can break the tree if and only if neither segment is below the
      other and at least one of the two handles has no lock pointer. */
  lemma CrossingBreaksIff(w: World, t: TxnId, s: SegId, p: SegId)
    requires Pair(w, t, s, p)
    ensures (exists acts :: Breaks(w, acts, t, s, p)) <==> Racy(w, t, s, p)
  {
    hide SdkMachine, Play, Above, Tree, Racy, Up;
    if Racy(w, t, s, p) {
      RaceBreaksTree(w, 0, 1, t, s, p);
      assert OnlyCross(RaceSchedule(0, 1, t, s, p), t, s, p);
      assert Breaks(w, RaceSchedule(0, 1, t, s, p), t, s, p);
    } else {
      forall acts ensures !Breaks(w, acts, t, s, p) {
        if OnlyCross(acts, t, s, p) { CrossingKeepsTree(w, acts, t, s, p); }
      }
    }
  }

  // ---------------------------------------------------------------------
  // Timing
  // ---------------------------------------------------------------------

  const TIME: Ops := Cons(Do(TimeSegment), Nil)

  function Timer(t: TxnId, c: Call, slot: nat): Thread {
    Thread(t, c, Inside(TIME), Initial(c), slot, None)
  }

  /** A live handle without a lock pointer, in the record of a timing call. */
  predicate SeesTime(w: World, x: Tid, th: Thread) {
    && x in w.threads && w.threads[x] == th && th.c.SetTiming? && th.t in w.txns
    && Live(w, th.t, th.c.seg) && !Locks(w, th.t, th.c.seg)
  }

  /** Passing the checks and the lock that is not there. */
  lemma TimerEnters(w: World, x: Tid, t: TxnId, c: Call)
    requires SeesTime(w, x, NewThread(t, c))
    ensures Adv2(w, x) == SetThread(Logged(w, w.threads[x]), x, Timer(t, c, |w.log|))
  {
    var w1 := SetThread(w, x, w.threads[x].(stage := Waiting));
    assert Adv(w, x) == w1;
    assert w1.threads[x := Timer(t, c, |w.log|)] == w.threads[x := Timer(t, c, |w.log|)];
  }

  lemma TimerWrites(w: World, x: Tid, t: TxnId, c: Call, slot: nat)
    requires SeesTime(w, x, Timer(t, c, slot))
    ensures Adv(w, x) == SetThread(w, x, Timer(t, c, slot).(stage := Inside(Nil), r := Initial(c).(ret := Bool(true))))
                           .(txns := w.txns[t := w.txns[t].(trace := SetSegTiming(w.txns[t].trace, c.seg, c.start, c.duration))])
  {
    hide SetSegTiming;
    var own := w.wraps[Key(t, c.seg)];
    assert Put(w.wraps, Key(t, c.seg), Some(own)) == w.wraps;
  }

  /** Both pass the missing lock, x first; then y writes, x writes, and both return. */
  function TimingSchedule(x: Tid, y: Tid, t: TxnId, cx: Call, cy: Call): seq<Act> {
    [Invoke(x, t, cx)] + [Invoke(y, t, cy)] + [Advance(x), Advance(x)] + [Advance(y), Advance(y)]
    + [Advance(y)] + [Advance(x)] + [Advance(y), Advance(y)] + [Advance(x), Advance(x)]
  }

  lemma TimersInvoked(w: World, x: Tid, y: Tid, t: TxnId, cx: Call, cy: Call)
    requires Idle(w) && t in w.txns && x != y && cx.SetTiming? && cy.SetTiming? && cx.seg == cy.seg && Live(w, t, cx.seg)
    ensures Play(SdkMachine(), w, [Invoke(x, t, cx)] + [Invoke(y, t, cy)])
         == SetThread(SetThread(w, x, NewThread(t, cx)), y, NewThread(t, cy))
  {
    hide SdkMachine, Play;
    PlayNothing(w);
    PlayInvoke(w, [], x, t, cx);
    assert [] + [Invoke(x, t, cx)] == [Invoke(x, t, cx)];
    PlayInvoke(w, [Invoke(x, t, cx)], y, t, cy);
  }

  /** The steps after both invocations. */
  ghost function TimersRun(w: World, x: Tid, y: Tid): World {
    Adv2(Adv2(Adv(Adv(Adv2(Adv2(w, x), y), y), x), y), x)
  }

  lemma TimersPlay(w: World, x: Tid, y: Tid, t: TxnId, cx: Call, cy: Call)
    ensures Play(SdkMachine(), w, TimingSchedule(x, y, t, cx, cy))
         == TimersRun(Play(SdkMachine(), w, [Invoke(x, t, cx)] + [Invoke(y, t, cy)]), x, y)
  {
    hide SdkMachine, Play, Adv, Adv2;
    var a := [Invoke(x, t, cx)] + [Invoke(y, t, cy)];
    PlayAdvance2(w, a, x);
    a := a + [Advance(x), Advance(x)];
    PlayAdvance2(w, a, y);
    a := a + [Advance(y), Advance(y)];
    PlayAdvance(w, a, y);
    a := a + [Advance(y)];
    PlayAdvance(w, a, x);
    a := a + [Advance(x)];
    PlayAdvance2(w, a, y);
    a := a + [Advance(y), Advance(y)];
    PlayAdvance2(w, a, x);
  }

  /** Both inside, x first in the log; y writes before x. */
  lemma TimersWrite(w: World, x: Tid, y: Tid, t: TxnId, cx: Call, cy: Call, i: nat, j: nat)
    requires x != y && cx.SetTiming? && cy.SetTiming? && cx.seg == cy.seg
    requires SeesTime(w, x, Timer(t, cx, i)) && SeesTime(w, y, Timer(t, cy, j))
    requires w.threads.Keys == {x, y} && w.mutex.None? && w.owner == map[]
    ensures var w' := Adv2(Adv2(Adv(Adv(w, y), x), y), x);
            && Idle(w') && w'.log == w.log && t in w'.txns
            && w'.txns[t] == w.txns[t].(trace := SetSegTiming(SetSegTiming(w.txns[t].trace, cy.seg, cy.start, cy.duration),
                                                              cx.seg, cx.start, cx.duration))
  {
    hide Adv, Adv2, SetSegTiming, Initial;
    TimerWrites(w, y, t, cy, j);
    var w1 := Adv(w, y);
    TimerWrites(w1, x, t, cx, i);
    var w2 := Adv(w1, x);
    Finishes(w2, y, t);
    var w3 := Adv2(w2, y);
    Finishes(w3, x, t);
    var w4 := Adv2(w3, x);
    assert w4.threads.Keys == {};
  }

  lemma TimersResult(w: World, x: Tid, y: Tid, t: TxnId, cx: Call, cy: Call)
    requires Idle(w) && t in w.txns && x != y && cx.SetTiming? && cy.SetTiming? && cx.seg == cy.seg
    requires Live(w, t, cx.seg) && !Locks(w, t, cx.seg)
    ensures var w' := Play(SdkMachine(), w, TimingSchedule(x, y, t, cx, cy));
            && Idle(w') && w'.log == w.log + [Entry(t, cx)] + [Entry(t, cy)] && t in w'.txns
            && w'.txns[t] == w.txns[t].(trace := SetSegTiming(SetSegTiming(w.txns[t].trace, cy.seg, cy.start, cy.duration),
                                                              cx.seg, cx.start, cx.duration))
  {
    hide SdkMachine, Play, Adv, Adv2, SetSegTiming, TimingSchedule, Initial;
    TimersInvoked(w, x, y, t, cx, cy);
    TimersPlay(w, x, y, t, cx, cy);
    var w2 := SetThread(SetThread(w, x, NewThread(t, cx)), y, NewThread(t, cy));
    TimerEnters(w2, x, t, cx);
    var w3 := Adv2(w2, x);
    TimerEnters(w3, y, t, cy);
    var w4 := Adv2(w3, y);
    TimersWrite(w4, x, y, t, cx, cy, |w2.log|, |w3.log|);
  }

  /** Timing a segment through a handle without a lock pointer: for any two timings that differ, this schedule ends
      with the one that passed the lock first, while the calls in lock order end with the other. */
  lemma TimingLosesLockOrder(w: World, x: Tid, y: Tid, t: TxnId, cx: Call, cy: Call, open: map<SegId, Wrapper>)
    requires Idle(w) && t in w.txns && x != y && cx.SetTiming? && cy.SetTiming? && cx.seg == cy.seg
    requires Live(w, t, cx.seg) && !Locks(w, t, cx.seg) && cx.seg < |w.txns[t].trace.segs|
    requires var g := w.txns[t].trace.segs[cx.seg]; Timed(g, cx.start, cx.duration) != Timed(g, cy.start, cy.duration)
    ensures var w' := Play(SdkMachine(), w, TimingSchedule(x, y, t, cx, cy));
            && Idle(w') && w'.log == w.log + [Entry(t, cx)] + [Entry(t, cy)] && t in w'.txns
            && w'.txns[t] != Run(t, Box(w.txns[t], open), [cx, cy]).txn
            && w'.txns[t] == Run(t, Box(w.txns[t], open), [cy, cx]).txn
  {
    hide SdkMachine, Play, TimingSchedule;
    TimersResult(w, x, y, t, cx, cy);
    RunTwoCalls(t, Box(w.txns[t], open), cx, cy);
    RunTwoCalls(t, Box(w.txns[t], open), cy, cx);
    LastTimingStays(w.txns[t].trace, cx, cy);
    LastTimingStays(w.txns[t].trace, cy, cx);
  }

  lemma RunTwoCalls(id: TxnId, b: Box, c: Call, d: Call)
    ensures Run(id, b, [c, d]) == Apply(id, Apply(id, b, c).box, d).box
  {
    hide Apply;
    assert [c, d][..1] == [c] && [c][..0] == [];
    assert Run(id, b, []) == b && Run(id, b, [c]) == Apply(id, b, c).box;
  }

  lemma LastTimingStays(t: Trace, c: Call, d: Call)
    requires c.SetTiming? && d.SetTiming? && c.seg == d.seg < |t.segs|
    ensures var t' := SetSegTiming(SetSegTiming(t, c.seg, c.start, c.duration), d.seg, d.start, d.duration);
            |t'.segs| == |t.segs| && t'.segs[c.seg] == Timed(t.segs[c.seg], d.start, d.duration)
  {
  }
}
