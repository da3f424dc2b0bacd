/**
 Why SchedulesAreAtomic asks for guarded invocations.  Datastore and external
 segments have a NULL lock pointer, so a reparent through one of them runs its
 ancestor walk beside another one, both succeed, and the tree becomes a cycle.
 */
module Race {
  import opened Common
  import opened SegmentTree
  import opened Model
  import opened Invariants
  import opened ThreadCode
  import opened Threads
  import opened Deadlock
  import opened Sdk

  /** A live handle on segment s of t. */
  predicate Live(w: World, t: TxnId, s: SegId) {
    Key(t, s) in w.wraps && w.wraps[Key(t, s)].seg == s
  }

  /** Its lock pointer is set. */
  predicate Locks(w: World, t: TxnId, s: SegId) {
    Key(t, s) in w.wraps && w.wraps[Key(t, s)].locked
  }

  // ---------------------------------------------------------------------
  // The steps of one reparent
  // ---------------------------------------------------------------------

  /** newrelic_set_segment_parent to another segment, or to the root. */
  predicate Moving(c: Call) { c.SetParentRoot? || (c.SetParent? && c.seg != c.par) }

  function To(c: Call): SegId { if c.SetParent? then c.par else ROOT }

  function Mover(t: TxnId, c: Call, slot: nat, todo: Ops, verdict: Verdict): Thread {
    Thread(t, c, Inside(todo), Initial(c).(verdict := verdict), slot, None)
  }

  const LINK: Ops := Cons(Do(LinkSegment), Nil)
  const WALK: Ops := Cons(Do(Walk), LINK)
  const COUNT: Ops := Cons(Do(CountApi), WALK)

  ghost function Adv(w: World, x: Tid): World {
    if CanStep(w, x) then Threads.Step(SdkMachine(), w, x) else w
  }

  /** The thread sees its handles. */
  ghost predicate Sees(w: World, x: Tid, th: Thread) {
    && x in w.threads && w.threads[x] == th && Moving(th.c) && th.t in w.txns
    && Live(w, th.t, th.c.seg) && (th.c.SetParent? ==> Live(w, th.t, th.c.par))
  }

  lemma Passes(w: World, x: Tid, t: TxnId, c: Call)
    requires Sees(w, x, NewThread(t, c))
    ensures Adv(w, x) == SetThread(w, x, NewThread(t, c).(stage := Waiting))
  {
  }

  /** The transaction locks after x has passed its own lock, if there is one. */
  function Taken(w: World, x: Tid, t: TxnId, s: SegId): map<TxnId, Tid> {
    if Locks(w, t, s) then w.owner[t := x] else w.owner
  }

  lemma PassesLock(w: World, x: Tid, t: TxnId, c: Call)
    requires Moving(c) && Sees(w, x, NewThread(t, c).(stage := Waiting)) && (Locks(w, t, c.seg) ==> t !in w.owner)
    ensures Adv(w, x) == SetThread(Logged(w, w.threads[x]), x, Mover(t, c, |w.log|, COUNT, Refused))
                           .(owner := Taken(w, x, t, c.seg))
  {
  }

  /** One instruction of the body. */
  lemma DoesMove(w: World, x: Tid, th: Thread, m: Micro, rest: Ops)
    requires Sees(w, x, th) && th.stage == Inside(Cons(Do(m), rest)) && !th.r.skip
    ensures var v := Exec(th.t, th.c, m, ViewAt(w, th));
            !v.r.skip ==> Adv(w, x) == SetThread(w, x, th.(stage := Inside(rest), r := v.r)).(txns := w.txns[th.t := v.txn])
  {
    hide Exec;
    var v := Exec(th.t, th.c, m, ViewAt(w, th));
    ExecFrameHolds(th.t, th.c, m, ViewAt(w, th));
    assert v.own == Some(w.wraps[Key(th.t, th.c.seg)]);
    assert Put(w.wraps, Key(th.t, th.c.seg), v.own) == w.wraps;
    assert !v.r.skip ==> v.r.(skip := false) == v.r;
  }

  lemma Counts(w: World, x: Tid, t: TxnId, c: Call, slot: nat)
    requires Moving(c) && Sees(w, x, Mover(t, c, slot, COUNT, Refused))
    ensures Adv(w, x) == SetThread(w, x, Mover(t, c, slot, WALK, Refused))
                           .(txns := w.txns[t := Tally(w.txns[t], ApiMetric(ApiOf(c)))])
  {
    hide Adv;
    DoesMove(w, x, Mover(t, c, slot, COUNT, Refused), CountApi, WALK);
  }

  lemma Walks(w: World, x: Tid, t: TxnId, c: Call, slot: nat)
    requires Moving(c) && Sees(w, x, Mover(t, c, slot, WALK, Refused))
    ensures Adv(w, x) == SetThread(w, x, Mover(t, c, slot, LINK, VerdictOf(w.txns[t].trace, c.seg, To(c))))
  {
    hide Adv;
    DoesMove(w, x, Mover(t, c, slot, WALK, Refused), Walk, LINK);
    assert w.txns[t := w.txns[t]] == w.txns;
  }

  /** A mover that has linked, or has been told not to. */
  function Linked(th: Thread): Thread {
    th.(stage := Inside(Nil), r := th.r.(ret := Bool(!th.r.verdict.Refused?)))
  }

  function LinkedTxn(txn: Txn, s: SegId, p: SegId, verdict: Verdict): Txn
    requires s < |txn.trace.segs| && p < |txn.trace.segs|
  {
    if verdict.Moves? then txn.(trace := txn.trace.(segs := Link(txn.trace.segs, s, p))) else txn
  }

  lemma Links(w: World, x: Tid, t: TxnId, c: Call, slot: nat, verdict: Verdict)
    requires Moving(c) && Sees(w, x, Mover(t, c, slot, LINK, verdict))
    requires c.seg < |w.txns[t].trace.segs| && To(c) < |w.txns[t].trace.segs|
    ensures Adv(w, x) == SetThread(w, x, Linked(Mover(t, c, slot, LINK, verdict)))
                           .(txns := w.txns[t := LinkedTxn(w.txns[t], c.seg, To(c), verdict)])
  {
    hide Adv;
    DoesMove(w, x, Mover(t, c, slot, LINK, verdict), LinkSegment, Nil);
  }

  /** The unlock gives back what x holds. */
  lemma Unlocks(w: World, x: Tid)
    requires x in w.threads && w.threads[x].t in w.txns && w.threads[x].stage == Inside(Nil)
    ensures var th := w.threads[x];
            Adv(w, x) == SetThread(w, x, th.(stage := Leaving(Tail(th.c))))
                           .(owner := if Get(w.owner, th.t) == Some(x) then w.owner - {th.t} else w.owner)
  {
    hide Tail;
  }

  lemma Returns(w: World, x: Tid)
    requires x in w.threads && w.threads[x].t in w.txns && w.threads[x].stage == Leaving(Nil)
    ensures Adv(w, x) == w.(threads := w.threads - {x}, rets := w.rets[w.threads[x].slot := w.threads[x].r.ret])
  {
  }

  /** Up to the end of the walk. */
  ghost function Adv4(w: World, x: Tid): World { Adv(Adv(Adv(Adv(w, x), x), x), x) }

  lemma WalksThrough(w: World, x: Tid, t: TxnId, c: Call)
    requires Moving(c) && Sees(w, x, NewThread(t, c)) && (Locks(w, t, c.seg) ==> t !in w.owner)
    ensures var w' := Adv4(w, x);
            && w'.txns == w.txns[t := Tally(w.txns[t], ApiMetric(ApiOf(c)))]
            && w'.wraps == w.wraps && w'.mutex == w.mutex && w'.owner == Taken(w, x, t, c.seg)
            && w'.threads == w.threads[x := Mover(t, c, |w.log|, LINK, VerdictOf(w.txns[t].trace, c.seg, To(c)))]
  {
    hide Adv, Above, VerdictOf;
    var w1 := Adv(w, x);
    Passes(w, x, t, c);
    var w2 := Adv(w1, x);
    PassesLock(w1, x, t, c);
    var w3 := Adv(w2, x);
    Counts(w2, x, t, c, |w.log|);
    Walks(w3, x, t, c, |w.log|);
  }

  /** From the link to the return. */
  ghost function Adv2(w: World, x: Tid): World { Adv(Adv(w, x), x) }

  lemma Finishes(w: World, x: Tid, t: TxnId)
    requires x in w.threads && w.threads[x].t == t && t in w.txns && w.threads[x].stage == Inside(Nil)
    requires Tail(w.threads[x].c) == Nil
    ensures var w' := Adv2(w, x);
            && w'.txns == w.txns && w'.wraps == w.wraps && w'.mutex == w.mutex && w'.log == w.log
            && w'.threads == w.threads - {x}
            && w'.owner == if Get(w.owner, t) == Some(x) then w.owner - {t} else w.owner
  {
    hide Adv;
    Unlocks(w, x);
    Returns(Adv(w, x), x);
  }

  // ---------------------------------------------------------------------
  // The race
  // ---------------------------------------------------------------------

  /** Both calls walk, both link, both return. */
  function RaceSchedule(x: Tid, y: Tid, t: TxnId, s: SegId, p: SegId): seq<Act> {
    WalkSchedule(x, y, t, s, p) + [Advance(x)] + [Advance(y)] + [Advance(x), Advance(x)] + [Advance(y), Advance(y)]
  }

  lemma PlayAdvance(w: World, acts: seq<Act>, x: Tid)
    ensures Play(SdkMachine(), w, acts + [Advance(x)]) == Adv(Play(SdkMachine(), w, acts), x)
  {
    hide CanStep, Threads.Step, SdkMachine;
    assert (acts + [Advance(x)])[..|acts|] == acts;
  }

  lemma PlayAdvance4(w: World, acts: seq<Act>, x: Tid)
    ensures Play(SdkMachine(), w, acts + [Advance(x), Advance(x), Advance(x), Advance(x)])
         == Adv4(Play(SdkMachine(), w, acts), x)
  {
    hide Adv, SdkMachine, Play;
    var a := [Advance(x)];
    PlayAdvance(w, acts, x);
    PlayAdvance(w, acts + a, x);
    PlayAdvance(w, acts + a + a, x);
    PlayAdvance(w, acts + a + a + a, x);
    assert acts + [Advance(x), Advance(x), Advance(x), Advance(x)] == acts + a + a + a + a;
  }

  lemma PlayAdvance2(w: World, acts: seq<Act>, x: Tid)
    ensures Play(SdkMachine(), w, acts + [Advance(x), Advance(x)]) == Adv2(Play(SdkMachine(), w, acts), x)
  {
    hide Adv, SdkMachine, Play;
    PlayAdvance(w, acts, x);
    PlayAdvance(w, acts + [Advance(x)], x);
    assert acts + [Advance(x), Advance(x)] == acts + [Advance(x)] + [Advance(x)];
  }

  lemma PlayInvoke(w: World, acts: seq<Act>, x: Tid, t: TxnId, c: Call)
    requires MayCall(Play(SdkMachine(), w, acts), x, t, c)
    ensures Play(SdkMachine(), w, acts + [Invoke(x, t, c)])
         == SetThread(Play(SdkMachine(), w, acts), x, NewThread(t, c))
  {
    hide SdkMachine;
    assert (acts + [Invoke(x, t, c)])[..|acts|] == acts;
  }

  /** Nobody in the API, and two live handles of one well-formed transaction. */
  ghost predicate Pair(w: World, t: TxnId, s: SegId, p: SegId) {
    && Idle(w) && t in w.txns && s != p && Live(w, t, s) && Live(w, t, p)
    && var ss := w.txns[t].trace.segs;
       Tree(ss) && 0 < s < |ss| && 0 < p < |ss|
  }

  /** Neither is below the other, and at least one has no lock pointer. */
  ghost predicate Racy(w: World, t: TxnId, s: SegId, p: SegId)
    requires t in w.txns
  {
    var ss := w.txns[t].trace.segs;
    !Above(ss, s, p) && !Above(ss, p, s) && !(Locks(w, t, s) && Locks(w, t, p))
  }

  lemma BothInvoked(w: World, x: Tid, y: Tid, t: TxnId, s: SegId, p: SegId)
    requires Pair(w, t, s, p) && x != y
    ensures Play(SdkMachine(), w, [Invoke(x, t, SetParent(s, p)), Invoke(y, t, SetParent(p, s))])
         == SetThread(SetThread(w, x, NewThread(t, SetParent(s, p))), y, NewThread(t, SetParent(p, s)))
  {
    hide SdkMachine, Play, Above, Tree;
    var a, b := Invoke(x, t, SetParent(s, p)), Invoke(y, t, SetParent(p, s));
    assert Play(SdkMachine(), w, []) == w by { PlayNothing(w); }
    PlayInvoke(w, [], x, t, a.c);
    assert [] + [a] == [a];
    PlayInvoke(w, [a], y, t, b.c);
    assert [a] + [b] == [a, b];
  }

  lemma PlayNothing(w: World)
    ensures Play(SdkMachine(), w, []) == w
  {
  }

  /** Linking s to p and then p to s. */
  lemma CrossLinksLoop(ss: seq<Seg>, s: SegId, p: SegId)
    requires Tree(ss) && s != p && 0 < s < |ss| && 0 < p < |ss| && !Above(ss, s, p)
    ensures var tt := Link(Link(ss, s, p), p, s); Up(tt, s, 2) == Some(s) && !Tree(tt)
  {
    var tt := Link(Link(ss, s, p), p, s);
    LinkParents(ss, s, p);
    LinkParents(Link(ss, s, p), p, s);
    assert Up(tt, s, 2) == Up(tt, p, 1) == Up(tt, s, 0);
    if Tree(tt) {
      NoCycle(tt, s, 2);
      assert false;
    }
  }

  function WalkSchedule(x: Tid, y: Tid, t: TxnId, s: SegId, p: SegId): seq<Act> {
    [Invoke(x, t, SetParent(s, p)), Invoke(y, t, SetParent(p, s)),
     Advance(x), Advance(x), Advance(x), Advance(x), Advance(y), Advance(y), Advance(y), Advance(y)]
  }

  /** Both walks done, both allowed, nothing linked yet. */
  ghost predicate BothAllowed(w: World, w': World, x: Tid, y: Tid, t: TxnId, s: SegId, p: SegId) {
    && t in w.txns && t in w'.txns && w'.txns[t].trace == w.txns[t].trace
    && w'.threads.Keys == {x, y} && w'.mutex.None? && w'.owner.Keys <= {t} && (t in w'.owner ==> w'.owner[t] in {x, y})
    && exists i: nat, j: nat :: Sees(w', x, Mover(t, SetParent(s, p), i, LINK, Moves)) && Sees(w', y, Mover(t, SetParent(p, s), j, LINK, Moves))
  }

  lemma ApartMoves(t: Trace, s: SegId, p: SegId)
    requires !Above(t.segs, s, p) && !Above(t.segs, p, s)
    ensures VerdictOf(t, s, p) == Moves
  {
    assert SameParent(t, s, p) ==> Up(t.segs, s, 1) == Up(t.segs, p, 0);
  }

  lemma BothWalk(w: World, x: Tid, y: Tid, t: TxnId, s: SegId, p: SegId)
    requires Pair(w, t, s, p) && Racy(w, t, s, p) && x != y
    ensures BothAllowed(w, Play(SdkMachine(), w, WalkSchedule(x, y, t, s, p)), x, y, t, s, p)
  {
    hide SdkMachine, Play, Above, Tree, Adv, Adv4, VerdictOf;
    var M := SdkMachine();
    var two := [Invoke(x, t, SetParent(s, p)), Invoke(y, t, SetParent(p, s))];
    BothInvoked(w, x, y, t, s, p);
    var w2 := Play(M, w, two);
    var ax, ay := [Advance(x), Advance(x), Advance(x), Advance(x)], [Advance(y), Advance(y), Advance(y), Advance(y)];
    PlayAdvance4(w, two, x);
    WalksThrough(w2, x, t, SetParent(s, p));
    var w6 := Play(M, w, two + ax);
    PlayAdvance4(w, two + ax, y);
    WalksThrough(w6, y, t, SetParent(p, s));
    var w10 := Play(M, w, two + ax + ay);
    assert WalkSchedule(x, y, t, s, p) == two + ax + ay;
    ApartMoves(w.txns[t].trace, s, p);
    ApartMoves(w.txns[t].trace, p, s);
    assert Sees(w10, x, Mover(t, SetParent(s, p), |w2.log|, LINK, Moves)) && Sees(w10, y, Mover(t, SetParent(p, s), |w6.log|, LINK, Moves));
  }

  /** After both walks: link, link, and return from both calls. */
  lemma BothLink(w: World, x: Tid, y: Tid, t: TxnId, s: SegId, p: SegId, i: nat, j: nat)
    requires x != y && Sees(w, x, Mover(t, SetParent(s, p), i, LINK, Moves)) && Sees(w, y, Mover(t, SetParent(p, s), j, LINK, Moves))
    requires w.threads.Keys == {x, y} && w.mutex.None? && w.owner.Keys <= {t} && (t in w.owner ==> w.owner[t] in {x, y})
    requires s < |w.txns[t].trace.segs| && p < |w.txns[t].trace.segs|
    ensures var w' := Adv2(Adv2(Adv(Adv(w, x), y), x), y);
            Idle(w') && t in w'.txns && w'.txns[t].trace.segs == Link(Link(w.txns[t].trace.segs, s, p), p, s)
  {
    hide Adv, Link, Adv2, Initial;
    Links(w, x, t, SetParent(s, p), i, Moves);
    var w1 := Adv(w, x);
    Links(w1, y, t, SetParent(p, s), j, Moves);
    var w2 := Adv(w1, y);
    Finishes(w2, x, t);
    var w3 := Adv2(w2, x);
    Finishes(w3, y, t);
    var w4 := Adv2(w3, y);
    assert w4.threads.Keys == {};
    assert w4.owner.Keys == {};
  }

  /** From every racy pair this schedule of the two calls ends with both returned and s and p above each other. */
  lemma RaceBreaksTree(w: World, x: Tid, y: Tid, t: TxnId, s: SegId, p: SegId)
    requires Pair(w, t, s, p) && Racy(w, t, s, p) && x != y
    ensures var w' := Play(SdkMachine(), w, RaceSchedule(x, y, t, s, p));
            && Idle(w') && t in w'.txns
            && Up(w'.txns[t].trace.segs, s, 2) == Some(s) && !Tree(w'.txns[t].trace.segs)
  {
    hide SdkMachine, Play, Above, Tree, Adv, Adv2, Up, Link, WalkSchedule;
    var walk := WalkSchedule(x, y, t, s, p);
    var w1 := Play(SdkMachine(), w, walk);
    BothWalk(w, x, y, t, s, p);
    var i: nat, j: nat :| Sees(w1, x, Mover(t, SetParent(s, p), i, LINK, Moves)) && Sees(w1, y, Mover(t, SetParent(p, s), j, LINK, Moves));
    BothLink(w1, x, y, t, s, p, i, j);
    PlayAdvance(w, walk, x);
    PlayAdvance(w, walk + [Advance(x)], y);
    PlayAdvance2(w, walk + [Advance(x)] + [Advance(y)], x);
    PlayAdvance2(w, walk + [Advance(x)] + [Advance(y)] + [Advance(x), Advance(x)], y);
    CrossLinksLoop(w.txns[t].trace.segs, s, p);
  }

  // ---------------------------------------------------------------------
  // It can happen
  // ---------------------------------------------------------------------

  /** Two datastore segments, the second moved beside the first. */
  lemma RaceIsReachable() returns (cs: seq<Call>, w: World)
    ensures LegalRun(0, Fresh(true, 1), cs)
    ensures Schedules.Starts(map[0 := Run(0, Fresh(true, 1), cs)], w) && Pair(w, 0, 1, 2) && Racy(w, 0, 1, 2)
  {
    hide Apply, Run, LegalRun, Tree, Above, Fresh;
    var params := DatastoreParams(Some("MySQL"), None, None, None, None, None, None);
    var d := StartDatastore(Some(params), true, 1);
    cs := [d, d, SetParentRoot(2)];
    var b := MovedBeside(d);
    w := World(map[0 := b.txn], map[Key(0, 1) := b.open[1], Key(0, 2) := b.open[2]], map[], map[], None, map[], [], map[]);
    SiblingsApart(b.txn.trace.segs);
  }

  lemma MovedBeside(d: Call) returns (b: Box)
    requires d.StartDatastore? && ValidDatastore(d.ds) && d.ok
    ensures b == Run(0, Fresh(true, 1), [d, d, SetParentRoot(2)]) && LegalRun(0, Fresh(true, 1), [d, d, SetParentRoot(2)])
    ensures b.open.Keys == {1, 2} && b.open[1].seg == 1 && b.open[2].seg == 2 && !b.open[1].locked && !b.open[2].locked
    ensures var ss := b.txn.trace.segs; |ss| == 3 && Tree(ss) && ss[1].parent == Some(ROOT) && ss[2].parent == Some(ROOT)
  {
    hide Tree;
    var b0 := Fresh(true, 1);
    var b1 := Apply(0, b0, d).box;
    var b2 := Apply(0, b1, d).box;
    b := Apply(0, b2, SetParentRoot(2)).box;
    TwoStarted(d);
    MoveRest(b2, 2);
    hide Apply;
    RunThree(b0, d, d, SetParentRoot(2));
    RunKeepsInv(0, true, 1, [d, d, SetParentRoot(2)]);
    TwoInv(d);
    RootNeverRefuses(0, b2, 2);
  }

  lemma MoveRest(b: Box, s: SegId)
    ensures var b' := Apply(0, b, SetParentRoot(s)).box; b'.open == b.open && |b'.txn.trace.segs| == |b.txn.trace.segs|
  {
  }

  lemma TwoInv(d: Call)
    requires d.StartDatastore? && ValidDatastore(d.ds) && d.ok
    ensures Inv(0, Apply(0, Apply(0, Fresh(true, 1), d).box, d).box)
  {
    hide Inv;
    FreshInv(0, true, 1);
    ApplyKeepsInv(0, Fresh(true, 1), d);
    ApplyKeepsInv(0, Apply(0, Fresh(true, 1), d).box, d);
  }

  lemma RunThree(b: Box, c1: Call, c2: Call, c3: Call)
    ensures var b1 := Apply(0, b, c1).box;
            var b2 := Apply(0, b1, c2).box;
            && Run(0, b, [c1, c2, c3]) == Apply(0, b2, c3).box
            && (LegalRun(0, b, [c1, c2, c3]) <==> Legal(b, c1) && Legal(b1, c2) && Legal(b2, c3))
  {
    hide Apply, Legal;
    var cs := [c1, c2, c3];
    assert cs[..2] == [c1, c2] && [c1, c2][..1] == [c1] && [c1][..0] == [];
    assert Run(0, b, []) == b && LegalRun(0, b, []);
    assert Run(0, b, [c1]) == Apply(0, b, c1).box;
    assert LegalRun(0, b, [c1]) <==> Legal(b, c1);
    assert Run(0, b, [c1, c2]) == Apply(0, Apply(0, b, c1).box, c2).box;
  }

  lemma TwoStarted(d: Call)
    requires d.StartDatastore? && ValidDatastore(d.ds) && d.ok
    ensures var b := Apply(0, Apply(0, Fresh(true, 1), d).box, d).box;
            && b.open.Keys == {1, 2} && b.open[1] == Wrapper(1, 0, false, DatastoreOf(d.ds.value))
            && b.open[2] == Wrapper(2, 0, false, DatastoreOf(d.ds.value))
            && |b.txn.trace.segs| == 3 && !b.txn.status.ended
            && b.txn.trace.segs[1].parent == Some(ROOT)
  {
    var b1 := Apply(0, Fresh(true, 1), d).box;
    assert b1.txn.trace.stack == [ROOT, 1] && |b1.txn.trace.segs| == 2;
    assert b1.open == map[1 := Wrapper(1, 0, false, DatastoreOf(d.ds.value))];
  }

  lemma SiblingsApart(ss: seq<Seg>)
    requires Tree(ss) && |ss| == 3 && ss[1].parent == Some(ROOT) && ss[2].parent == Some(ROOT)
    ensures !Above(ss, 1, 2) && !Above(ss, 2, 1)
  {
    forall n: nat ensures Up(ss, 2, n) != Some(1) && Up(ss, 1, n) != Some(2) {
      if n >= 2 { assert Up(ss, ROOT, n - 1) == None; }
    }
  }
}
