/**
 What every run of API calls keeps, from the fresh transaction on: one segment
 tree, a parent stack rooted at the root, and handles whose union variant is the
 one their axiom segment's type calls for.
 */
module Invariants {
  import opened Common
  import opened SegmentTree
  import opened Model

  ghost predicate StackOk(t: Trace) {
    && |t.stack| > 0 && t.stack[0] == ROOT
    && NoDup(t.stack)
    && forall x :: x in t.stack ==> x < |t.segs|
  }

  /** The active union variant is the one the axiom type selects. */
  predicate VariantMatches(k: Kind, p: Payload) {
    match k
    case Custom => p.NoPayload?
    case Datastore => p.DatastorePayload?
    case External => p.ExternalPayload?
    case Unknown(_) => false
  }

  ghost predicate HandleOk(id: TxnId, b: Box, s: SegId)
    requires s in b.open
  {
    && 0 < s < |b.txn.trace.segs|
    && b.open[s].seg == s && b.open[s].txn == id
    && VariantMatches(b.txn.trace.segs[s].kind, b.open[s].payload)
    && (b.open[s].locked <==> b.txn.trace.segs[s].kind.Custom?)
    && b.txn.trace.segs[s].ends == 0
  }

  ghost predicate SegOk(t: Trace, i: SegId)
    requires i < |t.segs|
  {
    !t.segs[i].kind.Unknown? && t.segs[i].ends <= 1
  }

  ghost predicate Inv(id: TxnId, b: Box) {
    && Tree(b.txn.trace.segs)
    && StackOk(b.txn.trace)
    && (forall i :: 0 <= i < |b.txn.trace.segs| ==> SegOk(b.txn.trace, i))
    && (forall s :: s in b.open ==> HandleOk(id, b, s))
  }

  lemma FreshInv(id: TxnId, errEnabled: bool, now: nat)
    ensures Inv(id, Fresh(errEnabled, now))
  {
    FreshTree(now);
  }

  // ---------------------------------------------------------------------
  // One call
  // ---------------------------------------------------------------------

  /** Replacing one segment's unlinked fields. */
  lemma UpdateKeepsTree(ss: seq<Seg>, s: SegId, g: Seg)
    requires Tree(ss) && s < |ss| && g.parent == ss[s].parent && g.children == ss[s].children
    ensures Tree(ss[s := g])
  {
    SameLinksSameTree(ss, ss[s := g]);
  }

  lemma CurrentInRange(t: Trace)
    requires StackOk(t)
    ensures Current(t) < |t.segs|
  {
    assert Current(t) in t.stack;
  }

  /** A started segment g, whatever name and kind the SDK gave it before handing out the handle. */
  lemma StartedKeepsInv(id: TxnId, b: Box, t': Trace, g: Seg, locked: bool, payload: Payload)
    requires Inv(id, b) && Current(b.txn.trace) < |b.txn.trace.segs|
    requires g.parent == Some(Current(b.txn.trace)) && g.children == [] && g.ends == 0
    requires VariantMatches(g.kind, payload) && (locked <==> g.kind.Custom?)
    requires t'.segs == Append(b.txn.trace.segs, Current(b.txn.trace), g.start)[|b.txn.trace.segs| := g]
    requires t'.stack == b.txn.trace.stack + [|b.txn.trace.segs|]
    ensures Inv(id, Started(id, b, t', locked, payload).box)
  {
    var n := |b.txn.trace.segs|;
    var tt := Append(b.txn.trace.segs, Current(b.txn.trace), g.start);
    AppendKeepsTree(b.txn.trace.segs, Current(b.txn.trace), g.start);
    UpdateKeepsTree(tt, n, g);
    var b' := Started(id, b, t', locked, payload).box;
    forall i: nat | i < |t'.segs| ensures SegOk(t', i) {
      if i < n { assert SegOk(b.txn.trace, i); }
    }
    forall s | s in b'.open ensures HandleOk(id, b', s) {
      if s != n { assert HandleOk(id, b, s); }
    }
    NoDupSnoc(b.txn.trace.stack, n);
  }

  lemma StartKeepsInv(id: TxnId, b: Box, c: Call)
    requires Inv(id, b) && (c.StartCustom? || c.StartDatastore? || c.StartExternal?)
    ensures Inv(id, Apply(id, b, c).box)
  {
    CurrentInRange(b.txn.trace);
    var r := Apply(id, b, c);
    if r.ret.Handle? && r.ret.h.Some? {
      var n, g := |b.txn.trace.segs|, NewSeg(Current(b.txn.trace), Custom, c.now);
      match c {
        case StartCustom(name, category, _, _) =>
          StartedKeepsInv(id, b, r.box.txn.trace, g.(name := Naming.MetricName(name, category)), true, NoPayload);
        case StartDatastore(ds, _, _) =>
          StartedKeepsInv(id, b, r.box.txn.trace, g.(kind := Datastore), false, DatastoreOf(ds.value));
        case StartExternal(ext, _, _) =>
          StartedKeepsInv(id, b, r.box.txn.trace, g.(kind := External), false, ExternalOf(ext.value));
      }
    }
  }

  lemma ReparentKeepsInv(id: TxnId, b: Box, s: SegId, p: SegId)
    requires Inv(id, b) && 0 < s < |b.txn.trace.segs|
    ensures Inv(id, b.(txn := b.txn.(trace := Reparent(b.txn.trace, s, p))))
  {
    var t' := Reparent(b.txn.trace, s, p);
    if p < |b.txn.trace.segs| && !Above(b.txn.trace.segs, s, p) {
      LinkKeepsTree(b.txn.trace.segs, s, p);
      forall i: nat | i < |t'.segs| ensures SegOk(t', i) { assert SegOk(b.txn.trace, i); }
      forall x | x in b.open ensures HandleOk(id, b.(txn := b.txn.(trace := t')), x) { assert HandleOk(id, b, x); }
    }
  }

  lemma EndKeepsInv(id: TxnId, b: Box, s: SegId, now: nat)
    requires Inv(id, b) && s in b.open
    ensures Inv(id, Box(b.txn.(trace := EndRoutine(b.txn.trace, s, b.open[s], now)), b.open - {s}))
  {
    assert HandleOk(id, b, s) && SegOk(b.txn.trace, s);
    var t' := EndRoutine(b.txn.trace, s, b.open[s], now);
    var b' := Box(b.txn.(trace := t'), b.open - {s});
    UpdateKeepsTree(b.txn.trace.segs, s, t'.segs[s]);
    assert t'.segs == b.txn.trace.segs[s := t'.segs[s]];
    RemoveIsSetMinus(b.txn.trace.stack, s);
    RemoveKeepsBottom(b.txn.trace.stack, s);
    forall i: nat | i < |t'.segs| ensures SegOk(t', i) { assert SegOk(b.txn.trace, i); }
    forall x | x in b'.open ensures HandleOk(id, b', x) { assert HandleOk(id, b, x); }
  }

  lemma {:induction false} RemoveKeepsBottom(xs: seq<SegId>, x: SegId)
    requires |xs| > 0 && x != xs[0]
    ensures |Remove(xs, x)| > 0 && Remove(xs, x)[0] == xs[0]
    decreases |xs|
  {
    if |xs| > 1 && xs[|xs| - 1] != x { RemoveKeepsBottom(xs[..|xs| - 1], x); }
  }

  lemma TimingKeepsInv(id: TxnId, b: Box, s: SegId, start: nat, duration: nat)
    requires Inv(id, b) && s < |b.txn.trace.segs|
    ensures Inv(id, b.(txn := b.txn.(trace := SetSegTiming(b.txn.trace, s, start, duration))))
  {
    var b' := b.(txn := b.txn.(trace := SetSegTiming(b.txn.trace, s, start, duration)));
    UpdateKeepsTree(b.txn.trace.segs, s, Timed(b.txn.trace.segs[s], start, duration));
    forall i: nat | i < |b'.txn.trace.segs| ensures SegOk(b'.txn.trace, i) { assert SegOk(b.txn.trace, i); }
    forall x | x in b'.open ensures HandleOk(id, b', x) { assert HandleOk(id, b, x); }
  }

  /** Calls that leave segments, stack and handles alone. */
  lemma SameSegmentsSameInv(id: TxnId, b: Box, b': Box)
    requires Inv(id, b)
    requires b'.txn.trace.segs == b.txn.trace.segs && b'.txn.trace.stack == b.txn.trace.stack
    requires b'.open.Keys <= b.open.Keys && forall s :: s in b'.open ==> b'.open[s] == b.open[s]
    ensures Inv(id, b')
  {
    forall i: nat | i < |b'.txn.trace.segs| ensures SegOk(b'.txn.trace, i) { assert SegOk(b.txn.trace, i); }
    forall x | x in b'.open ensures HandleOk(id, b', x) { assert HandleOk(id, b, x); }
  }

  lemma MoveKeepsInv(id: TxnId, b: Box, c: Call)
    requires Inv(id, b) && Legal(b, c) && (c.SetParent? || c.SetParentRoot?)
    ensures Inv(id, Apply(id, b, c).box)
  {
    assert HandleOk(id, b, c.seg);
    var api := if c.SetParent? then SET_PARENT else SET_PARENT_ROOT;
    var b1 := b.(txn := Tally(b.txn, ApiMetric(api)));
    SameSegmentsSameInv(id, b, b1);
    ReparentKeepsInv(id, b1, c.seg, if c.SetParent? then c.par else ROOT);
  }

  lemma ApplyKeepsInv(id: TxnId, b: Box, c: Call)
    requires Inv(id, b) && Legal(b, c)
    ensures Inv(id, Apply(id, b, c).box)
  {
    if c.StartCustom? || c.StartDatastore? || c.StartExternal? {
      StartKeepsInv(id, b, c);
    } else if c.SetParent? || c.SetParentRoot? {
      MoveKeepsInv(id, b, c);
    } else if c.SetTiming? {
      assert HandleOk(id, b, c.seg);
      TimingKeepsInv(id, b, c.seg, c.start, c.duration);
    } else if c.EndSegment? && c.via == Some(id) {
      assert HandleOk(id, b, c.seg);
      EndKeepsInv(id, b, c.seg, c.now);
    } else {
      SameSegmentsSameInv(id, b, Apply(id, b, c).box) by {
        if c.EndSegment? { assert HandleOk(id, b, c.seg); }
      }
    }
  }

  // ---------------------------------------------------------------------
  // Every run
  // ---------------------------------------------------------------------

  /** After any legal run of any calls the invariant, and so the tree, holds. */
  lemma {:induction false} RunKeepsInv(id: TxnId, errEnabled: bool, now: nat, cs: seq<Call>)
    requires LegalRun(id, Fresh(errEnabled, now), cs)
    ensures Inv(id, Run(id, Fresh(errEnabled, now), cs))
    decreases |cs|
  {
    if cs == [] {
      FreshInv(id, errEnabled, now);
    } else {
      RunKeepsInv(id, errEnabled, now, cs[..|cs| - 1]);
      ApplyKeepsInv(id, Run(id, Fresh(errEnabled, now), cs[..|cs| - 1]), cs[|cs| - 1]);
    }
  }

  /** After any run every segment has at most one parent, the root none, and nothing is its own ancestor. */
  lemma RunsAreTrees(id: TxnId, errEnabled: bool, now: nat, cs: seq<Call>)
    requires LegalRun(id, Fresh(errEnabled, now), cs)
    ensures var ss := Run(id, Fresh(errEnabled, now), cs).txn.trace.segs;
            && Tree(ss)
            && forall i: SegId, n: nat :: i < |ss| && n > 0 ==> Up(ss, i, n) != Some(i)
  {
    RunKeepsInv(id, errEnabled, now, cs);
    var ss := Run(id, Fresh(errEnabled, now), cs).txn.trace.segs;
    forall i: SegId, n: nat | i < |ss| && n > 0 ensures Up(ss, i, n) != Some(i) {
      NoCycle(ss, i, n);
    }
  }

  lemma NotAboveParent(ss: seq<Seg>, s: SegId, p: SegId)
    requires Tree(ss) && s < |ss| && ss[s].parent == Some(p)
    ensures !Above(ss, s, p)
  {
    forall n: nat ensures Up(ss, p, n) != Some(s) {
      NoCycle(ss, s, n + 1);
      assert Up(ss, s, n + 1) == Up(ss, p, n);
    }
  }

  /** A reparent is refused exactly when the segment is the new parent or above it, and a refused
      move is exactly one that would have destroyed the tree. */
  lemma ReparentRefusedIff(id: TxnId, b: Box, s: SegId, p: SegId)
    requires Inv(id, b) && Legal(b, SetParent(s, p))
    ensures var r := Apply(id, b, SetParent(s, p));
            && (r.ret == Bool(false) <==> Above(b.txn.trace.segs, s, p))
            && (r.ret == Bool(false) <==> !Tree(Link(b.txn.trace.segs, s, p)))
            && (r.ret == Bool(false) ==> r.box.txn.trace.segs == b.txn.trace.segs)
            && (r.ret == Bool(true) ==> r.box.txn.trace.segs[s].parent == Some(p))
            && (r.ret == Bool(true) && b.txn.trace.segs[s].parent != Some(p) ==> r.box.txn.trace.segs == Link(b.txn.trace.segs, s, p))
            && (b.txn.trace.segs[s].parent == Some(p) ==> r.box.txn.trace.segs == b.txn.trace.segs)
  {
    assert HandleOk(id, b, s) && HandleOk(id, b, p);
    if SameParent(b.txn.trace, s, p) { NotAboveParent(b.txn.trace.segs, s, p); }
    if s == p { assert Up(b.txn.trace.segs, p, 0) == Some(s); }
    LinkTreeIff(b.txn.trace.segs, s, p);
  }

  /** Reparenting to the root is never refused, whatever the history, and makes s a direct child of the root. */
  lemma RootNeverRefuses(id: TxnId, b: Box, s: SegId)
    requires Inv(id, b) && Legal(b, SetParentRoot(s))
    ensures var r := Apply(id, b, SetParentRoot(s));
            && r.ret == Bool(true)
            && r.box.txn.trace.segs[s].parent == Some(ROOT)
            && s in r.box.txn.trace.segs[ROOT].children
            && (forall i :: 0 <= i < |b.txn.trace.segs| && i != s ==> r.box.txn.trace.segs[i].parent == b.txn.trace.segs[i].parent)
  {
    assert HandleOk(id, b, s);
    if Above(b.txn.trace.segs, s, ROOT) {
      NothingAboveRoot(b.txn.trace.segs, s);
      assert false;
    }
    if SameParent(b.txn.trace, s, ROOT) {
      assert NodeAgrees(b.txn.trace.segs, s);
    } else {
      LinkAgrees(b.txn.trace.segs, s, ROOT, s);
      LinkParents(b.txn.trace.segs, s, ROOT);
    }
  }

  /** end_segment returns true exactly when the handle's own end routine ran, once, on its own transaction;
      otherwise the transaction is untouched.  Both ways the handle is gone. */
  lemma EndRunsOnce(id: TxnId, b: Box, s: SegId, via: Option<TxnId>, now: nat)
    requires Inv(id, b) && Legal(b, EndSegment(s, via, now))
    ensures var r := Apply(id, b, EndSegment(s, via, now));
            var g, g' := b.txn.trace.segs[s], r.box.txn.trace.segs[s];
            && (r.ret == Bool(true) <==> via == Some(id))
            && (r.ret == Bool(true) <==> g'.ends == 1)
            && (r.ret == Bool(true) && g.kind.Custom? ==>
                  g'.metrics == g.metrics + [g.name] && r.box.txn.trace.reports == b.txn.trace.reports)
            && (r.ret == Bool(true) && !g.kind.Custom? ==>
                  g'.metrics == g.metrics && r.box.txn.trace.reports == b.txn.trace.reports + [Report(s, b.open[s].payload)])
            && (r.ret == Bool(false) ==> r.box.txn == b.txn)
            && r.box.open == b.open - {s}
  {
    assert HandleOk(id, b, s) && SegOk(b.txn.trace, s);
  }
}
