/** What an ended segment leaves behind is fixed by the arguments it was started with, whatever ran in between. */
module Reports {
  import opened Common
  import opened SegmentTree
  import opened Metrics
  import opened Naming
  import opened Model
  import opened Invariants
  import opened Histories
  import opened Effects

  predicate Ends(c: Call, s: SegId) { c.EndSegment? && c.seg == s }

  /** What no call but its own end changes about an open segment. */
  predicate SameIdentity(g: Seg, h: Seg) { g.name == h.name && g.kind == h.kind && g.metrics == h.metrics }

  lemma CallKeepsHandle(id: TxnId, b: Box, c: Call, s: SegId)
    requires Inv(id, b) && s in b.open && !Ends(c, s)
    ensures Get(Apply(id, b, c).box.open, s) == Some(b.open[s])
  {
    hide Tree;
    assert HandleOk(id, b, s);
  }

  lemma CallKeepsIdentity(id: TxnId, b: Box, c: Call, s: SegId)
    requires Inv(id, b) && Legal(b, c) && s in b.open && !Ends(c, s)
    ensures var ss, tt := b.txn.trace.segs, Apply(id, b, c).box.txn.trace.segs;
            s < |ss| && s < |tt| && SameIdentity(ss[s], tt[s])
  {
    hide Apply, Tree;
    assert HandleOk(id, b, s);
    if Starting(c) {
      StartOutcome(id, b, c);
      StartEffect(id, b, c);
    } else if c.SetParent? || c.SetParentRoot? {
      MoveEffect(id, b, c);
    } else if c.SetTiming? {
      TimingEffect(id, b, c);
    } else if c.EndSegment? {
      if c.via == Some(id) { EndEffect(id, b, c); } else { WrongEndEffect(id, b, c); }
    } else {
      QuietEffect(id, b, c);
    }
  }

  lemma {:induction false} RunKeepsHandle(id: TxnId, b: Box, cs: seq<Call>, s: SegId)
    requires Inv(id, b) && s in b.open && s < |b.txn.trace.segs| && LegalRun(id, b, cs)
    requires forall i :: 0 <= i < |cs| ==> !Ends(cs[i], s)
    ensures var b' := Run(id, b, cs);
            && Get(b'.open, s) == Some(b.open[s]) && Inv(id, b')
            && s < |b'.txn.trace.segs| && SameIdentity(b.txn.trace.segs[s], b'.txn.trace.segs[s])
    decreases |cs|
  {
    hide Inv, Legal, Apply;
    if cs != [] {
      var n := |cs| - 1;
      RunKeepsHandle(id, b, cs[..n], s);
      var b' := Run(id, b, cs[..n]);
      CallKeepsHandle(id, b', cs[n], s);
      CallKeepsIdentity(id, b', cs[n], s);
      ApplyKeepsInv(id, b', cs[n]);
    }
  }

  /** A start at b that succeeds, a run that does not end its segment, and then the end. */
  ghost predicate Lives(id: TxnId, b: Box, c: Call, cs: seq<Call>) {
    var s, r := |b.txn.trace.segs|, Apply(id, b, c);
    && Inv(id, b) && Legal(b, c) && Starting(c) && r.ret == Handle(Some(s))
    && LegalRun(id, r.box, cs) && !Run(id, r.box, cs).txn.status.ended
    && forall i :: 0 <= i < |cs| ==> !Ends(cs[i], s)
  }

  lemma LivesFacts(id: TxnId, b: Box, c: Call, cs: seq<Call>)
    requires Lives(id, b, c, cs)
    ensures var s, b1 := |b.txn.trace.segs|, Apply(id, b, c).box;
            var b2 := Run(id, b1, cs);
            && s in b1.open && s < |b1.txn.trace.segs| && s in b2.open && b2.open[s] == b1.open[s] && Inv(id, b2)
            && s < |b2.txn.trace.segs| && SameIdentity(b1.txn.trace.segs[s], b2.txn.trace.segs[s])
  {
    hide Inv, Legal, Apply, LegalRun, Run;
    StartHandle(id, b, c);
    StartEffect(id, b, c);
    ApplyKeepsInv(id, b, c);
    RunKeepsHandle(id, Apply(id, b, c).box, cs, |b.txn.trace.segs|);
  }

  /** The one report the end of a datastore or external segment adds holds the parameters of its start, each in its own
      place. */
  lemma ReportIsParameters(id: TxnId, b: Box, c: Call, cs: seq<Call>, now: nat)
    requires Lives(id, b, c, cs) && !c.StartCustom?
    ensures var s, b2 := |b.txn.trace.segs|, Run(id, Apply(id, b, c).box, cs);
            var r := Apply(id, b2, EndSegment(s, Some(id), now));
            var rs := r.box.txn.trace.reports;
            && r.ret == Bool(true)
            && |rs| == |b2.txn.trace.reports| + 1 && rs[..|rs| - 1] == b2.txn.trace.reports
            && rs[|rs| - 1].seg == s
            && (c.StartDatastore? ==> c.ds.Some? && HoldsDatastore(rs[|rs| - 1].payload, c.ds.value))
            && (c.StartExternal? ==> c.ext.Some? && HoldsExternal(rs[|rs| - 1].payload, c.ext.value))
  {
    hide Inv, Apply, LegalRun, Run, HoldsDatastore, HoldsExternal;
    var s, b1 := |b.txn.trace.segs|, Apply(id, b, c).box;
    LivesFacts(id, b, c, cs);
    StartEffect(id, b, c);
    Effects.StartPayload(id, b, c);
    EndEffect(id, Run(id, b1, cs), EndSegment(s, Some(id), now));
  }

  /** The one metric the end of a custom segment gives it is category/name, as its start was told. */
  lemma CustomMetricIsName(id: TxnId, b: Box, c: Call, cs: seq<Call>, now: nat)
    requires Lives(id, b, c, cs) && c.StartCustom?
    ensures var s, b2 := |b.txn.trace.segs|, Run(id, Apply(id, b, c).box, cs);
            var r := Apply(id, b2, EndSegment(s, Some(id), now));
            && r.ret == Bool(true) && s < |r.box.txn.trace.segs|
            && |r.box.txn.trace.segs[s].metrics| == 1 && NamedAfter(r.box.txn.trace.segs[s].metrics[0], c)
            && r.box.txn.trace.segs[s].name == r.box.txn.trace.segs[s].metrics[0]
            && r.box.txn.trace.reports == b2.txn.trace.reports
  {
    hide Inv, Apply, LegalRun, Run, NamedAfter;
    var s, b1 := |b.txn.trace.segs|, Apply(id, b, c).box;
    LivesFacts(id, b, c, cs);
    StartEffect(id, b, c);
    StartName(id, b, c);
    EndEffect(id, Run(id, b1, cs), EndSegment(s, Some(id), now));
  }
}
