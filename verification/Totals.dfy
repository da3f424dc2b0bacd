/** The totals of the metric table over whole runs, told from the ended segments and the client's own values. */
module Totals {
  import opened Common
  import opened SegmentTree
  import opened Metrics
  import opened Naming
  import opened Model
  import opened Invariants
  import opened Histories
  import opened Effects

  /** The end of a segment with this payload is counted under this name. */
  predicate Under(p: Payload, name: string) {
    match p
    case NoPayload => false
    case DatastorePayload(product, _, _, _, _, _, _) => name == "Datastore/all" || name == ProductRollup(product)
    case ExternalPayload(_, _, _) => name == "External/all"
  }

  /** How long the reported segments counted under a name lasted, all together. */
  function ReportedTime(rs: seq<Report>, ss: seq<Seg>, name: string): real
    decreases |rs|
  {
    if rs == [] then 0.0
    else
      var r := rs[|rs| - 1];
      ReportedTime(rs[..|rs| - 1], ss, name) + if r.seg < |ss| && Under(r.payload, name) then Lasted(ss[r.seg]) else 0.0
  }

  predicate ClientRecords(c: Call, name: string) { c.RecordMetric? && c.metric == Some(name) && c.ok }

  /** What the client recorded under a name while the transaction recorded: milliseconds, in whole microseconds. */
  function ClientTime(cs: seq<Call>, name: string): real
    decreases |cs|
  {
    if cs == [] then 0.0
    else
      var front, c := cs[..|cs| - 1], cs[|cs| - 1];
      ClientTime(front, name) + if ClientRecords(c, name) && Recording(front) then (1000.0 * c.sample).Floor as real else 0.0
  }

  // ---------------------------------------------------------------------
  // Reported segments do not change any more
  // ---------------------------------------------------------------------

  ghost predicate ClosedAt(b: Box, i: nat)
    requires i < |b.txn.trace.reports|
  {
    var s := b.txn.trace.reports[i].seg;
    s < |b.txn.trace.segs| && s !in b.open
  }

  ghost predicate Closed(b: Box) {
    forall i: nat :: i < |b.txn.trace.reports| ==> ClosedAt(b, i)
  }

  predicate SameTimes(g: Seg, h: Seg) { g.start == h.start && g.stop == h.stop }

  /** No call changes the times of a segment without a handle. */
  lemma TimesOfClosed(id: TxnId, b: Box, c: Call, s: SegId)
    requires Inv(id, b) && Legal(b, c) && s < |b.txn.trace.segs| && s !in b.open
    ensures var b' := Apply(id, b, c).box;
            s < |b'.txn.trace.segs| && s !in b'.open && SameTimes(b.txn.trace.segs[s], b'.txn.trace.segs[s])
  {
    hide Apply, Inv;
    if Starting(c) {
      StartOutcome(id, b, c);
      StartEffect(id, b, c);
      StartHandle(id, b, c);
    } else if c.SetParent? || c.SetParentRoot? {
      MoveEffect(id, b, c);
    } else if c.SetTiming? {
      TimingEffect(id, b, c);
    } else if c.EndSegment? {
      if c.via == Some(id) { EndEffect(id, b, c); } else { WrongEndEffect(id, b, c); }
    } else {
      QuietEffect(id, b, c);
    }
  }

  /** Only an end on the own transaction of a typed segment reports. */
  lemma ReportsOfCall(id: TxnId, b: Box, c: Call)
    requires Inv(id, b) && Legal(b, c)
    ensures var t, t' := b.txn.trace, Apply(id, b, c).box.txn.trace;
            if c.EndSegment? && c.via == Some(id) then
              && c.seg < |t.segs| && c.seg < |t'.segs| && c.seg !in Apply(id, b, c).box.open
              && t'.reports == if t.segs[c.seg].kind.Custom? then t.reports else t.reports + [Report(c.seg, b.open[c.seg].payload)]
            else t'.reports == t.reports
  {
    hide Apply, Inv;
    if Starting(c) {
      StartOutcome(id, b, c);
      StartEffect(id, b, c);
    } else if c.SetParent? || c.SetParentRoot? {
      MoveEffect(id, b, c);
    } else if c.SetTiming? {
      TimingEffect(id, b, c);
    } else if c.EndSegment? {
      if c.via == Some(id) { EndEffect(id, b, c); } else { WrongEndEffect(id, b, c); }
    } else {
      QuietEffect(id, b, c);
    }
  }

  lemma CallKeepsClosed(id: TxnId, b: Box, c: Call)
    requires Inv(id, b) && Legal(b, c) && Closed(b)
    ensures Closed(Apply(id, b, c).box)
  {
    hide Apply, Inv, Legal;
    var b' := Apply(id, b, c).box;
    ReportsOfCall(id, b, c);
    forall i: nat | i < |b'.txn.trace.reports| ensures ClosedAt(b', i) {
      if i < |b.txn.trace.reports| {
        assert ClosedAt(b, i);
        TimesOfClosed(id, b, c, b.txn.trace.reports[i].seg);
      }
    }
  }

  lemma {:induction false} TimeStays(rs: seq<Report>, ss: seq<Seg>, tt: seq<Seg>, name: string)
    requires forall i :: 0 <= i < |rs| ==> rs[i].seg < |ss| && rs[i].seg < |tt| && SameTimes(ss[rs[i].seg], tt[rs[i].seg])
    ensures ReportedTime(rs, ss, name) == ReportedTime(rs, tt, name)
    decreases |rs|
  {
    if rs != [] { TimeStays(rs[..|rs| - 1], ss, tt, name); }
  }

  // ---------------------------------------------------------------------
  // One call
  // ---------------------------------------------------------------------

  /** What an end adds under a name. */
  function EndGain(b: Box, b': Box, c: Call, name: string): real {
    if c.EndSegment? && c.seg in b.open && c.seg < |b'.txn.trace.segs| && Under(b.open[c.seg].payload, name)
       && c.via == Some(b.open[c.seg].txn)
    then Lasted(b'.txn.trace.segs[c.seg]) else 0.0
  }

  function ClientGain(b: Box, c: Call, name: string): real {
    if ClientRecords(c, name) && b.txn.status.recording then (1000.0 * c.sample).Floor as real else 0.0
  }

  lemma GainIs(t: Table, t': Table, n: string, v: real, name: string)
    requires Gains(t, t', n, v)
    ensures Total(t', name) == Total(t, name) + if name == n then v else 0.0
  {
    assert name != n ==> Get(t', name) == Get(t, name);
  }

  lemma TotalOfEnd(id: TxnId, b: Box, c: Call, name: string)
    requires Inv(id, b) && Legal(b, c) && c.EndSegment?
    ensures var b' := Apply(id, b, c).box;
            Total(b'.txn.metrics, name) == Total(b.txn.metrics, name) + EndGain(b, b', c, name)
  {
    hide Apply, Tree, ProductName, Lasted;
    assert HandleOk(id, b, c.seg);
    var b' := Apply(id, b, c).box;
    if c.via == Some(id) {
      EndTotals(id, b, c);
      match b.txn.trace.segs[c.seg].kind
      case Datastore =>
        var product := ProductRollup(b.open[c.seg].payload.product);
        assert name != "Datastore/all" && name != product ==> Get(b'.txn.metrics, name) == Get(b.txn.metrics, name);
      case External => GainIs(b.txn.metrics, b'.txn.metrics, "External/all", Lasted(b'.txn.trace.segs[c.seg]), name);
      case _ =>
    } else {
      WrongEndEffect(id, b, c);
    }
  }

  lemma MetricsStay(id: TxnId, b: Box, c: Call)
    requires Starting(c) || c.SetTiming? || c.NoticeError? || c.AddAttribute? || c.RecordEvent? || c.Ignore?
    ensures Apply(id, b, c).box.txn.metrics == b.txn.metrics
  {
  }

  lemma TotalOfCall(id: TxnId, b: Box, c: Call, name: string)
    requires Inv(id, b) && Legal(b, c)
    ensures var b' := Apply(id, b, c).box;
            Total(b'.txn.metrics, name) == Total(b.txn.metrics, name) + EndGain(b, b', c, name) + ClientGain(b, c, name)
  {
    hide Apply, Inv, Legal, Lasted, Gains, Under;
    var t, t' := b.txn.metrics, Apply(id, b, c).box.txn.metrics;
    match c {
      case EndSegment(_, _, _) => TotalOfEnd(id, b, c, name);
      case RecordMetric(m, v, ok) =>
        MetricEffect(id, b, c);
        if m.Some? && ok && b.txn.status.recording { GainIs(t, t', m.value, (1000.0 * v).Floor as real, name); }
      case SetParent(s, p) =>
        CountEffect(id, b, c);
        if s != p { GainIs(t, t', API + "set_segment_parent", 0.0, name); }
      case SetParentRoot(_) =>
        CountEffect(id, b, c);
        GainIs(t, t', API + "set_segment_parent_root", 0.0, name);
      case SetTxnTiming(_, _) =>
        CountEffect(id, b, c);
        GainIs(t, t', API + "set_transaction_timing", 0.0, name);
      case EndTxn(_, _) =>
        EndTxnEffect(id, b, c);
        if !b.txn.status.ended { GainIs(t, t', "Supportability/C/NewrelicVersion/1.3.0", 0.0, name); }
      case _ => MetricsStay(id, b, c);
    }
  }

  lemma TimeOfCall(id: TxnId, b: Box, c: Call, name: string)
    requires Inv(id, b) && Legal(b, c) && Closed(b)
    ensures var b' := Apply(id, b, c).box;
            ReportedTime(b'.txn.trace.reports, b'.txn.trace.segs, name)
            == ReportedTime(b.txn.trace.reports, b.txn.trace.segs, name) + EndGain(b, b', c, name)
  {
    hide Apply, Legal, Lasted, Tree;
    var b' := Apply(id, b, c).box;
    var rs, rs' := b.txn.trace.reports, b'.txn.trace.reports;
    ReportsOfCall(id, b, c);
    forall i | 0 <= i < |rs| ensures rs[i].seg < |b.txn.trace.segs| && rs[i].seg < |b'.txn.trace.segs|
                                     && SameTimes(b.txn.trace.segs[rs[i].seg], b'.txn.trace.segs[rs[i].seg]) {
      assert ClosedAt(b, i);
      TimesOfClosed(id, b, c, rs[i].seg);
    }
    TimeStays(rs, b.txn.trace.segs, b'.txn.trace.segs, name);
    if c.EndSegment? {
      OpenHandle(id, b, c);
      if c.via == Some(id) && !b.txn.trace.segs[c.seg].kind.Custom? { assert rs'[..|rs'| - 1] == rs; }
    }
  }

  lemma OpenHandle(id: TxnId, b: Box, c: Call)
    requires Inv(id, b) && Legal(b, c) && c.EndSegment?
    ensures c.seg in b.open && b.open[c.seg].txn == id && c.seg < |b.txn.trace.segs|
    ensures b.txn.trace.segs[c.seg].kind.Custom? <==> b.open[c.seg].payload.NoPayload?
  {
    assert HandleOk(id, b, c.seg);
  }

  // ---------------------------------------------------------------------
  // Every run
  // ---------------------------------------------------------------------

  /** After any legal run the total under any name is how long the ended segments counted under it lasted, all
      together, plus what the client recorded under it; counters of calls add nothing. */
  lemma {:induction false} TotalOfRun(id: TxnId, errEnabled: bool, now: nat, cs: seq<Call>, name: string)
    requires LegalRun(id, Fresh(errEnabled, now), cs)
    ensures var b := Run(id, Fresh(errEnabled, now), cs);
            && Inv(id, b) && Closed(b)
            && Total(b.txn.metrics, name)
            == ReportedTime(b.txn.trace.reports, b.txn.trace.segs, name) + ClientTime(cs, name)
    decreases |cs|
  {
    hide Apply, Inv, Legal, EndGain, Recording;
    if cs == [] {
      FreshInv(id, errEnabled, now);
    } else {
      var front, c := cs[..|cs| - 1], cs[|cs| - 1];
      var b := Run(id, Fresh(errEnabled, now), front);
      TotalOfRun(id, errEnabled, now, front, name);
      ApplyKeepsInv(id, b, c);
      CallKeepsClosed(id, b, c);
      TotalOfCall(id, b, c, name);
      TimeOfCall(id, b, c, name);
      RecordingIs(id, errEnabled, now, front);
    }
  }
}
