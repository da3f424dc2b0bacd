/**
 The axiom transaction in place: the operations the SDK calls on it, written
 as code.  Each is proved to do to the transaction's value what Model says.
 */
module Axiom {
  import opened Common
  import opened SegmentTree
  import opened Metrics
  import opened Naming
  import opened Model

  lemma AboveStep(ss: seq<Seg>, a: SegId, i: SegId)
    ensures Above(ss, a, i) <==> i == a || (i < |ss| && ss[i].parent.Some? && Above(ss, a, ss[i].parent.value))
  {
    if i == a {
      assert Up(ss, i, 0) == Some(a);
    } else if Above(ss, a, i) {
      var n: nat :| Up(ss, i, n) == Some(a);
      assert Up(ss, ss[i].parent.value, n - 1) == Some(a);
    }
    if i < |ss| && ss[i].parent.Some? && Above(ss, a, ss[i].parent.value) {
      var n: nat :| Up(ss, ss[i].parent.value, n) == Some(a);
      assert Up(ss, i, n + 1) == Some(a);
    }
  }

  lemma RecordOne(m: Table, x: Sample)
    ensures RecordAll(m, []) == m && RecordAll(m, [x]) == Record(m, x)
  {
    FoldShort(Record, m, [x]);
  }

  lemma RecordTwo(m: Table, x: Sample, y: Sample)
    ensures RecordAll(m, [x, y]) == Record(Record(m, x), y)
  {
    RecordOne(m, x);
    FoldSnoc(Record, m, [x], y);
    assert [x] + [y] == [x, y];
  }

  /** Follows parent links from p, looking for s.  The distance to the root shrinks with every link. */
  method AncestorWalk(ss: seq<Seg>, s: SegId, p: SegId) returns (found: bool)
    requires Tree(ss) && p < |ss|
    ensures found <==> Above(ss, s, p)
  {
    assert Above(ss, ROOT, p);
    ghost var d: nat :| Up(ss, p, d) == Some(ROOT);
    var cur: SegId := p;
    AboveStep(ss, s, cur);
    while cur != s && ss[cur].parent.Some?
      invariant cur < |ss|
      invariant Up(ss, cur, d) == Some(ROOT)
      invariant Above(ss, s, p) <==> Above(ss, s, cur)
      decreases d
    {
      AboveStep(ss, s, cur);
      cur := ss[cur].parent.value;
      d := d - 1;
    }
    AboveStep(ss, s, cur);
    found := cur == s;
  }

  /** Removes the last occurrence of x, searching from the end. */
  method RemoveLast(xs: seq<SegId>, x: SegId) returns (r: seq<SegId>)
    ensures r == Remove(xs, x)
  {
    var i := |xs|;
    assert xs[..i] == xs && xs[i..] == [];
    while i > 0 && xs[i - 1] != x
      invariant 0 <= i <= |xs|
      invariant Remove(xs, x) == Remove(xs[..i], x) + xs[i..]
    {
      assert xs[..i][..i - 1] == xs[..i - 1];
      i := i - 1;
      assert [xs[i]] + xs[i + 1..] == xs[i..];
    }
    if i == 0 {
      r := xs;
    } else {
      assert xs[..i][..i - 1] == xs[..i - 1];
      r := xs[..i - 1] + xs[i..];
    }
  }

  /** nrtxn_t. */
  class AxiomTxn {
    var segs: seq<Seg>
    var stack: seq<SegId>       // the parent stack
    var reports: seq<Report>
    var status: Status
    var metrics: Table          // unscoped metrics
    var data: Data

    ghost function Value(): Txn
      reads this
    {
      Txn(Trace(segs, stack, reports), status, metrics, data)
    }

    /** nr_txn_begin: a root segment that is the current one. */
    constructor (errEnabled: bool, now: nat)
      ensures Value() == FreshTxn(errEnabled, now)
    {
      segs, stack, reports := [Seg(None, [], Custom, "", now, 0, 0, [])], [ROOT], [];
      status := FreshStatus(errEnabled);
      metrics, data := map[], Data(map[], [], None);
    }

    /** nr_segment_start with no parent given: none when the transaction does not record or the slab is exhausted,
        otherwise a child of the top of the parent stack. */
    method SegmentStart(slab: bool, now: nat) returns (seg: Option<SegId>)
      requires Current(Trace(segs, stack, reports)) < |segs|
      modifies this`segs, this`stack
      ensures seg == if Admits(status, slab) then Some(|old(segs)|) else None
      ensures seg.Some? ==> Trace(segs, stack, reports) == StartSeg(old(Trace(segs, stack, reports)), now)
      ensures seg.None? ==> segs == old(segs) && stack == old(stack)
    {
      if !status.recording || !slab {
        return None;
      }
      var parent := if |stack| == 0 then ROOT else stack[|stack| - 1];
      var s := |segs|;
      segs := segs[parent := segs[parent].(children := segs[parent].children + [s])];
      segs := segs + [NewSeg(parent, Custom, now)];
      stack := stack + [s];
      seg := Some(s);
    }

    method SegmentSetName(s: SegId, name: string)
      requires s < |segs|
      modifies this`segs
      ensures Trace(segs, stack, reports) == SetName(old(Trace(segs, stack, reports)), s, name)
    {
      segs := segs[s := segs[s].(name := name)];
    }

    method SegmentSetType(s: SegId, kind: Kind)
      requires s < |segs|
      modifies this`segs
      ensures Trace(segs, stack, reports) == SetKind(old(Trace(segs, stack, reports)), s, kind)
    {
      segs := segs[s := segs[s].(kind := kind)];
    }

    /** nr_segment_set_parent: refuses to put a segment below itself. */
    method SegmentSetParent(s: SegId, p: SegId) returns (ok: bool)
      requires Tree(segs) && 0 < s < |segs| && p < |segs|
      modifies this`segs
      ensures ok <==> Accepts(old(Trace(segs, stack, reports)), s, p)
      ensures Trace(segs, stack, reports) == Reparent(old(Trace(segs, stack, reports)), s, p)
    {
      if segs[s].parent == Some(p) {
        return true;
      }
      var found := AncestorWalk(segs, s, p);
      ok := !found;
      if ok {
        var q := segs[s].parent.value;
        var rest := RemoveLast(segs[q].children, s);
        segs := segs[q := segs[q].(children := rest)];
        segs := segs[p := segs[p].(children := segs[p].children + [s])];
        segs := segs[s := segs[s].(parent := Some(p))];
      }
    }

    method SegmentSetTiming(s: SegId, start: nat, duration: nat) returns (ok: bool)
      requires s < |segs|
      modifies this`segs
      ensures ok && Trace(segs, stack, reports) == SetSegTiming(old(Trace(segs, stack, reports)), s, start, duration)
    {
      segs := segs[s := segs[s].(start := start, stop := (start + duration) % TIME_LIMIT)];
      ok := true;
    }

    /** nr_segment_end: stamps a segment that has no stop time and takes it off the parent stack. */
    method SegmentEnd(s: SegId, now: nat)
      requires s < |segs|
      modifies this`segs, this`stack
      ensures Trace(segs, stack, reports) == EndSeg(old(Trace(segs, stack, reports)), s, now)
    {
      if segs[s].stop == 0 {
        segs := segs[s := segs[s].(stop := now)];
      }
      segs := segs[s := segs[s].(ends := segs[s].ends + 1)];
      stack := RemoveLast(stack, s);
    }

    method SegmentAddMetric(s: SegId)
      requires s < |segs|
      modifies this`segs
      ensures Trace(segs, stack, reports) == AddSegMetric(old(Trace(segs, stack, reports)), s)
    {
      segs := segs[s := segs[s].(metrics := segs[s].metrics + [segs[s].name])];
    }

    /** The last step of nr_segment_datastore_end and nr_segment_external_end. */
    method SegmentReport(s: SegId, payload: Payload)
      modifies this`reports
      ensures Trace(segs, stack, reports) == AddReport(old(Trace(segs, stack, reports)), s, payload)
    {
      reports := reports + [Report(s, payload)];
    }

    /** nrm_add: find or create the metric, then fold the value in. */
    method AddMetric(name: string, v: real)
      modifies this`metrics
      ensures metrics == Record(old(metrics), Sample(name, v))
    {
      if name !in metrics {
        metrics := metrics[name := Metric(1, v, v, v, v, v * v)];
      } else {
        var m := metrics[name];
        m := m.(count := m.count + 1, total := m.total + v, exclusive := m.exclusive + v, sumsq := m.sumsq + v * v);
        if v < m.min { m := m.(min := v); }
        if v > m.max { m := m.(max := v); }
        metrics := metrics[name := m];
      }
    }
  
    /** nr_txn_add_custom_metric: refuses on a transaction that does not record, and values that are not finite. */
    method AddCustomMetric(name: string, ms: real, finite: bool) returns (ok: bool)
      modifies this`metrics
      ensures ok == Admits(status, finite)
      ensures metrics == if ok then Record(old(metrics), Sample(name, Microseconds(ms))) else old(metrics)
    {
      hide Record, Microseconds;
      if !status.recording || !finite {
        return false;
      }
      AddMetric(name, Microseconds(ms));
      ok := true;
    }

    /** nr_txn_record_error. */
    method RecordError(priority: int, message: string, class_: string)
      modifies this`status
      ensures status == old(status).(error := Some(ErrorRecord(priority, message, class_)))
    {
      status := status.(error := Some(ErrorRecord(priority, message, class_)));
    }

    /** nr_txn_add_user_custom_parameter; axiom decides whether it accepts the attribute. */
    method AddAttribute(key: string, value: Value, accepts: bool) returns (ok: bool)
      modifies this`data
      ensures ok == accepts
      ensures data == if accepts then old(data).(attributes := old(data).attributes[key := value]) else old(data)
    {
      ok := accepts;
      if ok { data := data.(attributes := data.attributes[key := value]); }
    }

    /** nr_txn_record_custom_event: nothing on a transaction that does not record. */
    method RecordEvent(event: EventRecord, accepts: bool)
      modifies this`data
      ensures data == if Admits(status, accepts) then old(data).(events := old(data).events + [event]) else old(data)
    {
      if status.recording && accepts { data := data.(events := data.events + [event]); }
    }

    /** nr_txn_set_timing. */
    method SetTiming(start: nat, duration: nat) returns (ok: bool)
      modifies this`data
      ensures ok && data == old(data).(timing := Some((start, duration)))
    {
      data, ok := data.(timing := Some((start, duration))), true;
    }

    /** nr_txn_ignore. */
    method Ignore() returns (ok: bool)
      modifies this`status
      ensures ok && status == old(status).(ignored := true, recording := false)
    {
      status := status.(ignored := true);
      status := status.(recording := false);
      ok := true;
    }

    /** nr_cmd_txndata_tx: one attempt, whose outcome the daemon decides. */
    method Transmit(sent: bool) returns (ok: bool)
      modifies this`status
      ensures ok == sent && status == old(status).(wire := old(status).wire + [sent])
    {
      status, ok := status.(wire := status.wire + [sent]), sent;
    }

    /** nr_txn_end: marks the transaction complete, stops recording and, unless it is ignored already, runs the naming rules. */
    method End(ruleIgnores: bool)
      modifies this`status
      ensures status == old(status).(ended := true, recording := false, ignored := old(status).ignored || ruleIgnores)
    {
      status := status.(ended := true);
      status := status.(recording := false);
      if !status.ignored && ruleIgnores {
        status := status.(ignored := true);
      }
    }

    /** The rollup metrics of nr_segment_datastore_end and nr_segment_external_end. */
    method AddRollups(s: SegId, payload: Payload)
      requires s < |segs|
      modifies this`metrics
      ensures metrics == RecordAll(old(metrics), Rollups(segs[s].kind, payload, Duration(segs[s]) as real))
    {
      hide Record, ProductName;
      var d := if segs[s].start > segs[s].stop then 0 else segs[s].stop - segs[s].start;
      if segs[s].kind.Datastore? && payload.DatastorePayload? {
        var product := "Datastore/" + ProductName(payload.product) + "/all";
        RecordOne(metrics, Sample(DATASTORE_ALL, d as real));
        RecordTwo(metrics, Sample(DATASTORE_ALL, d as real), Sample(product, d as real));
        AddMetric(DATASTORE_ALL, d as real);
        AddMetric(product, d as real);
      } else if segs[s].kind.External? {
        RecordOne(metrics, Sample(EXTERNAL_ALL, d as real));
        AddMetric(EXTERNAL_ALL, d as real);
      }
    }
  }
}
