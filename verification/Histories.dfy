/**
 What a transaction holds after a history of calls, said about the history alone:
 which error is retained, what was transmitted, what the metric table counts, and
 which explicit times survive.
 */
module Histories {
  import opened Common
  import opened SegmentTree
  import opened Metrics
  import opened Naming
  import opened Model
  import opened Invariants

  // ---------------------------------------------------------------------
  // The part of a transaction that decides errors and transmission
  // ---------------------------------------------------------------------

  function StepStatus(st: Status, c: Call): Status {
    if Eligible(c) then Retain(st, c)
    else if c.Ignore? then st.(recording := false, ignored := true)
    else if c.EndTxn? && !st.ended then Attempt(st, c.ruleIgnores, c.sent)
    else st
  }

  function Statuses(st: Status, cs: seq<Call>): Status
    decreases |cs|
  {
    if cs == [] then st else StepStatus(Statuses(st, cs[..|cs| - 1]), cs[|cs| - 1])
  }

  lemma ApplyStatus(id: TxnId, b: Box, c: Call)
    ensures Apply(id, b, c).box.txn.status == StepStatus(b.txn.status, c)
  {
  }

  /** Errors and transmission depend on the history through these six fields only. */
  lemma {:induction false} StatusOfRun(id: TxnId, b: Box, cs: seq<Call>)
    ensures Run(id, b, cs).txn.status == Statuses(b.txn.status, cs)
    decreases |cs|
  {
    if cs != [] {
      var n := |cs| - 1;
      StatusOfRun(id, b, cs[..n]);
      ApplyStatus(id, Run(id, b, cs[..n]), cs[n]);
    }
  }

  predicate EverIgnored(cs: seq<Call>) {
    exists j :: 0 <= j < |cs| && cs[j].Ignore?
  }

  predicate AnyEnd(cs: seq<Call>) {
    exists k :: 0 <= k < |cs| && cs[k].EndTxn?
  }

  /** Nothing ignored or ended the transaction yet. */
  predicate Recording(cs: seq<Call>) { !EverIgnored(cs) && !AnyEnd(cs) }

  lemma {:induction false} Flags(errEnabled: bool, cs: seq<Call>)
    ensures var st := Statuses(FreshStatus(errEnabled), cs);
            && st.errEnabled == errEnabled
            && (st.recording <==> Recording(cs))
            && (!AnyEnd(cs) ==> (st.ignored <==> EverIgnored(cs)))
            && (st.ended <==> AnyEnd(cs))
    decreases |cs|
  {
    if cs != [] {
      var n := |cs| - 1;
      Flags(errEnabled, cs[..n]);
      assert cs == cs[..n] + [cs[n]];
    }
  }

  // ---------------------------------------------------------------------
  // Errors
  // ---------------------------------------------------------------------

  /** Call k notices a usable error before anything ignored or ended the transaction. */
  ghost predicate Candidate(cs: seq<Call>, k: nat) {
    k < |cs| && Eligible(cs[k]) && Recording(cs[..k])
  }

  ghost predicate Beats(cs: seq<Call>, k: nat, j: nat)
    requires Candidate(cs, k) && Candidate(cs, j)
  {
    cs[j].priority < cs[k].priority || (cs[j].priority == cs[k].priority && j <= k)
  }

  /** Call k is the last of maximum priority among the candidates. */
  ghost predicate LastOfMaximum(cs: seq<Call>, k: nat) {
    Candidate(cs, k) && forall j: nat :: Candidate(cs, j) ==> Beats(cs, k, j)
  }

  lemma CandidateSnoc(cs: seq<Call>, j: nat)
    requires cs != []
    ensures var n := |cs| - 1;
            Candidate(cs, j) <==> Candidate(cs[..n], j) || (j == n && Eligible(cs[n]) && Recording(cs[..n]))
  {
    var n := |cs| - 1;
    if j < n { assert cs[..n][..j] == cs[..j]; }
  }

  /** What retention means for a status reached by a history. */
  ghost predicate RetainsRight(e: Option<ErrorRecord>, cs: seq<Call>, k: nat) {
    && (e.None? <==> forall j: nat :: !Candidate(cs, j))
    && (e.Some? ==> LastOfMaximum(cs, k) && HoldsError(e.value, cs[k]))
  }

  /** The error with the priority, the message and the class the call gave. */
  predicate HoldsError(e: ErrorRecord, c: Call)
    requires c.NoticeError?
  {
    e.priority == c.priority && Some(e.message) == c.message && Some(e.class_) == c.class_
  }

  lemma {:induction false} Retention(cs: seq<Call>) returns (k: nat)
    ensures RetainsRight(Statuses(FreshStatus(true), cs).error, cs, k)
    decreases |cs|
  {
    k := 0;
    if cs != [] {
      var n := |cs| - 1;
      var front, c := cs[..n], cs[n];
      var k' := Retention(front);
      Flags(true, front);
      var st := Statuses(FreshStatus(true), front);
      forall j: nat
        ensures Candidate(cs, j) <==> Candidate(front, j) || (j == n && Eligible(c) && st.recording)
      {
        CandidateSnoc(cs, j);
      }
      if Eligible(c) && st.recording && (st.error.None? || c.priority >= st.error.value.priority) {
        k := n;
        assert Candidate(cs, n);
      } else {
        k := k';
      }
      if st.error.Some? { assert Candidate(front, k') && Candidate(cs, k'); }
      if StepStatus(st, c).error.Some? {
        forall j: nat | Candidate(cs, j) ensures Candidate(cs, k) && Beats(cs, k, j) {
          if Candidate(front, j) { assert Beats(front, k', j); }
        }
      }
    }
  }

  /** With errors enabled the transaction holds the last error of maximum priority among the usable ones
      noticed before the first ignore and the end, and holds none when there is no such call. */
  lemma ErrorRetention(id: TxnId, now: nat, cs: seq<Call>) returns (k: nat)
    ensures var e := Run(id, Fresh(true, now), cs).txn.status.error;
            && (e.None? <==> forall j: nat :: !Candidate(cs, j))
            && (e.Some? ==>
                  && LastOfMaximum(cs, k)
                  && e.value.priority == cs[k].priority
                  && Some(e.value.message) == cs[k].message && Some(e.value.class_) == cs[k].class_)
  {
    StatusOfRun(id, Fresh(true, now), cs);
    k := Retention(cs);
  }

  /** With errors disabled nothing is ever retained. */
  lemma {:induction false} NothingRetained(id: TxnId, now: nat, cs: seq<Call>)
    ensures Run(id, Fresh(false, now), cs).txn.status.error.None? && !Run(id, Fresh(false, now), cs).txn.status.errEnabled
    decreases |cs|
  {
    hide Apply;
    if cs != [] {
      var n := |cs| - 1;
      NothingRetained(id, now, cs[..n]);
      ApplyStatus(id, Run(id, Fresh(false, now), cs[..n]), cs[n]);
    }
  }

  /** The description picks at most one call. */
  lemma RetainedIsUnique(cs: seq<Call>, j: nat, k: nat)
    requires LastOfMaximum(cs, j) && LastOfMaximum(cs, k)
    ensures j == k
  {
    assert Beats(cs, j, k) && Beats(cs, k, j);
  }

  // ---------------------------------------------------------------------
  // Transmission
  // ---------------------------------------------------------------------

  /** Call k is the first end of the transaction. */
  predicate EndsAt(cs: seq<Call>, k: nat) {
    k < |cs| && cs[k].EndTxn? && !AnyEnd(cs[..k])
  }

  /** The end at place k makes no attempt: the client ignored the transaction before, or a naming rule does now. */
  predicate IgnoredAt(cs: seq<Call>, k: nat)
    requires EndsAt(cs, k)
  {
    EverIgnored(cs[..k]) || cs[k].ruleIgnores
  }

  ghost predicate WireRight(w: seq<bool>, cs: seq<Call>) {
    && |w| <= 1
    && (!AnyEnd(cs) ==> w == [])
    && forall k: nat :: EndsAt(cs, k) ==> w == if IgnoredAt(cs, k) then [] else [cs[k].sent]
  }

  lemma {:induction false} Wire(errEnabled: bool, cs: seq<Call>)
    ensures WireRight(Statuses(FreshStatus(errEnabled), cs).wire, cs)
    decreases |cs|
  {
    if cs != [] {
      var n := |cs| - 1;
      var front := cs[..n];
      Wire(errEnabled, front);
      Flags(errEnabled, front);
      assert cs == front + [cs[n]];
      var w := Statuses(FreshStatus(errEnabled), cs).wire;
      if AnyEnd(cs) && !AnyEnd(front) { assert cs[n].EndTxn?; }
      if !AnyEnd(cs) {
        assert !cs[n].EndTxn?;
        forall k | 0 <= k < n ensures !front[k].EndTxn? { assert front[k] == cs[k]; }
        assert !AnyEnd(front);
      }
      forall k: nat | EndsAt(cs, k) ensures w == if IgnoredAt(cs, k) then [] else [cs[k].sent] {
        if k < n {
          assert front[..k] == cs[..k];
          assert EndsAt(front, k) && front[k].EndTxn?;
        } else {
          assert cs[..k] == front;
        }
      }
    }
  }

  /** At most one attempt in any run: none before the end, none where the client ignored the transaction before
      or a naming rule ignores it at its end, and exactly the one made by the first end otherwise. */
  lemma TransmittedOnce(id: TxnId, errEnabled: bool, now: nat, cs: seq<Call>)
    ensures var w := Run(id, Fresh(errEnabled, now), cs).txn.status.wire;
            && |w| <= 1
            && (!AnyEnd(cs) ==> w == [])
            && forall k: nat :: EndsAt(cs, k) ==> w == if IgnoredAt(cs, k) then [] else [cs[k].sent]
  {
    StatusOfRun(id, Fresh(errEnabled, now), cs);
    Wire(errEnabled, cs);
  }

  /** On a live handle end_transaction returns false exactly when an attempt was made and failed. */
  lemma EndReturnsFalseIff(id: TxnId, errEnabled: bool, now: nat, cs: seq<Call>, ruleIgnores: bool, sent: bool)
    requires !AnyEnd(cs)
    ensures var r := Apply(id, Run(id, Fresh(errEnabled, now), cs), EndTxn(ruleIgnores, sent));
            && (r.ret == Bool(false) <==> r.box.txn.status.wire == [false])
            && (r.ret == Bool(false) <==> !EverIgnored(cs) && !ruleIgnores && !sent)
  {
    hide Run;
    var b := Run(id, Fresh(errEnabled, now), cs);
    StatusOfRun(id, Fresh(errEnabled, now), cs);
    Flags(errEnabled, cs);
    Wire(errEnabled, cs);
    var c := EndTxn(ruleIgnores, sent);
    ApplyStatus(id, b, c);
    assert b.txn.status.wire == [] && [] + [sent] == [sent];
    assert [sent][0] == sent && [false][0] == false;
  }

  // ---------------------------------------------------------------------
  // Metrics
  // ---------------------------------------------------------------------

  /** What one call adds to the metric table; for a reparent the handles decide, never the outcome. */
  function SamplesOfCall(b: Box, c: Call): seq<Sample> {
    match c
    case SetParent(s, p) => if s == p then [] else [Sample(ApiMetric(SET_PARENT), 0.0)]
    case SetParentRoot(_) => [Sample(ApiMetric(SET_PARENT_ROOT), 0.0)]
    case SetTxnTiming(_, _) => [Sample(ApiMetric(SET_TXN_TIMING), 0.0)]
    case RecordMetric(m, v, ok) => if m.Some? && Admits(b.txn.status, ok) then [Sample(m.value, Microseconds(v))] else []
    case EndTxn(_, _) => if b.txn.status.ended then [] else [Sample(VERSION_METRIC, 0.0)]
    case EndSegment(s, via, now) =>
      if s in b.open && via == Some(b.open[s].txn) then
        EndSamples(EndRoutine(b.txn.trace, b.open[s].seg, b.open[s], now), b.open[s].seg, b.open[s])
      else []
    case _ => []
  }

  /** Everything a run records, in order. */
  ghost function SamplesOf(id: TxnId, b: Box, cs: seq<Call>): seq<Sample>
    decreases |cs|
  {
    if cs == [] then []
    else SamplesOf(id, b, cs[..|cs| - 1]) + SamplesOfCall(Run(id, b, cs[..|cs| - 1]), cs[|cs| - 1])
  }

  lemma ApplyRecordsSamples(id: TxnId, b: Box, c: Call)
    ensures Apply(id, b, c).box.txn.metrics == RecordAll(b.txn.metrics, SamplesOfCall(b, c))
  {
    hide EndSamples, EndRoutine, Microseconds;
    var add := SamplesOfCall(b, c);
    if |add| <= 1 { FoldShort(Record, b.txn.metrics, add); }
    match c {
      case StartCustom(_, _, _, _) =>
      case StartDatastore(_, _, _) =>
      case StartExternal(_, _, _) =>
      case EndSegment(_, _, _) =>
        assert RecordAll(b.txn.metrics, []) == b.txn.metrics;
      case _ =>
    }
  }

  /** After any run the table is the fold of everything the calls recorded: counters of the calls that passed their
      argument checks, accepted custom metrics, and the rollups of ended datastore and external segments. */
  lemma {:induction false} MetricsOfRun(id: TxnId, b: Box, cs: seq<Call>)
    ensures Run(id, b, cs).txn.metrics == RecordAll(b.txn.metrics, SamplesOf(id, b, cs))
    decreases |cs|
  {
    hide SamplesOfCall, Apply;
    if cs != [] {
      var n := |cs| - 1;
      MetricsOfRun(id, b, cs[..n]);
      var b' := Run(id, b, cs[..n]);
      ApplyRecordsSamples(id, b', cs[n]);
      FoldConcat(Record, b.txn.metrics, SamplesOf(id, b, cs[..n]), SamplesOfCall(b', cs[n]));
    }
  }

  /** Two runs that record the same multiset of samples have the same table, in whatever order they did it. */
  lemma MetricsIgnoreOrder(id: TxnId, b: Box, cs: seq<Call>, ds: seq<Call>)
    requires multiset(SamplesOf(id, b, cs)) == multiset(SamplesOf(id, b, ds))
    ensures Run(id, b, cs).txn.metrics == Run(id, b, ds).txn.metrics
  {
    hide SamplesOf, Run;
    MetricsOfRun(id, b, cs);
    MetricsOfRun(id, b, ds);
    TableIgnoresOrder(b.txn.metrics, SamplesOf(id, b, cs), SamplesOf(id, b, ds));
  }

  /** The supportability counter of a call that passes its argument checks. */
  function Counter(c: Call): Option<string> {
    match c
    case SetParent(s, p) => if s == p then None else Some(SET_PARENT)
    case SetParentRoot(_) => Some(SET_PARENT_ROOT)
    case SetTxnTiming(_, _) => Some(SET_TXN_TIMING)
    case _ => None
  }

  function CountedCalls(cs: seq<Call>, api: string): nat
    decreases |cs|
  {
    if cs == [] then 0 else CountedCalls(cs[..|cs| - 1], api) + if Counter(cs[|cs| - 1]) == Some(api) then 1 else 0
  }

  /** Custom metrics accepted under a name: axiom takes none once the transaction is ignored or ended. */
  function CustomRecords(cs: seq<Call>, name: string): nat
    decreases |cs|
  {
    if cs == [] then 0
    else
      var c := cs[|cs| - 1];
      CustomRecords(cs[..|cs| - 1], name)
      + if c.RecordMetric? && c.metric == Some(name) && c.ok && Recording(cs[..|cs| - 1]) then 1 else 0
  }

  lemma {:induction false} ValuesConcat(name: string, xs: seq<Sample>, ys: seq<Sample>)
    ensures ValuesFor(name, xs + ys) == ValuesFor(name, xs) + ValuesFor(name, ys)
    decreases |ys|
  {
    if ys == [] {
      assert xs + ys == xs;
    } else {
      var n := |ys| - 1;
      ValuesConcat(name, xs, ys[..n]);
      assert (xs + ys)[..|xs| + n] == xs + ys[..n];
    }
  }

  lemma ApiMetricInjective(a: string, b: string)
    ensures ApiMetric(a) == ApiMetric(b) <==> a == b
    ensures ApiMetric(a) != VERSION_METRIC && ApiMetric(a) != "" && ApiMetric(a)[0] == 'S'
  {
    var n := |"Supportability/C/api/"|;
    assert ApiMetric(a)[n..] == a && ApiMetric(b)[n..] == b;
    assert ApiMetric(a)[17] == 'a' && VERSION_METRIC[17] == 'N';
  }

  lemma OneValue(name: string, x: Sample)
    ensures ValuesFor(name, []) == []
    ensures ValuesFor(name, [x]) == if x.name == name then [x.value] else []
  {
    assert [x][..0] == [];
  }

  lemma TwoValues(name: string, x: Sample, y: Sample)
    ensures ValuesFor(name, [x, y]) == ValuesFor(name, [x]) + ValuesFor(name, [y])
  {
    assert [x, y] == [x] + [y];
    ValuesConcat(name, [x], [y]);
  }

  /** How often the rollups of one end bear a name. */
  lemma RollupValues(name: string, k: Kind, p: Payload, d: real)
    ensures name != "" && name[0] == 'S' ==> ValuesFor(name, Rollups(k, p, d)) == []
    ensures name == DATASTORE_ALL ==> |ValuesFor(name, Rollups(k, p, d))| == if k.Datastore? && p.DatastorePayload? then 1 else 0
    ensures name == EXTERNAL_ALL ==> |ValuesFor(name, Rollups(k, p, d))| == if k.External? then 1 else 0
  {
    hide ProductName;
    OneValue(name, Sample("", 0.0));
    if k.Datastore? && p.DatastorePayload? {
      var product := "Datastore/" + ProductName(p.product) + "/all";
      assert product[0] == 'D' && |product| > |DATASTORE_ALL| && DATASTORE_ALL[0] == 'D' && EXTERNAL_ALL[0] == 'E';
      OneValue(name, Sample(DATASTORE_ALL, d));
      OneValue(name, Sample(product, d));
      TwoValues(name, Sample(DATASTORE_ALL, d), Sample(product, d));
    } else if k.External? {
      assert EXTERNAL_ALL[0] == 'E';
      OneValue(name, Sample(EXTERNAL_ALL, d));
    }
  }

  lemma CounterValuesOfCall(b: Box, c: Call, api: string)
    ensures |ValuesFor(ApiMetric(api), SamplesOfCall(b, c))|
         == (if Counter(c) == Some(api) then 1 else 0)
            + if c.RecordMetric? && c.metric == Some(ApiMetric(api)) && Admits(b.txn.status, c.ok) then 1 else 0
  {
    hide ApiMetric, Rollups, EndRoutine, Microseconds;
    var name := ApiMetric(api);
    ApiMetricInjective(SET_PARENT, api);
    ApiMetricInjective(SET_PARENT_ROOT, api);
    ApiMetricInjective(SET_TXN_TIMING, api);
    ApiMetricInjective(api, api);
    OneValue(name, Sample("", 0.0));
    if c.EndSegment? {
      if c.seg in b.open {
        var w := b.open[c.seg];
        var t := EndRoutine(b.txn.trace, w.seg, w, c.now);
        if w.seg < |t.segs| { RollupValues(name, t.segs[w.seg].kind, w.payload, Duration(t.segs[w.seg]) as real); }
      }
    } else {
      var add := SamplesOfCall(b, c);
      if add != [] { assert add == [add[0]]; OneValue(name, add[0]); }
    }
  }

  lemma RecordingIs(id: TxnId, errEnabled: bool, now: nat, cs: seq<Call>)
    ensures Run(id, Fresh(errEnabled, now), cs).txn.status.recording <==> Recording(cs)
  {
    hide Run;
    StatusOfRun(id, Fresh(errEnabled, now), cs);
    Flags(errEnabled, cs);
  }

  lemma {:induction false} CounterValues(id: TxnId, errEnabled: bool, now: nat, cs: seq<Call>, api: string)
    ensures |ValuesFor(ApiMetric(api), SamplesOf(id, Fresh(errEnabled, now), cs))|
         == CountedCalls(cs, api) + CustomRecords(cs, ApiMetric(api))
    decreases |cs|
  {
    hide ApiMetric, SamplesOfCall, Run, Fresh, Recording;
    if cs != [] {
      var n, b := |cs| - 1, Fresh(errEnabled, now);
      CounterValues(id, errEnabled, now, cs[..n], api);
      CounterValuesOfCall(Run(id, b, cs[..n]), cs[n], api);
      RecordingIs(id, errEnabled, now, cs[..n]);
      ValuesConcat(ApiMetric(api), SamplesOf(id, b, cs[..n]), SamplesOfCall(Run(id, b, cs[..n]), cs[n]));
    }
  }

  /** The count of an entry after a run on a fresh transaction. */
  ghost function CountOf(id: TxnId, errEnabled: bool, now: nat, cs: seq<Call>, name: string): nat {
    var m := Get(Run(id, Fresh(errEnabled, now), cs).txn.metrics, name);
    if m.Some? then m.value.count else 0
  }

  lemma CountIsValues(id: TxnId, errEnabled: bool, now: nat, cs: seq<Call>, name: string)
    ensures CountOf(id, errEnabled, now, cs, name) == |ValuesFor(name, SamplesOf(id, Fresh(errEnabled, now), cs))|
  {
    hide SamplesOf, Run;
    var b := Fresh(errEnabled, now);
    MetricsOfRun(id, b, cs);
    TableSplitsByName(SamplesOf(id, b, cs), name);
    var vs := ValuesFor(name, SamplesOf(id, b, cs));
    if vs != [] { AggregateMeaning(vs); }
  }

  /** Every supportability counter counts the calls that passed their argument checks, refused reparents
      included, and beside them only what the client records under the counter's own name. */
  lemma ApiCounters(id: TxnId, errEnabled: bool, now: nat, cs: seq<Call>, api: string)
    ensures CountOf(id, errEnabled, now, cs, ApiMetric(api)) == CountedCalls(cs, api) + CustomRecords(cs, ApiMetric(api))
  {
    hide ApiMetric, SamplesOf, CountOf;
    CountIsValues(id, errEnabled, now, cs, ApiMetric(api));
    CounterValues(id, errEnabled, now, cs, api);
  }

  // -- rollups --

  function ReportsOf(rs: seq<Report>, datastore: bool): nat {
    if rs == [] then 0
    else
      var p := rs[|rs| - 1].payload;
      ReportsOf(rs[..|rs| - 1], datastore) + if (if datastore then p.DatastorePayload? else p.ExternalPayload?) then 1 else 0
  }

  function RollupName(datastore: bool): string { if datastore then DATASTORE_ALL else EXTERNAL_ALL }

  lemma RollupValuesOfCall(id: TxnId, b: Box, c: Call, datastore: bool)
    requires Inv(id, b) && Legal(b, c)
    ensures ReportsOf(Apply(id, b, c).box.txn.trace.reports, datastore)
            + (if c.RecordMetric? && c.metric == Some(RollupName(datastore)) && Admits(b.txn.status, c.ok) then 1 else 0)
         == ReportsOf(b.txn.trace.reports, datastore) + |ValuesFor(RollupName(datastore), SamplesOfCall(b, c))|
  {
    hide ApiMetric, Rollups, Microseconds, Tree;
    var name := RollupName(datastore);
    OneValue(name, Sample("", 0.0));
    if c.EndSegment? {
      RollupValuesOfEnd(id, b, c, datastore);
    } else {
      assert Apply(id, b, c).box.txn.trace.reports == b.txn.trace.reports by { OthersReportNothing(id, b, c); }
      var add := SamplesOfCall(b, c);
      ApiMetricInjective(SET_PARENT, SET_PARENT);
      ApiMetricInjective(SET_PARENT_ROOT, SET_PARENT_ROOT);
      ApiMetricInjective(SET_TXN_TIMING, SET_TXN_TIMING);
      assert VERSION_METRIC[0] == 'S' && name[0] != 'S';
      if add != [] { assert add == [add[0]]; OneValue(name, add[0]); }
    }
  }

  lemma OthersReportNothing(id: TxnId, b: Box, c: Call)
    requires !c.EndSegment?
    ensures Apply(id, b, c).box.txn.trace.reports == b.txn.trace.reports
  {
  }

  lemma RollupValuesOfEnd(id: TxnId, b: Box, c: Call, datastore: bool)
    requires Inv(id, b) && Legal(b, c) && c.EndSegment?
    ensures ReportsOf(Apply(id, b, c).box.txn.trace.reports, datastore)
         == ReportsOf(b.txn.trace.reports, datastore) + |ValuesFor(RollupName(datastore), SamplesOfCall(b, c))|
  {
    hide Rollups, Tree;
    var name, w := RollupName(datastore), b.open[c.seg];
    OneValue(name, Sample("", 0.0));
    assert HandleOk(id, b, c.seg);
    EndRunsOnce(id, b, c.seg, c.via, c.now);
    if c.via == Some(id) {
      var t := EndRoutine(b.txn.trace, c.seg, w, c.now);
      assert t.segs[c.seg].kind == b.txn.trace.segs[c.seg].kind;
      RollupValues(name, t.segs[c.seg].kind, w.payload, Duration(t.segs[c.seg]) as real);
      var rs := b.txn.trace.reports;
      assert (rs + [Report(c.seg, w.payload)])[..|rs|] == rs;
    }
  }

  lemma {:induction false} RollupValuesOfRun(id: TxnId, errEnabled: bool, now: nat, cs: seq<Call>, datastore: bool)
    requires LegalRun(id, Fresh(errEnabled, now), cs)
    ensures Inv(id, Run(id, Fresh(errEnabled, now), cs))
    ensures ReportsOf(Run(id, Fresh(errEnabled, now), cs).txn.trace.reports, datastore) + CustomRecords(cs, RollupName(datastore))
         == |ValuesFor(RollupName(datastore), SamplesOf(id, Fresh(errEnabled, now), cs))|
    decreases |cs|
  {
    hide Inv, Legal, Apply, SamplesOfCall, RollupName, Recording;
    var b := Fresh(errEnabled, now);
    if cs == [] {
      FreshInv(id, errEnabled, now);
    } else {
      var n := |cs| - 1;
      var b' := Run(id, b, cs[..n]);
      RollupValuesOfRun(id, errEnabled, now, cs[..n], datastore);
      ApplyKeepsInv(id, b', cs[n]);
      RollupValuesOfCall(id, b', cs[n], datastore);
      RecordingIs(id, errEnabled, now, cs[..n]);
      ValuesConcat(RollupName(datastore), SamplesOf(id, b, cs[..n]), SamplesOfCall(b', cs[n]));
    }
  }

  /** Datastore/all and External/all count the segments of their type that were ended on their own transaction,
      and beside them only what the client records under that name. */
  lemma RollupCounters(id: TxnId, errEnabled: bool, now: nat, cs: seq<Call>, datastore: bool)
    requires LegalRun(id, Fresh(errEnabled, now), cs)
    ensures CountOf(id, errEnabled, now, cs, RollupName(datastore))
         == ReportsOf(Run(id, Fresh(errEnabled, now), cs).txn.trace.reports, datastore) + CustomRecords(cs, RollupName(datastore))
  {
    hide SamplesOf, CountOf, Run, LegalRun, Inv, RollupName;
    CountIsValues(id, errEnabled, now, cs, RollupName(datastore));
    RollupValuesOfRun(id, errEnabled, now, cs, datastore);
  }

  // ---------------------------------------------------------------------
  // Starting segments
  // ---------------------------------------------------------------------

  /** On a live transaction a start with usable parameters, for which axiom has memory, fails if and
      only if the client has ignored the transaction: a custom start then dereferences NULL, the others return NULL.
      Otherwise it returns the next handle. */
  lemma StartFailsIff(id: TxnId, errEnabled: bool, now: nat, cs: seq<Call>, c: Call)
    requires !AnyEnd(cs) && Startable(c)
    ensures var b := Run(id, Fresh(errEnabled, now), cs);
            var r := Apply(id, b, c);
            && (r.ret == (if c.StartCustom? then Crash else Handle(None)) <==> EverIgnored(cs))
            && (r.ret == Handle(Some(|b.txn.trace.segs|)) <==> !EverIgnored(cs))
            && (EverIgnored(cs) ==> r.box == b)
  {
    hide Run;
    RecordingIs(id, errEnabled, now, cs);
  }

  /** The shortest such run. */
  lemma StartAfterIgnoreCrashes(id: TxnId, name: Option<string>, category: Option<string>, now: nat)
    ensures LegalRun(id, Fresh(true, now), [Ignore])
    ensures var b := Run(id, Fresh(true, now), [Ignore]);
            Legal(b, StartCustom(name, category, true, now)) && Apply(id, b, StartCustom(name, category, true, now)).ret == Crash
  {
    var b := Fresh(true, now);
    assert [Call.Ignore][..0] == [];
    assert Run(id, b, []) == b && LegalRun(id, b, []);
    assert Run(id, b, [Ignore]) == Apply(id, b, Ignore).box;
  }

  // ---------------------------------------------------------------------
  // Attributes and the timing of the transaction: the last write wins
  // ---------------------------------------------------------------------

  predicate WritesAttribute(c: Call, key: string) { c.AddAttribute? && c.key == Some(key) && c.value.Some? && c.ok }

  /** Call i is the last accepted write of the attribute. */
  ghost predicate LastAttribute(cs: seq<Call>, key: string, i: nat) {
    i < |cs| && WritesAttribute(cs[i], key) && forall j :: i < j < |cs| ==> !WritesAttribute(cs[j], key)
  }

  lemma LastAttributeSnoc(cs: seq<Call>, c: Call, key: string, i: nat)
    ensures LastAttribute(cs + [c], key, i) <==> if WritesAttribute(c, key) then i == |cs| else i < |cs| && LastAttribute(cs, key, i)
  {
    if i < |cs| && LastAttribute(cs + [c], key, i) {
      assert !WritesAttribute((cs + [c])[|cs|], key);
      forall j | i < j < |cs| ensures !WritesAttribute(cs[j], key) { assert (cs + [c])[j] == cs[j]; }
    }
  }

  lemma AttributesOfCall(id: TxnId, b: Box, c: Call, key: string)
    ensures var a, a' := b.txn.data.attributes, Apply(id, b, c).box.txn.data.attributes;
            Get(a', key) == if WritesAttribute(c, key) then c.value else Get(a, key)
  {
  }

  /** After any run an attribute has the value of its last accepted write, and is there exactly if there was one. */
  lemma {:induction false} AttributesLastWrite(id: TxnId, errEnabled: bool, now: nat, cs: seq<Call>, key: string)
    ensures var a := Run(id, Fresh(errEnabled, now), cs).txn.data.attributes;
            && (key in a <==> exists i: nat :: LastAttribute(cs, key, i))
            && (forall i: nat :: LastAttribute(cs, key, i) ==> key in a && Some(a[key]) == cs[i].value)
    decreases |cs|
  {
    hide Apply, WritesAttribute;
    if cs != [] {
      var n := |cs| - 1;
      var front, c := cs[..n], cs[n];
      AttributesLastWrite(id, errEnabled, now, front, key);
      AttributesOfCall(id, Run(id, Fresh(errEnabled, now), front), c, key);
      assert cs == front + [c];
      forall i: nat ensures LastAttribute(cs, key, i) <==> if WritesAttribute(c, key) then i == n else i < n && LastAttribute(front, key, i) {
        LastAttributeSnoc(front, c, key, i);
      }
      if WritesAttribute(c, key) {
        assert LastAttribute(cs, key, n);
        assert c.value.Some? by { WriteHasValue(c, key); }
      } else if i: nat :| LastAttribute(front, key, i) {
        assert LastAttribute(cs, key, i);
      }
    }
  }

  lemma WriteHasValue(c: Call, key: string)
    requires WritesAttribute(c, key)
    ensures c.AddAttribute? && c.value.Some?
  {
  }

  /** Call i is the last that times the transaction. */
  ghost predicate LastTxnTiming(cs: seq<Call>, i: nat) {
    i < |cs| && cs[i].SetTxnTiming? && forall j :: i < j < |cs| ==> !cs[j].SetTxnTiming?
  }

  lemma TimingOfCall(id: TxnId, b: Box, c: Call)
    ensures Apply(id, b, c).box.txn.data.timing == if c.SetTxnTiming? then Some((c.start, c.duration)) else b.txn.data.timing
  {
  }

  /** After any run the transaction has the timing of the last call that timed it, and none if there was none. */
  lemma {:induction false} TxnTimingIsLast(id: TxnId, errEnabled: bool, now: nat, cs: seq<Call>)
    ensures var timing := Run(id, Fresh(errEnabled, now), cs).txn.data.timing;
            && (timing.None? <==> forall i :: 0 <= i < |cs| ==> !cs[i].SetTxnTiming?)
            && (forall i: nat :: LastTxnTiming(cs, i) ==> timing == Some((cs[i].start, cs[i].duration)))
    decreases |cs|
  {
    hide Apply;
    if cs != [] {
      var n := |cs| - 1;
      var front := cs[..n];
      TxnTimingIsLast(id, errEnabled, now, front);
      TimingOfCall(id, Run(id, Fresh(errEnabled, now), front), cs[n]);
      forall i: nat | LastTxnTiming(cs, i) ensures if cs[n].SetTxnTiming? then i == n else LastTxnTiming(front, i) {
        if i < n { assert !cs[n].SetTxnTiming?; }
      }
      if cs[n].SetTxnTiming? {
        assert !(forall i :: 0 <= i < |cs| ==> !cs[i].SetTxnTiming?);
      } else {
        assert forall i :: 0 <= i < n ==> front[i] == cs[i];
      }
    }
  }

  // ---------------------------------------------------------------------
  // Explicit times
  // ---------------------------------------------------------------------

  ghost predicate NoTimingOf(s: SegId, cs: seq<Call>) {
    forall k :: 0 <= k < |cs| ==> !(cs[k].SetTiming? && cs[k].seg == s)
  }

  ghost predicate HasTimes(b: Box, s: SegId, start: nat, stop: nat) {
    s < |b.txn.trace.segs| && b.txn.trace.segs[s].start == start && b.txn.trace.segs[s].stop == stop
  }

  lemma ApplyKeepsTimes(id: TxnId, b: Box, c: Call, s: SegId, start: nat, stop: nat)
    requires HasTimes(b, s, start, stop) && stop != 0
    requires !(c.SetTiming? && c.seg == s)
    ensures HasTimes(Apply(id, b, c).box, s, start, stop)
  {
    match c {
      case SetParent(x, p) => LinkKeepsTimes(b.txn.trace, x, p, s);
      case SetParentRoot(x) => LinkKeepsTimes(b.txn.trace, x, ROOT, s);
      case EndSegment(_, _, _) => EndKeepsTimes(b, c, s);
      case StartCustom(_, _, _, _) =>
      case StartDatastore(_, _, _) =>
      case StartExternal(_, _, _) =>
      case _ =>
    }
  }

  lemma EndKeepsTimes(b: Box, c: Call, s: SegId)
    requires c.EndSegment? && s < |b.txn.trace.segs| && b.txn.trace.segs[s].stop != 0
    ensures HasTimes(ApplyEndSegment(b, c).box, s, b.txn.trace.segs[s].start, b.txn.trace.segs[s].stop)
  {
  }

  lemma LinkKeepsTimes(t: Trace, x: SegId, p: SegId, s: SegId)
    requires s < |t.segs|
    ensures var t' := Reparent(t, x, p);
            |t'.segs| == |t.segs| && t'.segs[s].start == t.segs[s].start && t'.segs[s].stop == t.segs[s].stop
  {
  }

  /** Explicit times with a non-zero stop survive every later call except another timing of the same segment. */
  lemma {:induction false} TimesSurvive(id: TxnId, b: Box, s: SegId, start: nat, duration: nat, cs: seq<Call>)
    requires s < |b.txn.trace.segs| && NoTimingOf(s, cs)
    requires (start + duration) % TIME_LIMIT != 0
    ensures HasTimes(Run(id, Apply(id, b, SetTiming(s, start, duration)).box, cs), s, start, (start + duration) % TIME_LIMIT)
    decreases |cs|
  {
    if cs != [] {
      var n := |cs| - 1;
      assert forall k :: 0 <= k < n ==> cs[..n][k] == cs[k];
      TimesSurvive(id, b, s, start, duration, cs[..n]);
      var b' := Apply(id, b, SetTiming(s, start, duration)).box;
      ApplyKeepsTimes(id, Run(id, b', cs[..n]), cs[n], s, start, (start + duration) % TIME_LIMIT);
    }
  }

  /** A positive duration and a sum that fits are enough, and then the stop is the plain sum. */
  lemma ExplicitTimesKept(id: TxnId, b: Box, s: SegId, start: nat, duration: nat, cs: seq<Call>)
    requires s < |b.txn.trace.segs| && NoTimingOf(s, cs)
    requires duration > 0 && start + duration < TIME_LIMIT
    ensures HasTimes(Run(id, Apply(id, b, SetTiming(s, start, duration)).box, cs), s, start, start + duration)
  {
    TimesSurvive(id, b, s, start, duration, cs);
  }

  /** The exact condition: ending keeps the explicit stop if and only if that stop is not zero (modulo 2^64)
      or the clock happens to read zero too. */
  lemma ExplicitStopKeptIff(id: TxnId, b: Box, s: SegId, start: nat, duration: nat, now: nat)
    requires Inv(id, b) && Legal(b, SetTiming(s, start, duration))
    ensures var b1 := Apply(id, b, SetTiming(s, start, duration)).box;
            var g := Apply(id, b1, EndSegment(s, Some(id), now)).box.txn.trace.segs[s];
            && g.start == start
            && (g.stop == (start + duration) % TIME_LIMIT <==> (start + duration) % TIME_LIMIT != 0 || now == 0)
  {
    assert HandleOk(id, b, s) && SegOk(b.txn.trace, s);
  }

  /** A zero-length timing at the start of the transaction is the simplest one that is lost. */
  lemma ZeroTimingIsLost(id: TxnId, now: nat)
    requires now > 0
    ensures var b := Run(id, Fresh(true, 0), [StartCustom(None, None, true, 5), SetTiming(1, 0, 0), EndSegment(1, Some(id), now)]);
            |b.txn.trace.segs| == 2 && b.txn.trace.segs[1].stop == now
  {
    var c0, c1, c2 := StartCustom(None, None, true, 5), SetTiming(1, 0, 0), EndSegment(1, Some(id), now);
    var b0 := Fresh(true, 0);
    var b1 := Apply(id, b0, c0).box;
    var b2 := Apply(id, b1, c1).box;
    assert [c0, c1, c2][..2] == [c0, c1] && [c0, c1][..1] == [c0] && [c0][..0] == [];
    assert Run(id, b0, []) == b0 && Run(id, b0, [c0]) == b1;
    assert Run(id, b0, [c0, c1]) == b2;
    assert 1 in b2.open && b2.txn.trace.segs[1].stop == 0 && SegKind(b2.txn.trace, 1) == Custom;
  }
}
