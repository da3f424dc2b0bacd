/**
 One transaction and the segment handles the client holds on it, as a value,
 and what each API call does to them.  Outcomes that axiom, the clock or the
 daemon decide are fields of the call.
 */
module Model {
  import opened Common
  import opened SegmentTree
  import opened Metrics
  import opened Naming

  type TxnId = nat

  const TIME_LIMIT: nat := 0x1_0000_0000_0000_0000  // newrelic_time_us_t is 64 bits wide
  const VERSION := "1.3.0"
  const VERSION_METRIC := "Supportability/C/NewrelicVersion/" + VERSION
  const DATASTORE_ALL := "Datastore/all"
  const EXTERNAL_ALL := "External/all"
  const SET_PARENT := "set_segment_parent"
  const SET_PARENT_ROOT := "set_segment_parent_root"
  const SET_TXN_TIMING := "set_transaction_timing"

  datatype Value = IntValue(i: int) | LongValue(l: int) | DoubleValue(d: real) | StringValue(s: string)

  datatype DatastoreParams = DatastoreParams(
    product: Option<string>, collection: Option<string>, operation: Option<string>, host: Option<string>,
    port: Option<string>, database: Option<string>, query: Option<string>)

  datatype ExternalParams = ExternalParams(uri: Option<string>, library: Option<string>, procedure: Option<string>)

  /** The typed part of a wrapper: the union in newrelic_segment_t. */
  datatype Payload =
    | NoPayload
    | DatastorePayload(product: string, collection: string, operation: string, host: string, port: string,
                       database: string, query: Option<string>)
    | ExternalPayload(uri: string, library: Option<string>, procedure: Option<string>)

  /** newrelic_segment_t: the axiom segment, its transaction, whether txn_lock is set, and the union. */
  datatype Wrapper = Wrapper(seg: SegId, txn: TxnId, locked: bool, payload: Payload)

  datatype ErrorRecord = ErrorRecord(priority: int, message: string, class_: string)
  datatype EventRecord = EventRecord(type_: string, attributes: map<string, Value>)
  datatype Report = Report(seg: SegId, payload: Payload)

  /** The segments, the parent stack, and what ended datastore and external segments reported. */
  datatype Trace = Trace(segs: seq<Seg>, stack: seq<SegId>, reports: seq<Report>)

  /** What decides errors and transmission.  `wire` has one entry per attempt: did it succeed. */
  datatype Status = Status(errEnabled: bool, recording: bool, ignored: bool, ended: bool,
                           error: Option<ErrorRecord>, wire: seq<bool>)

  datatype Data = Data(attributes: map<string, Value>, events: seq<EventRecord>, timing: Option<(nat, nat)>)

  /** The axiom transaction. */
  datatype Txn = Txn(trace: Trace, status: Status, metrics: Table, data: Data)

  /** A transaction with its open segment handles. */
  datatype Box = Box(txn: Txn, open: map<SegId, Wrapper>)

  datatype Call =
    | StartCustom(name: Option<string>, category: Option<string>, ok: bool, now: nat)
    | StartDatastore(ds: Option<DatastoreParams>, ok: bool, now: nat)
    | StartExternal(ext: Option<ExternalParams>, ok: bool, now: nat)
    | SetParent(seg: SegId, par: SegId)
    | SetParentRoot(seg: SegId)
    | SetTiming(seg: SegId, start: nat, duration: nat)
    | EndSegment(seg: SegId, via: Option<TxnId>, now: nat)
    | NoticeError(priority: int, message: Option<string>, class_: Option<string>)
    | AddAttribute(key: Option<string>, value: Option<Value>, ok: bool)
    | RecordMetric(metric: Option<string>, sample: real, ok: bool)
    | RecordEvent(event: nat, record: EventRecord, ok: bool)
    | SetTxnTiming(start: nat, duration: nat)
    | Ignore
    | EndTxn(ruleIgnores: bool, sent: bool)

  datatype Ret = Void | Bool(b: bool) | Handle(h: Option<SegId>) | Crash

  datatype Result = Result(box: Box, ret: Ret)

  // ---------------------------------------------------------------------
  // Parameters become payloads
  // ---------------------------------------------------------------------

  predicate ValidDatastore(p: Option<DatastoreParams>) {
    && p.Some? && p.value.product.Some?
    && ValidParam(p.value.product) && ValidParam(p.value.collection)
    && ValidParam(p.value.operation) && ValidParam(p.value.host)
  }

  predicate ValidExternal(p: Option<ExternalParams>) {
    p.Some? && ValidParam(p.value.library) && ValidParam(p.value.procedure) && p.value.uri.Some?
  }

  /** The fields of the datastore instance: missing or empty becomes "unknown". */
  function OrUnknown(text: Option<string>): string {
    if text.None? || text.value == "" then "unknown" else text.value
  }

  function DatastoreOf(p: DatastoreParams): Payload
    requires p.product.Some?
  {
    DatastorePayload(if p.product.value == "" then "Other" else p.product.value,
                     p.collection.GetOr("other"), p.operation.GetOr("other"),
                     OrUnknown(p.host), OrUnknown(p.port), OrUnknown(p.database), p.query)
  }

  function ExternalOf(p: ExternalParams): Payload
    requires p.uri.Some?
  {
    ExternalPayload(p.uri.value, p.library, p.procedure)
  }

  // ---------------------------------------------------------------------
  // What the axiom library does to a transaction
  // ---------------------------------------------------------------------

  /** The segment new segments are parented to: the top of the parent stack. */
  function Current(t: Trace): SegId {
    if t.stack == [] then ROOT else t.stack[|t.stack| - 1]
  }

  function StartSeg(t: Trace, now: nat): Trace {
    if Current(t) < |t.segs| then
      t.(segs := Append(t.segs, Current(t), now), stack := t.stack + [|t.segs|])
    else t
  }

  function SetName(t: Trace, s: SegId, name: string): Trace {
    if s < |t.segs| then t.(segs := t.segs[s := t.segs[s].(name := name)]) else t
  }

  function SetKind(t: Trace, s: SegId, kind: Kind): Trace {
    if s < |t.segs| then t.(segs := t.segs[s := t.segs[s].(kind := kind)]) else t
  }

  function SegKind(t: Trace, s: SegId): Kind {
    if s < |t.segs| then t.segs[s].kind else Unknown(-1)
  }

  function Timed(g: Seg, start: nat, duration: nat): Seg {
    g.(start := start, stop := (start + duration) % TIME_LIMIT)
  }

  function SetSegTiming(t: Trace, s: SegId, start: nat, duration: nat): Trace {
    if s < |t.segs| then t.(segs := t.segs[s := Timed(t.segs[s], start, duration)]) else t
  }

  /** nr_segment_end: an explicit stop time is kept, and the segment leaves the parent stack. */
  function EndSeg(t: Trace, s: SegId, now: nat): Trace {
    if s < |t.segs| then
      var g := t.segs[s];
      t.(segs := t.segs[s := g.(stop := if g.stop == 0 then now else g.stop, ends := g.ends + 1)],
         stack := Remove(t.stack, s))
    else t
  }

  function AddSegMetric(t: Trace, s: SegId): Trace {
    if s < |t.segs| then t.(segs := t.segs[s := t.segs[s].(metrics := t.segs[s].metrics + [t.segs[s].name])]) else t
  }

  function AddReport(t: Trace, s: SegId, p: Payload): Trace {
    t.(reports := t.reports + [Report(s, p)])
  }

  function ApiMetric(name: string): string {
    "Supportability/C/api/" + name
  }

  function Tally(t: Txn, name: string): Txn {
    t.(metrics := Record(t.metrics, Sample(name, 0.0)))
  }

  predicate SameParent(t: Trace, s: SegId, p: SegId) { s < |t.segs| && t.segs[s].parent == Some(p) }

  /** nr_segment_set_parent accepts the parent s already has, and otherwise looks for s above p. */
  ghost predicate Accepts(t: Trace, s: SegId, p: SegId) {
    SameParent(t, s, p) || !Above(t.segs, s, p)
  }

  /** A segment that already has the parent is not moved within its list of children. */
  ghost function Reparent(t: Trace, s: SegId, p: SegId): Trace {
    if s < |t.segs| && p < |t.segs| && !SameParent(t, s, p) && !Above(t.segs, s, p) then t.(segs := Link(t.segs, s, p))
    else t
  }

  /** The switch on the axiom type in newrelic_end_segment, run under the lock. */
  function EndRoutine(t: Trace, s: SegId, w: Wrapper, now: nat): Trace {
    match SegKind(t, s)
    case Custom => AddSegMetric(EndSeg(t, s, now), s)
    case Datastore => AddReport(EndSeg(t, s, now), s, w.payload)
    case External => AddReport(EndSeg(t, s, now), s, w.payload)
    case Unknown(_) => t
  }

  /** nr_time_duration. */
  function Duration(g: Seg): nat {
    if g.start > g.stop then 0 else g.stop - g.start
  }

  /** The unscoped rollup metrics axiom adds when a typed segment ends. */
  function Rollups(k: Kind, p: Payload, duration: real): seq<Sample> {
    match k
    case Datastore =>
      if p.DatastorePayload? then
        [Sample(DATASTORE_ALL, duration), Sample("Datastore/" + ProductName(p.product) + "/all", duration)]
      else []
    case External => [Sample(EXTERNAL_ALL, duration)]
    case _ => []
  }

  /** What the end of s adds to the metric table, from its times after the end. */
  function EndSamples(t: Trace, s: SegId, w: Wrapper): seq<Sample> {
    if s < |t.segs| then Rollups(t.segs[s].kind, w.payload, Duration(t.segs[s]) as real) else []
  }

  /** A whole end: the routine of the type, and the rollups. */
  function Ended(txn: Txn, s: SegId, w: Wrapper, now: nat): Txn {
    var t := EndRoutine(txn.trace, s, w, now);
    txn.(trace := t, metrics := RecordAll(txn.metrics, EndSamples(t, s, w)))
  }

  predicate Eligible(c: Call) {
    && c.NoticeError?
    && c.message.Some? && c.message.value != ""
    && c.class_.Some? && c.class_.value != ""
  }

  function RecordOf(c: Call): ErrorRecord
    requires Eligible(c)
  {
    ErrorRecord(c.priority, c.message.value, c.class_.value)
  }

  /** newrelic_notice_error past its argument checks: an equal or higher priority replaces. */
  function Retain(st: Status, c: Call): Status
    requires Eligible(c)
  {
    if st.errEnabled && st.recording && (st.error.None? || c.priority >= st.error.value.priority) then
      st.(error := Some(RecordOf(c)))
    else st
  }

  // ---------------------------------------------------------------------
  // The API calls
  // ---------------------------------------------------------------------

  /** Axiom starts no segment and takes no custom metric or event on a transaction that is not recording; `ok` is what
      else decides: the slab allocation of a segment, a finite value, the options of the application. */
  predicate Admits(st: Status, ok: bool) { ok && st.recording }

  function Started(id: TxnId, b: Box, t: Trace, locked: bool, payload: Payload): Result {
    var s := |b.txn.trace.segs|;
    Result(Box(b.txn.(trace := t), b.open[s := Wrapper(s, id, locked, payload)]), Handle(Some(s)))
  }

  /** newrelic_start_segment.  The lock pointer is stored through the result even when creation failed. */
  function ApplyStartCustom(id: TxnId, b: Box, c: Call): Result
    requires c.StartCustom?
  {
    if !Admits(b.txn.status, c.ok) then Result(b, Crash)
    else
      var t := b.txn.trace;
      Started(id, b, SetName(StartSeg(t, c.now), |t.segs|, MetricName(c.name, c.category)), true, NoPayload)
  }

  function ApplyStartDatastore(id: TxnId, b: Box, c: Call): Result
    requires c.StartDatastore?
  {
    if !ValidDatastore(c.ds) || !Admits(b.txn.status, c.ok) then Result(b, Handle(None))
    else
      var t := b.txn.trace;
      Started(id, b, SetKind(StartSeg(t, c.now), |t.segs|, Datastore), false, DatastoreOf(c.ds.value))
  }

  function ApplyStartExternal(id: TxnId, b: Box, c: Call): Result
    requires c.StartExternal?
  {
    if !ValidExternal(c.ext) || !Admits(b.txn.status, c.ok) then Result(b, Handle(None))
    else
      var t := b.txn.trace;
      Started(id, b, SetKind(StartSeg(t, c.now), |t.segs|, External), false, ExternalOf(c.ext.value))
  }

  /** The body shared by the two reparenting calls: count the call, then try. */
  ghost function Move(b: Box, api: string, s: SegId, p: SegId): Result {
    Result(b.(txn := Tally(b.txn, ApiMetric(api)).(trace := Reparent(b.txn.trace, s, p))),
           Bool(Accepts(b.txn.trace, s, p)))
  }

  ghost function ApplySetParent(b: Box, s: SegId, p: SegId): Result {
    if s == p then Result(b, Bool(false)) else Move(b, SET_PARENT, s, p)
  }

  /** newrelic_end_segment.  The handle is consumed on every path. */
  function ApplyEndSegment(b: Box, c: Call): Result
    requires c.EndSegment?
  {
    if c.seg !in b.open then Result(b, Bool(false))
    else
      var w := b.open[c.seg];
      if c.via != Some(w.txn) then Result(b.(open := b.open - {c.seg}), Bool(false))
      else
        Result(Box(Ended(b.txn, w.seg, w, c.now), b.open - {c.seg}), Bool(true))
  }

  function ApplyAddAttribute(b: Box, c: Call): Result
    requires c.AddAttribute?
  {
    if c.key.None? || c.value.None? || !c.ok then Result(b, Bool(false))
    else
      var d := b.txn.data;
      Result(b.(txn := b.txn.(data := d.(attributes := d.attributes[c.key.value := c.value.value]))), Bool(true))
  }

  function ApplyRecordMetric(b: Box, c: Call): Result
    requires c.RecordMetric?
  {
    if c.metric.None? || !Admits(b.txn.status, c.ok) then Result(b, Bool(false))
    else Result(b.(txn := b.txn.(metrics := Record(b.txn.metrics, Sample(c.metric.value, Microseconds(c.sample))))), Bool(true))
  }

  function ApplyRecordEvent(b: Box, c: Call): Result
    requires c.RecordEvent?
  {
    var d := b.txn.data;
    Result(if Admits(b.txn.status, c.ok) then b.(txn := b.txn.(data := d.(events := d.events + [c.record]))) else b, Void)
  }

  function ApplySetTxnTiming(b: Box, start: nat, duration: nat): Result {
    var t := Tally(b.txn, ApiMetric(SET_TXN_TIMING));
    Result(b.(txn := t.(data := t.data.(timing := Some((start, duration))))), Bool(true))
  }

  /** nr_txn_end stops recording and runs the naming rules, which may ignore the transaction; then an attempt unless ignored. */
  function Attempt(st: Status, ruleIgnores: bool, sent: bool): Status {
    var ignored := st.ignored || ruleIgnores;
    st.(ended := true, recording := false, ignored := ignored, wire := if ignored then st.wire else st.wire + [sent])
  }

  /** newrelic_end_transaction on a live handle; an ended transaction's handle is NULL. */
  function ApplyEndTxn(b: Box, ruleIgnores: bool, sent: bool): Result {
    if b.txn.status.ended then Result(b, Bool(false))
    else
      Result(b.(txn := Tally(b.txn, VERSION_METRIC).(status := Attempt(b.txn.status, ruleIgnores, sent))),
             Bool(b.txn.status.ignored || ruleIgnores || sent))
  }

  ghost function Apply(id: TxnId, b: Box, c: Call): Result {
    match c
    case StartCustom(_, _, _, _) => ApplyStartCustom(id, b, c)
    case StartDatastore(_, _, _) => ApplyStartDatastore(id, b, c)
    case StartExternal(_, _, _) => ApplyStartExternal(id, b, c)
    case SetParent(s, p) => ApplySetParent(b, s, p)
    case SetParentRoot(s) => Move(b, SET_PARENT_ROOT, s, ROOT)
    case SetTiming(s, start, duration) =>
      Result(b.(txn := b.txn.(trace := SetSegTiming(b.txn.trace, s, start, duration))), Bool(true))
    case EndSegment(_, _, _) => ApplyEndSegment(b, c)
    case NoticeError(_, _, _) =>
      Result(if Eligible(c) then b.(txn := b.txn.(status := Retain(b.txn.status, c))) else b, Void)
    case AddAttribute(_, _, _) => ApplyAddAttribute(b, c)
    case RecordMetric(_, _, _) => ApplyRecordMetric(b, c)
    case RecordEvent(_, _, _) => ApplyRecordEvent(b, c)
    case SetTxnTiming(start, duration) => ApplySetTxnTiming(b, start, duration)
    case Ignore => Result(b.(txn := b.txn.(status := b.txn.status.(ignored := true, recording := false))), Bool(true))
    case EndTxn(ruleIgnores, sent) => ApplyEndTxn(b, ruleIgnores, sent)
  }

  // ---------------------------------------------------------------------
  // Client discipline and runs
  // ---------------------------------------------------------------------

  /** No use of an ended handle, and segments ended before their transaction. */
  ghost predicate Legal(b: Box, c: Call) {
    match c
    case SetParent(s, p) => !b.txn.status.ended && s in b.open && p in b.open
    case SetParentRoot(s) => !b.txn.status.ended && s in b.open
    case SetTiming(s, _, _) => !b.txn.status.ended && s in b.open
    case EndSegment(s, _, _) => !b.txn.status.ended && s in b.open
    case EndTxn(_, _) => b.txn.status.ended || b.open == map[]
    case _ => !b.txn.status.ended
  }

  /** A start with usable parameters for which axiom has memory. */
  predicate Startable(c: Call) {
    match c
    case StartCustom(_, _, ok, _) => ok
    case StartDatastore(ds, ok, _) => ok && ValidDatastore(ds)
    case StartExternal(ext, ok, _) => ok && ValidExternal(ext)
    case _ => false
  }

  function FreshStatus(errEnabled: bool): Status {
    Status(errEnabled, true, false, false, None, [])
  }

  function FreshTxn(errEnabled: bool, now: nat): Txn {
    Txn(Trace([Seg(None, [], Custom, "", now, 0, 0, [])], [ROOT], []), FreshStatus(errEnabled), map[],
        Data(map[], [], None))
  }

  function Fresh(errEnabled: bool, now: nat): Box {
    Box(FreshTxn(errEnabled, now), map[])
  }

  ghost function Run(id: TxnId, b: Box, cs: seq<Call>): Box
    decreases |cs|
  {
    if cs == [] then b else Apply(id, Run(id, b, cs[..|cs| - 1]), cs[|cs| - 1]).box
  }

  ghost predicate LegalRun(id: TxnId, b: Box, cs: seq<Call>)
    decreases |cs|
  {
    cs == [] || (LegalRun(id, b, cs[..|cs| - 1]) && Legal(Run(id, b, cs[..|cs| - 1]), cs[|cs| - 1]))
  }

  /** A run continued is one run. */
  lemma {:induction false} RunConcat(id: TxnId, b: Box, cs: seq<Call>, ds: seq<Call>)
    ensures Run(id, b, cs + ds) == Run(id, Run(id, b, cs), ds)
    ensures LegalRun(id, b, cs + ds) <==> LegalRun(id, b, cs) && LegalRun(id, Run(id, b, cs), ds)
    decreases |ds|
  {
    if ds == [] {
      assert cs + ds == cs;
    } else {
      var n := |ds| - 1;
      RunConcat(id, b, cs, ds[..n]);
      assert (cs + ds)[..|cs| + n] == cs + ds[..n];
    }
  }

  // ---------------------------------------------------------------------
  // Runs as folds of a step function known only by what it does
  // ---------------------------------------------------------------------

  ghost predicate AgreesAt(f: (Box, Call) -> Box, id: TxnId, b: Box, c: Call) {
    f(b, c) == Apply(id, b, c).box
  }

  ghost predicate Implements(f: (Box, Call) -> Box, id: TxnId) {
    forall b, c :: AgreesAt(f, id, b, c)
  }

  ghost function Step(id: TxnId): (Box, Call) -> Box {
    (b: Box, c: Call) => Apply(id, b, c).box
  }

  lemma StepImplements(id: TxnId)
    ensures Implements(Step(id), id)
  {
  }

  lemma {:induction false} RunIsFold(f: (Box, Call) -> Box, id: TxnId, b: Box, cs: seq<Call>)
    requires Implements(f, id)
    ensures Run(id, b, cs) == Fold(f, b, cs)
    decreases |cs|
  {
    if cs != [] {
      var n := |cs| - 1;
      RunIsFold(f, id, b, cs[..n]);
      assert AgreesAt(f, id, Run(id, b, cs[..n]), cs[n]);
    }
  }
}
