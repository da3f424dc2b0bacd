/**
 The API calls as the instruction sequences the C code executes: checks before
 the lock, a body under the transaction lock, and a tail after it.  Only the
 lock makes a body look atomic; here it is taken apart.
 */
module ThreadCode {
  import opened Common
  import opened SegmentTree
  import opened Metrics
  import opened Naming
  import opened Model
  import opened Invariants

  datatype Micro =
    | StartAxiom | AllocWrapper | FillWrapper | NameSegment | TypeSegment | CopyFields | SetTxnLock
    | CountApi | Walk | LinkSegment | TimeSegment
    | EndAxiom | AddRollups | RecordEnd | ClearFields | StatusTrue | FreeWrapper
    | CheckError | StoreError | CheckAttribute | StoreAttribute | StoreMetric
    | StoreEvent | DiscardEvent | StoreTiming

  /** Acquire and Release are the global mutex around the wrapper allocation (src/segment.c:25-27). */
  datatype Op = Acquire | Release | Do(m: Micro)

  datatype Ops = Nil | Cons(op: Op, rest: Ops)

  /** What nr_segment_set_parent found out before it changes anything. */
  datatype Verdict = Refused | Stays | Moves

  /** A call's registers: the segment it started, the outcome of the ancestor walk, a pending goto, the
      return value, and whether it touched freed memory. */
  datatype Regs = Regs(seg: Option<SegId>, verdict: Verdict, skip: bool, ret: Ret, fault: bool)

  /** What a call can see: its transaction, its own wrapper, the parent's wrapper, its event. */
  datatype View = View(txn: Txn, own: Option<Wrapper>, par: Option<Wrapper>, event: Option<EventRecord>, r: Regs)

  predicate IsStart(c: Call) { c.StartCustom? || c.StartDatastore? || c.StartExternal? }

  predicate UsesWrapperLock(c: Call) { c.SetParent? || c.SetParentRoot? || c.SetTiming? }

  predicate UsesHandle(c: Call) { UsesWrapperLock(c) || c.EndSegment? }

  /** The calls that lock.  newrelic_ignore_transaction takes no lock, and newrelic_end_transaction
      destroys the lock it took. */
  predicate Covered(c: Call) { !c.Ignore? && !c.EndTxn? }

  // ---------------------------------------------------------------------
  // The code
  // ---------------------------------------------------------------------

  function Create(next: Ops): Ops {
    Cons(Do(StartAxiom), Cons(Acquire, Cons(Do(AllocWrapper), Cons(Release, Cons(Do(FillWrapper), next)))))
  }

  function Body(c: Call): Ops {
    match c
    case StartCustom(_, _, _, _) => Create(Cons(Do(NameSegment), Nil))
    case StartDatastore(_, _, _) => Create(Cons(Do(TypeSegment), Cons(Do(CopyFields), Nil)))
    case StartExternal(_, _, _) => Create(Cons(Do(TypeSegment), Cons(Do(CopyFields), Nil)))
    case SetParent(_, _) => Cons(Do(CountApi), Cons(Do(Walk), Cons(Do(LinkSegment), Nil)))
    case SetParentRoot(_) => Cons(Do(CountApi), Cons(Do(Walk), Cons(Do(LinkSegment), Nil)))
    case SetTiming(_, _, _) => Cons(Do(TimeSegment), Nil)
    case EndSegment(_, _, _) => Cons(Do(EndAxiom), Cons(Do(AddRollups), Cons(Do(RecordEnd), Cons(Do(ClearFields), Nil))))
    case NoticeError(_, _, _) => Cons(Do(CheckError), Cons(Do(StoreError), Nil))
    case AddAttribute(_, _, _) => Cons(Do(CheckAttribute), Cons(Do(StoreAttribute), Nil))
    case RecordMetric(_, _, _) => Cons(Do(StoreMetric), Nil)
    case RecordEvent(_, _, _) => Cons(Do(StoreEvent), Nil)
    case SetTxnTiming(_, _) => Cons(Do(CountApi), Cons(Do(StoreTiming), Nil))
    case _ => Nil
  }

  function Tail(c: Call): Ops {
    match c
    case StartCustom(_, _, _, _) => Cons(Do(SetTxnLock), Nil)
    case EndSegment(_, _, _) => Cons(Do(StatusTrue), Cons(Do(FreeWrapper), Nil))
    case RecordEvent(_, _, _) => Cons(Do(DiscardEvent), Nil)
    case _ => Nil
  }

  /** What the checks before the lock decide. */
  datatype Checked = Pass | Exit(ret: Ret) | Destroy

  function Check(c: Call, own: Option<Wrapper>): Checked {
    match c
    case StartDatastore(ds, _, _) => if ValidDatastore(ds) then Pass else Exit(Handle(None))
    case StartExternal(ext, _, _) => if ValidExternal(ext) then Pass else Exit(Handle(None))
    case SetParent(s, p) => if s == p then Exit(Bool(false)) else Pass
    case EndSegment(_, via, _) => if own.Some? && via == Some(own.value.txn) then Pass else Destroy
    case NoticeError(_, _, _) => if Eligible(c) then Pass else Exit(Void)
    case RecordMetric(m, _, _) => if m.None? then Exit(Bool(false)) else Pass
    case _ => Pass
  }

  function InitialRet(c: Call): Ret {
    if IsStart(c) then Handle(None) else if c.NoticeError? || c.RecordEvent? then Void else Bool(false)
  }

  function Initial(c: Call): Regs {
    Regs(None, Refused, false, InitialRet(c), false)
  }

  function ApiOf(c: Call): string {
    if c.SetParent? then SET_PARENT else if c.SetParentRoot? then SET_PARENT_ROOT else SET_TXN_TIMING
  }

  function PayloadOf(c: Call): Payload {
    if c.StartDatastore? && ValidDatastore(c.ds) then DatastoreOf(c.ds.value)
    else if c.StartExternal? && ValidExternal(c.ext) then ExternalOf(c.ext.value)
    else NoPayload
  }

  /** The segment a reparenting call moves to. */
  function Target(c: Call, v: View): SegId {
    if c.SetParent? && v.par.Some? then v.par.value.seg else ROOT
  }

  // ---------------------------------------------------------------------
  // One instruction
  // ---------------------------------------------------------------------

  function Fault(v: View): View { v.(r := v.r.(fault := true)) }

  function Skip(v: View): View { v.(r := v.r.(skip := true)) }

  function Returning(v: View, ret: Ret): View { v.(r := v.r.(ret := ret)) }

  function WithTrace(v: View, t: Trace): View { v.(txn := v.txn.(trace := t)) }

  function DoStart(c: Call, v: View): View
    requires IsStart(c)
  {
    if Admits(v.txn.status, c.ok) then
      WithTrace(v.(r := v.r.(seg := Some(|v.txn.trace.segs|))), StartSeg(v.txn.trace, c.now))
    else Skip(v)
  }

  /** Instructions of the creation path. */
  function DoCreate(id: TxnId, c: Call, m: Micro, v: View): View
    requires IsStart(c)
  {
    match m
    case StartAxiom => DoStart(c, v)
    case AllocWrapper => v.(own := Some(Wrapper(0, 0, false, NoPayload)))
    case FillWrapper =>
      if v.own.Some? && v.r.seg.Some? then v.(own := Some(v.own.value.(seg := v.r.seg.value, txn := id))) else Fault(v)
    case NameSegment =>
      if c.StartCustom? && v.r.seg.Some? then
        WithTrace(v, SetName(v.txn.trace, v.r.seg.value, MetricName(c.name, c.category)))
      else Fault(v)
    case TypeSegment =>
      if v.r.seg.Some? then
        WithTrace(v, SetKind(v.txn.trace, v.r.seg.value, if c.StartDatastore? then Datastore else External))
      else Fault(v)
    case CopyFields =>
      if v.own.Some? then Returning(v.(own := Some(v.own.value.(payload := PayloadOf(c)))), Handle(v.r.seg)) else Fault(v)
    case SetTxnLock =>
      if v.own.Some? then Returning(v.(own := Some(v.own.value.(locked := true))), Handle(v.r.seg))
      else Returning(v, Crash)
    case _ => v
  }

  /** The parent it has already, or no cycle, or refused. */
  ghost function VerdictOf(t: Trace, s: SegId, p: SegId): Verdict {
    if SameParent(t, s, p) then Stays else if Above(t.segs, s, p) then Refused else Moves
  }

  /** Instructions that work through an existing handle. */
  ghost function DoHandle(c: Call, m: Micro, v: View): View
    requires UsesHandle(c)
  {
    if m.StatusTrue? then Returning(v, Bool(true))
    else if v.own.None? || (c.SetParent? && v.par.None?) then Fault(v)
    else if m.FreeWrapper? then (if c.EndSegment? then v.(own := None) else v)
    else if m.CountApi? then v.(txn := Tally(v.txn, ApiMetric(ApiOf(c))))
    else
      var t, s := v.txn.trace, v.own.value.seg;
      match m
      case Walk => v.(r := v.r.(verdict := VerdictOf(t, s, Target(c, v))))
      case LinkSegment =>
        var p := Target(c, v);
        Returning(if v.r.verdict.Moves? && s < |t.segs| && p < |t.segs| then WithTrace(v, t.(segs := Link(t.segs, s, p))) else v,
                  Bool(!v.r.verdict.Refused?))
      case TimeSegment =>
        if c.SetTiming? then Returning(WithTrace(v, SetSegTiming(t, s, c.start, c.duration)), Bool(true)) else v
      case EndAxiom =>
        if c.EndSegment? && !SegKind(t, s).Unknown? then WithTrace(v, EndSeg(t, s, c.now)) else v
      case AddRollups =>
        if c.EndSegment? then v.(txn := v.txn.(metrics := RecordAll(v.txn.metrics, EndSamples(t, s, v.own.value)))) else v
      case RecordEnd =>
        match SegKind(t, s) {
          case Custom => WithTrace(v, AddSegMetric(t, s))
          case Unknown(_) => v
          case _ => WithTrace(v, AddReport(t, s, v.own.value.payload))
        }
      case ClearFields =>
        if c.EndSegment? && (SegKind(t, s).Datastore? || SegKind(t, s).External?) then v.(own := Some(v.own.value.(payload := NoPayload)))
        else v
      case _ => v
  }

  /** Instructions that touch the transaction only. */
  function DoTxn(c: Call, m: Micro, v: View): View {
    match m
    case CheckError =>
      if Eligible(c) && v.txn.status.errEnabled && v.txn.status.recording
         && (v.txn.status.error.None? || c.priority >= v.txn.status.error.value.priority) then v
      else Skip(v)
    case StoreError =>
      if Eligible(c) then v.(txn := v.txn.(status := v.txn.status.(error := Some(RecordOf(c))))) else v
    case CheckAttribute =>
      if c.AddAttribute? && c.key.Some? && c.value.Some? && c.ok then v else Skip(v)
    case StoreAttribute =>
      if c.AddAttribute? && c.key.Some? && c.value.Some? then
        var d := v.txn.data;
        Returning(v.(txn := v.txn.(data := d.(attributes := d.attributes[c.key.value := c.value.value]))), Bool(true))
      else v
    case StoreMetric =>
      if c.RecordMetric? && c.metric.Some? && Admits(v.txn.status, c.ok) then
        Returning(v.(txn := v.txn.(metrics := Record(v.txn.metrics, Sample(c.metric.value, Microseconds(c.sample))))), Bool(true))
      else v
    case StoreEvent =>
      if v.event.None? then Fault(v)
      else if c.RecordEvent? && Admits(v.txn.status, c.ok) then
        v.(txn := v.txn.(data := v.txn.data.(events := v.txn.data.events + [v.event.value])))
      else v
    case DiscardEvent => if v.event.None? then Fault(v) else if c.RecordEvent? then v.(event := None) else v
    case CountApi => v.(txn := Tally(v.txn, ApiMetric(ApiOf(c))))
    case StoreTiming =>
      if c.SetTxnTiming? then
        Returning(v.(txn := v.txn.(data := v.txn.data.(timing := Some((c.start, c.duration))))), Bool(true))
      else v
    case _ => v
  }

  ghost function Exec(id: TxnId, c: Call, m: Micro, v: View): View {
    if IsStart(c) then DoCreate(id, c, m, v) else if UsesHandle(c) then DoHandle(c, m, v) else DoTxn(c, m, v)
  }

  /** The rest of a list of instructions, uninterrupted; a goto leaves the list. */
  ghost function RunOps(id: TxnId, c: Call, ops: Ops, v: View): View {
    match ops
    case Nil => v
    case Cons(op, rest) =>
      match op
      case Do(m) =>
        var v' := Exec(id, c, m, v);
        if v'.r.skip then v'.(r := v'.r.(skip := false)) else RunOps(id, c, rest, v')
      case _ => RunOps(id, c, rest, v)
  }

  ghost function Finish(id: TxnId, c: Call, v: View): View {
    RunOps(id, c, Tail(c), RunOps(id, c, Body(c), v))
  }

  // ---------------------------------------------------------------------
  // Run without interruption, the code is the call
  // ---------------------------------------------------------------------

  /** The view a call has on a box when nothing runs beside it. */
  function ViewOf(b: Box, c: Call): View {
    View(b.txn,
         if UsesHandle(c) then Get(b.open, c.seg) else None,
         if c.SetParent? then Get(b.open, c.par) else None,
         if c.RecordEvent? then Some(c.record) else None,
         Initial(c))
  }

  /** The handle a call creates or consumes. */
  function Claim(c: Call, txn: Txn): Option<SegId> {
    if c.EndSegment? then Some(c.seg)
    else if IsStart(c) && Admits(txn.status, c.ok) && Check(c, None).Pass? then Some(|txn.trace.segs|)
    else None
  }

  /** What remains to be said of an uninterrupted execution v of call c from b. */
  ghost predicate Agrees(id: TxnId, b: Box, c: Call, v: View) {
    var a := Apply(id, b, c);
    && v.txn == a.box.txn
    && v.r.ret == a.ret
    && !v.r.fault && !v.r.skip
    && (Claim(c, b.txn).Some? ==> v.own == Get(a.box.open, Claim(c, b.txn).value))
    && (IsStart(c) ==> v.r.seg == Claim(c, b.txn))
    && (UsesWrapperLock(c) ==> v.own == Get(b.open, c.seg))
  }

  /** One instruction at a time. */
  lemma RunDo(id: TxnId, c: Call, m: Micro, rest: Ops, v: View)
    ensures RunOps(id, c, Cons(Do(m), rest), v)
         == var v' := Exec(id, c, m, v);
            if v'.r.skip then v'.(r := v'.r.(skip := false)) else RunOps(id, c, rest, v')
  {
  }

  lemma RunLocked(id: TxnId, c: Call, m: Micro, rest: Ops, v: View)
    ensures RunOps(id, c, Cons(Acquire, Cons(Do(m), Cons(Release, rest))), v)
         == var v' := Exec(id, c, m, v);
            if v'.r.skip then v'.(r := v'.r.(skip := false)) else RunOps(id, c, rest, v')
  {
    RunDo(id, c, m, Cons(Release, rest), v);
  }

  lemma RunCreate(id: TxnId, c: Call, next: Ops, v: View)
    requires IsStart(c) && !v.r.skip
    ensures var v1 := Exec(id, c, StartAxiom, v);
            RunOps(id, c, Create(next), v)
            == if Admits(v.txn.status, c.ok) then RunOps(id, c, next, Exec(id, c, FillWrapper, Exec(id, c, AllocWrapper, v1))) else v
  {
    var v1 := Exec(id, c, StartAxiom, v);
    var fill := Cons(Do(FillWrapper), next);
    RunDo(id, c, StartAxiom, Cons(Acquire, Cons(Do(AllocWrapper), Cons(Release, fill))), v);
    if Admits(v.txn.status, c.ok) {
      RunLocked(id, c, AllocWrapper, fill, v1);
      RunDo(id, c, FillWrapper, next, Exec(id, c, AllocWrapper, v1));
    }
  }

  lemma StartCustomAgrees(id: TxnId, b: Box, c: Call)
    requires Inv(id, b) && c.StartCustom?
    ensures Agrees(id, b, c, Finish(id, c, ViewOf(b, c)))
  {
    var v0 := ViewOf(b, c);
    CurrentInRange(b.txn.trace);
    RunCreate(id, c, Cons(Do(NameSegment), Nil), v0);
    var v1 := Exec(id, c, StartAxiom, v0);
    var v3 := Exec(id, c, FillWrapper, Exec(id, c, AllocWrapper, v1));
    RunDo(id, c, NameSegment, Nil, v3);
    var v4 := if Admits(b.txn.status, c.ok) then Exec(id, c, NameSegment, v3) else v0;
    RunDo(id, c, SetTxnLock, Nil, v4);
  }

  lemma StartTypedAgrees(id: TxnId, b: Box, c: Call)
    requires Inv(id, b) && (c.StartDatastore? || c.StartExternal?) && Check(c, None).Pass?
    ensures Agrees(id, b, c, Finish(id, c, ViewOf(b, c)))
  {
    var v0 := ViewOf(b, c);
    CurrentInRange(b.txn.trace);
    RunCreate(id, c, Cons(Do(TypeSegment), Cons(Do(CopyFields), Nil)), v0);
    var v1 := Exec(id, c, StartAxiom, v0);
    var v3 := Exec(id, c, FillWrapper, Exec(id, c, AllocWrapper, v1));
    RunDo(id, c, TypeSegment, Cons(Do(CopyFields), Nil), v3);
    RunDo(id, c, CopyFields, Nil, Exec(id, c, TypeSegment, v3));
  }

  lemma RunMove(id: TxnId, c: Call, v: View)
    requires (c.SetParent? || c.SetParentRoot?) && !v.r.skip
    ensures Finish(id, c, v) == Exec(id, c, LinkSegment, Exec(id, c, Walk, Exec(id, c, CountApi, v)))
  {
    var v1 := Exec(id, c, CountApi, v);
    var v2 := Exec(id, c, Walk, v1);
    RunDo(id, c, CountApi, Cons(Do(Walk), Cons(Do(LinkSegment), Nil)), v);
    RunDo(id, c, Walk, Cons(Do(LinkSegment), Nil), v1);
    RunDo(id, c, LinkSegment, Nil, v2);
  }

  /** The three instructions of a reparent, as one view. */
  lemma MoveView(c: Call, v: View, s: SegId, p: SegId)
    requires (c.SetParent? || c.SetParentRoot?) && v.own.Some? && v.own.value.seg == s
    requires (c.SetParent? ==> v.par.Some?) && Target(c, v) == p
    requires s < |v.txn.trace.segs| && p < |v.txn.trace.segs|
    ensures DoHandle(c, LinkSegment, DoHandle(c, Walk, DoHandle(c, CountApi, v)))
            == v.(txn := Tally(v.txn, ApiMetric(ApiOf(c))).(trace := Reparent(v.txn.trace, s, p)),
                  r := v.r.(verdict := VerdictOf(v.txn.trace, s, p), ret := Bool(Accepts(v.txn.trace, s, p))))
  {
    var v1 := v.(txn := Tally(v.txn, ApiMetric(ApiOf(c))));
    assert DoHandle(c, CountApi, v) == v1;
    var v2 := v1.(r := v1.r.(verdict := VerdictOf(v.txn.trace, s, p)));
    assert DoHandle(c, Walk, v1) == v2;
  }

  lemma MoveAgrees(id: TxnId, b: Box, c: Call)
    requires Inv(id, b) && Legal(b, c) && (c.SetParent? || c.SetParentRoot?) && Check(c, None).Pass?
    ensures Agrees(id, b, c, Finish(id, c, ViewOf(b, c)))
  {
    assert HandleOk(id, b, c.seg);
    if c.SetParent? { assert HandleOk(id, b, c.par); }
    RunMove(id, c, ViewOf(b, c));
    MoveView(c, ViewOf(b, c), c.seg, if c.SetParent? then c.par else ROOT);
  }

  lemma RunEnd(id: TxnId, c: Call, v: View)
    requires c.EndSegment? && !v.r.skip
    ensures var v4 := Exec(id, c, ClearFields, Exec(id, c, RecordEnd, Exec(id, c, AddRollups, Exec(id, c, EndAxiom, v))));
            Finish(id, c, v) == Exec(id, c, FreeWrapper, Exec(id, c, StatusTrue, v4))
  {
    hide Rollups, EndSamples;
    var v1 := Exec(id, c, EndAxiom, v);
    var v2 := Exec(id, c, AddRollups, v1);
    var v3 := Exec(id, c, RecordEnd, v2);
    var v4 := Exec(id, c, ClearFields, v3);
    var last := Cons(Do(ClearFields), Nil);
    RunDo(id, c, EndAxiom, Cons(Do(AddRollups), Cons(Do(RecordEnd), last)), v);
    RunDo(id, c, AddRollups, Cons(Do(RecordEnd), last), v1);
    RunDo(id, c, RecordEnd, last, v2);
    RunDo(id, c, ClearFields, Nil, v3);
    RunDo(id, c, StatusTrue, Cons(Do(FreeWrapper), Nil), v4);
    RunDo(id, c, FreeWrapper, Nil, Exec(id, c, StatusTrue, v4));
  }

  /** The rollups see the kind and the times the end routine leaves. */
  lemma RollupsAfterEnd(t: Trace, s: SegId, w: Wrapper, now: nat)
    requires s < |t.segs|
    ensures var t1 := if SegKind(t, s).Unknown? then t else EndSeg(t, s, now);
            SegKind(t1, s) == SegKind(t, s) && EndSamples(t1, s, w) == EndSamples(EndRoutine(t, s, w, now), s, w)
  {
    hide Rollups;
  }

  /** The instructions of an end, as one view. */
  lemma EndView(c: Call, v: View, s: SegId)
    requires c.EndSegment? && v.own.Some? && v.own.value.seg == s && s < |v.txn.trace.segs|
    ensures var v4 := DoHandle(c, ClearFields, DoHandle(c, RecordEnd, DoHandle(c, AddRollups, DoHandle(c, EndAxiom, v))));
            DoHandle(c, FreeWrapper, DoHandle(c, StatusTrue, v4))
            == v.(txn := Ended(v.txn, s, v.own.value, c.now), own := None, r := v.r.(ret := Bool(true)))
  {
    hide EndSamples;
    var t, w := v.txn.trace, v.own.value;
    RollupsAfterEnd(t, s, w, c.now);
    var v1 := DoHandle(c, EndAxiom, v);
    assert v1 == WithTrace(v, if SegKind(t, s).Unknown? then t else EndSeg(t, s, c.now));
    var v2 := DoHandle(c, AddRollups, v1);
    var v3 := DoHandle(c, RecordEnd, v2);
    assert v3 == v.(txn := Ended(v.txn, s, w, c.now));
    var v4 := DoHandle(c, ClearFields, v3);
    assert v4.own.Some? && v4.(own := None) == v3.(own := None);
  }

  lemma EndAgrees(id: TxnId, b: Box, c: Call)
    requires Inv(id, b) && Legal(b, c) && c.EndSegment? && c.via == Some(id)
    ensures Agrees(id, b, c, Finish(id, c, ViewOf(b, c)))
  {
    assert HandleOk(id, b, c.seg);
    RunEnd(id, c, ViewOf(b, c));
    EndView(c, ViewOf(b, c), c.seg);
  }

  lemma RunTwo(id: TxnId, c: Call, m: Micro, n: Micro, v: View)
    ensures RunOps(id, c, Cons(Do(m), Cons(Do(n), Nil)), v)
         == var v1 := Exec(id, c, m, v);
            var v2 := if v1.r.skip then v1 else Exec(id, c, n, v1);
            if v2.r.skip then v2.(r := v2.r.(skip := false)) else v2
  {
    RunDo(id, c, m, Cons(Do(n), Nil), v);
    RunDo(id, c, n, Nil, Exec(id, c, m, v));
  }

  lemma ErrorAgrees(id: TxnId, b: Box, c: Call)
    requires Eligible(c)
    ensures Agrees(id, b, c, Finish(id, c, ViewOf(b, c)))
  {
    RunTwo(id, c, CheckError, StoreError, ViewOf(b, c));
  }

  lemma AttributeAgrees(id: TxnId, b: Box, c: Call)
    requires c.AddAttribute?
    ensures Agrees(id, b, c, Finish(id, c, ViewOf(b, c)))
  {
    RunTwo(id, c, CheckAttribute, StoreAttribute, ViewOf(b, c));
  }

  lemma TxnTimingAgrees(id: TxnId, b: Box, c: Call)
    requires c.SetTxnTiming?
    ensures Agrees(id, b, c, Finish(id, c, ViewOf(b, c)))
  {
    RunTwo(id, c, CountApi, StoreTiming, ViewOf(b, c));
  }

  lemma EventAgrees(id: TxnId, b: Box, c: Call)
    requires c.RecordEvent?
    ensures Agrees(id, b, c, Finish(id, c, ViewOf(b, c)))
  {
    var v0 := ViewOf(b, c);
    RunDo(id, c, StoreEvent, Nil, v0);
    RunDo(id, c, DiscardEvent, Nil, Exec(id, c, StoreEvent, v0));
  }

  lemma MetricAgrees(id: TxnId, b: Box, c: Call)
    requires c.RecordMetric? && c.metric.Some?
    ensures Agrees(id, b, c, Finish(id, c, ViewOf(b, c)))
  {
    RunDo(id, c, StoreMetric, Nil, ViewOf(b, c));
  }

  lemma TimingAgrees(id: TxnId, b: Box, c: Call)
    requires Inv(id, b) && Legal(b, c) && c.SetTiming?
    ensures Agrees(id, b, c, Finish(id, c, ViewOf(b, c)))
  {
    assert HandleOk(id, b, c.seg);
    RunDo(id, c, TimeSegment, Nil, ViewOf(b, c));
  }

  /** For every call that passes its checks, lock-free uninterrupted execution of the code is the call. */
  lemma FinishIsApply(id: TxnId, b: Box, c: Call)
    requires Inv(id, b) && Legal(b, c) && Covered(c) && Check(c, ViewOf(b, c).own).Pass?
    ensures Agrees(id, b, c, Finish(id, c, ViewOf(b, c)))
  {
    match c {
      case StartCustom(_, _, _, _) => StartCustomAgrees(id, b, c);
      case StartDatastore(_, _, _) => StartTypedAgrees(id, b, c);
      case StartExternal(_, _, _) => StartTypedAgrees(id, b, c);
      case SetParent(_, _) => MoveAgrees(id, b, c);
      case SetParentRoot(_) => MoveAgrees(id, b, c);
      case SetTiming(_, _, _) => TimingAgrees(id, b, c);
      case EndSegment(s, _, _) => assert HandleOk(id, b, s); EndAgrees(id, b, c);
      case NoticeError(_, _, _) => ErrorAgrees(id, b, c);
      case AddAttribute(_, _, _) => AttributeAgrees(id, b, c);
      case RecordMetric(_, _, _) => MetricAgrees(id, b, c);
      case RecordEvent(_, _, _) => EventAgrees(id, b, c);
      case SetTxnTiming(_, _) => TxnTimingAgrees(id, b, c);
    }
  }

  /** A call that leaves at its checks changes no transaction. */
  lemma ExitIsApply(id: TxnId, b: Box, c: Call)
    requires Inv(id, b) && Legal(b, c) && Covered(c) && !Check(c, ViewOf(b, c).own).Pass?
    ensures var a := Apply(id, b, c);
            match Check(c, ViewOf(b, c).own)
            case Exit(ret) => a == Result(b, ret)
            case Destroy => a == Result(b.(open := b.open - {c.seg}), Bool(false))
  {
    if c.EndSegment? { assert HandleOk(id, b, c.seg); }
  }
}
