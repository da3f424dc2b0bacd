/**
 newrelic_ignore_transaction takes no lock, and it is two writes: `ignore`, then
 `recording`.  Each can fall between any two instructions of a call that holds
 the lock.  Nobody there reads the first.  The second is tested by one
 instruction of the starts, of newrelic_notice_error and of the custom metric
 and event calls: before it, the outcome is that of ignoring first; after it,
 and for every other call, that of ignoring last.
 */
module Ignoring {
  import opened Common
  import opened SegmentTree
  import opened Metrics
  import opened Naming
  import opened Model
  import opened Invariants
  import opened ThreadCode

  // ---------------------------------------------------------------------
  // The two writes
  // ---------------------------------------------------------------------

  function Mark(v: View): View { v.(txn := v.txn.(status := v.txn.status.(ignored := true))) }

  function Cease(v: View): View { v.(txn := v.txn.(status := v.txn.status.(recording := false))) }

  function Ignored(v: View): View { Cease(Mark(v)) }

  /** Both writes make the atomic call, as a call in flight sees it. */
  lemma IgnoredIsApply(id: TxnId, b: Box, c: Call)
    ensures var a := Apply(id, b, Ignore);
            && a.ret == Bool(true) && a.box == b.(txn := a.box.txn)
            && ViewOf(a.box, c) == Ignored(ViewOf(b, c))
            && a.box.txn == Ignored(ViewOf(b, c)).txn
  {
  }

  /** The instructions that test `recording`. */
  predicate Tests(m: Micro) { m.StartAxiom? || m.CheckError? || m.StoreMetric? || m.StoreEvent? }

  predicate NoTest(ops: Ops) {
    ops.Nil? || ((ops.op.Do? ==> !Tests(ops.op.m)) && NoTest(ops.rest))
  }

  /** The calls that have one: first thing under the lock, and only then. */
  predicate TestsFirst(c: Call) { IsStart(c) || c.NoticeError? || c.RecordMetric? || c.RecordEvent? }

  lemma TestPlace(c: Call)
    ensures NoTest(Tail(c))
    ensures TestsFirst(c) ==> Body(c).Cons? && Body(c).op.Do? && Tests(Body(c).op.m) && NoTest(Body(c).rest)
    ensures !TestsFirst(c) ==> NoTest(Body(c))
  {
  }

  // ---------------------------------------------------------------------
  // Instructions and writes
  // ---------------------------------------------------------------------

  lemma MarkCommutes(id: TxnId, c: Call, m: Micro, v: View)
    ensures Exec(id, c, m, Mark(v)) == Mark(Exec(id, c, m, v))
  {
    hide DoCreate, DoHandle, DoTxn, Mark;
    if IsStart(c) { CreateMark(id, c, m, v); } else if UsesHandle(c) { HandleMark(c, m, v); } else { TxnMark(c, m, v); }
  }

  lemma CreateMark(id: TxnId, c: Call, m: Micro, v: View)
    requires IsStart(c)
    ensures DoCreate(id, c, m, Mark(v)) == Mark(DoCreate(id, c, m, v))
  {
    hide MetricName;
  }

  lemma HandleMark(c: Call, m: Micro, v: View)
    requires UsesHandle(c)
    ensures DoHandle(c, m, Mark(v)) == Mark(DoHandle(c, m, v))
  {
    hide EndSamples, Above;
  }

  lemma TxnMark(c: Call, m: Micro, v: View)
    requires !IsStart(c) && !UsesHandle(c)
    ensures DoTxn(c, m, Mark(v)) == Mark(DoTxn(c, m, v))
  {
    hide ApiMetric;
  }

  lemma CeaseCommutes(id: TxnId, c: Call, m: Micro, v: View)
    requires !Tests(m)
    ensures Exec(id, c, m, Cease(v)) == Cease(Exec(id, c, m, v))
  {
    hide DoCreate, DoHandle, DoTxn, Cease;
    if IsStart(c) { CreateCease(id, c, m, v); } else if UsesHandle(c) { HandleCease(c, m, v); } else { TxnCease(c, m, v); }
  }

  lemma CreateCease(id: TxnId, c: Call, m: Micro, v: View)
    requires IsStart(c) && !Tests(m)
    ensures DoCreate(id, c, m, Cease(v)) == Cease(DoCreate(id, c, m, v))
  {
    hide MetricName;
  }

  lemma HandleCease(c: Call, m: Micro, v: View)
    requires UsesHandle(c)
    ensures DoHandle(c, m, Cease(v)) == Cease(DoHandle(c, m, v))
  {
    hide EndSamples, Above;
  }

  lemma TxnCease(c: Call, m: Micro, v: View)
    requires !IsStart(c) && !UsesHandle(c) && !Tests(m)
    ensures DoTxn(c, m, Cease(v)) == Cease(DoTxn(c, m, v))
  {
    hide ApiMetric;
  }

  /** The writes touch no register, and twice is once. */
  lemma WriteFacts(v: View)
    ensures Mark(v).r == v.r && Cease(v).r == v.r && Ignored(v).r == v.r
    ensures Mark(v.(r := v.r.(skip := false))) == Mark(v).(r := v.r.(skip := false))
    ensures Cease(v.(r := v.r.(skip := false))) == Cease(v).(r := v.r.(skip := false))
    ensures Ignored(Mark(v)) == Ignored(v) && Ignored(Cease(v)) == Ignored(v) && Ignored(Ignored(v)) == Ignored(v)
  {
  }

  // ---------------------------------------------------------------------
  // A call with the writes falling into it
  // ---------------------------------------------------------------------

  /** What falls before instruction i: the first write if it falls before j == i, the second if before k == i. */
  function Written(i: nat, j: nat, k: nat, v: View): View {
    var u := if i == j then Mark(v) else v;
    if i == k then Cease(u) else u
  }

  /** The instructions ops of a call, from number i on, with `ignore` written before number j and `recording` before
      number k; writes that have not fallen by then fall at the end. */
  ghost function RunIgnoring(id: TxnId, c: Call, ops: Ops, i: nat, j: nat, k: nat, v: View): View
    decreases ops
  {
    match ops
    case Nil => Ignored(v)
    case Cons(op, rest) =>
      var u := Written(i, j, k, v);
      match op
      case Do(m) =>
        var v' := Exec(id, c, m, u);
        if v'.r.skip then Ignored(v'.(r := v'.r.(skip := false))) else RunIgnoring(id, c, rest, i + 1, j, k, v')
      case _ => RunIgnoring(id, c, rest, i + 1, j, k, u)
  }

  lemma WrittenFacts(i: nat, j: nat, k: nat, v: View)
    ensures Written(i, j, k, v).r == v.r && Ignored(Written(i, j, k, v)) == Ignored(v)
    ensures Written(i, j, k, v.(r := v.r.(skip := false))) == Written(i, j, k, v).(r := v.r.(skip := false))
  {
  }

  lemma WrittenCommutes(id: TxnId, c: Call, m: Micro, i: nat, j: nat, k: nat, v: View)
    requires Tests(m) ==> i != k
    ensures Exec(id, c, m, Written(i, j, k, v)) == Written(i, j, k, Exec(id, c, m, v))
  {
    hide Exec, Mark, Cease;
    MarkCommutes(id, c, m, v);
    var u := if i == j then Mark(v) else v;
    if i == k { CeaseCommutes(id, c, m, u); }
  }

  /** Where nothing tests, a write before comes to the same as one after. */
  lemma {:induction false} RunWritten(id: TxnId, c: Call, ops: Ops, i: nat, j: nat, k: nat, v: View)
    requires NoTest(ops)
    ensures RunOps(id, c, ops, Written(i, j, k, v)) == Written(i, j, k, RunOps(id, c, ops, v))
    decreases ops
  {
    hide Exec, Written;
    if ops.Cons? {
      match ops.op
      case Do(m) =>
        WrittenCommutes(id, c, m, i, j, k, v);
        WrittenFacts(i, j, k, Exec(id, c, m, v));
        RunWritten(id, c, ops.rest, i, j, k, Exec(id, c, m, v));
      case _ => RunWritten(id, c, ops.rest, i, j, k, v);
    }
  }

  /** And the writes may fall anywhere among such instructions. */
  lemma {:induction false} WritesFall(id: TxnId, c: Call, ops: Ops, i: nat, j: nat, k: nat, v: View)
    requires NoTest(ops)
    ensures RunIgnoring(id, c, ops, i, j, k, v) == Ignored(RunOps(id, c, ops, v))
    decreases ops
  {
    hide Exec, Written, Ignored;
    if ops.Cons? {
      match ops.op
      case Do(m) =>
        var x := Exec(id, c, m, v);
        WrittenCommutes(id, c, m, i, j, k, v);
        WrittenFacts(i, j, k, x);
        WrittenFacts(i, j, k, x.(r := x.r.(skip := false)));
        WritesFall(id, c, ops.rest, i + 1, j, k, Written(i, j, k, x));
        RunWritten(id, c, ops.rest, i, j, k, x);
        WrittenFacts(i, j, k, RunOps(id, c, ops.rest, x));
      case _ =>
        WritesFall(id, c, ops.rest, i + 1, j, k, Written(i, j, k, v));
        RunWritten(id, c, ops.rest, i, j, k, v);
        WrittenFacts(i, j, k, RunOps(id, c, ops.rest, v));
    }
  }

  // ---------------------------------------------------------------------
  // Which order it was
  // ---------------------------------------------------------------------

  predicate IsIgnored(v: View) { v.txn.status.ignored && !v.txn.status.recording }

  lemma IgnoredStays(id: TxnId, c: Call, m: Micro, v: View)
    requires IsIgnored(v)
    ensures IsIgnored(Exec(id, c, m, v))
  {
    hide EndSamples, Above, MetricName, ApiMetric;
    if IsStart(c) {} else if UsesHandle(c) { HandleMark(c, m, v); HandleCease(c, m, v); }
  }

  /** After both writes have fallen the rest is an ordinary run. */
  lemma {:induction false} BothFallen(id: TxnId, c: Call, ops: Ops, i: nat, j: nat, k: nat, v: View)
    requires IsIgnored(v) && j < i && k < i
    ensures RunIgnoring(id, c, ops, i, j, k, v) == RunOps(id, c, ops, v) && IsIgnored(RunOps(id, c, ops, v))
    decreases ops
  {
    hide Exec;
    if ops.Cons? {
      match ops.op
      case Do(m) =>
        IgnoredStays(id, c, m, v);
        BothFallen(id, c, ops.rest, i + 1, j, k, Exec(id, c, m, v));
      case _ => BothFallen(id, c, ops.rest, i + 1, j, k, v);
    }
  }

  /** `recording` is cleared before the test: as if the whole call ran on the ignored transaction. */
  lemma WrittenBeforeTest(id: TxnId, c: Call, v: View)
    requires Body(c).Cons? && Body(c).op.Do?
    ensures RunIgnoring(id, c, Body(c), 0, 0, 0, v) == RunOps(id, c, Body(c), Ignored(v))
  {
    hide Exec, Body;
    var m, rest := Body(c).op.m, Body(c).rest;
    var x := Exec(id, c, m, Ignored(v));
    IgnoredStays(id, c, m, Ignored(v));
    assert Body(c) == Cons(Do(m), rest) && Written(0, 0, 0, v) == Ignored(v);
    RunDo(id, c, m, rest, Ignored(v));
    BothFallen(id, c, rest, 1, 0, 0, x);
  }

  /** It is cleared after the test, or nothing tests: as if after the whole call. */
  lemma WrittenAfterTest(id: TxnId, c: Call, j: nat, k: nat, v: View)
    requires TestsFirst(c) ==> k > 0
    ensures RunIgnoring(id, c, Body(c), 0, j, k, v) == Ignored(RunOps(id, c, Body(c), v))
  {
    hide Exec, Body, Written, Ignored, NoTest;
    TestPlace(c);
    if TestsFirst(c) {
      var m, rest := Body(c).op.m, Body(c).rest;
      var x := Exec(id, c, m, v);
      assert Body(c) == Cons(Do(m), rest);
      RunDo(id, c, m, rest, v);
      WrittenCommutes(id, c, m, 0, j, k, v);
      WrittenFacts(0, j, k, x);
      WrittenFacts(0, j, k, x.(r := x.r.(skip := false)));
      WritesFall(id, c, rest, 1, j, k, Written(0, j, k, x));
      RunWritten(id, c, rest, 0, j, k, x);
      WrittenFacts(0, j, k, RunOps(id, c, rest, x));
    } else {
      WritesFall(id, c, Body(c), 0, j, k, v);
    }
  }

  /** The whole call, with the writes falling before instructions j and k of its locked part. */
  ghost function Interrupted(id: TxnId, b: Box, c: Call, j: nat, k: nat): View {
    RunOps(id, c, Tail(c), RunIgnoring(id, c, Body(c), 0, j, k, ViewOf(b, c)))
  }

  /** What a call leaves and returns. */
  ghost predicate Leaves(v: View, txn: Txn, ret: Ret) { v.txn == txn && v.r.ret == ret && !v.r.fault }

  /** For every call and every place of the two writes, transaction and result are those of ignoring before the call
      if `recording` is cleared before the instruction that tests it, and otherwise those of ignoring after the call. */
  lemma IgnoreDuringCall(id: TxnId, b: Box, c: Call, j: nat, k: nat)
    requires Inv(id, b) && Legal(b, c) && Covered(c) && Check(c, ViewOf(b, c).own).Pass? && j <= k
    ensures var first := Apply(id, Apply(id, b, Ignore).box, c);
            var last := Apply(id, b, c);
            if TestsFirst(c) && k == 0 then Leaves(Interrupted(id, b, c, j, k), first.box.txn, first.ret)
            else Leaves(Interrupted(id, b, c, j, k), Apply(id, last.box, Ignore).box.txn, last.ret)
  {
    hide Inv, Body, Tail, Apply, RunIgnoring, RunOps, Mark, Cease, NoTest, Check;
    var v := ViewOf(b, c);
    TestPlace(c);
    if TestsFirst(c) && k == 0 {
      WrittenBeforeTest(id, c, v);
      IgnoredIsApply(id, b, c);
      IgnoreKeepsLegal(id, b, c);
      FinishIsApply(id, Apply(id, b, Ignore).box, c);
    } else {
      WrittenAfterTest(id, c, j, k, v);
      TailIgnored(id, c, RunOps(id, c, Body(c), v));
      FinishIsApply(id, b, c);
      IgnoredTxn(id, Apply(id, b, c).box, Finish(id, c, v));
      WriteFacts(Finish(id, c, v));
    }
  }

  lemma IgnoreKeepsLegal(id: TxnId, b: Box, c: Call)
    requires Inv(id, b) && Legal(b, c) && Covered(c)
    ensures var b' := Apply(id, b, Ignore).box; Inv(id, b') && Legal(b', c) && ViewOf(b', c).own == ViewOf(b, c).own
  {
    hide Inv;
    ApplyKeepsInv(id, b, Ignore);
  }

  lemma TailIgnored(id: TxnId, c: Call, v: View)
    ensures RunOps(id, c, Tail(c), Ignored(v)) == Ignored(RunOps(id, c, Tail(c), v))
  {
    hide Tail;
    TestPlace(c);
    assert forall x: View :: Written(0, 0, 0, x) == Ignored(x);
    RunWritten(id, c, Tail(c), 0, 0, 0, v);
  }

  lemma IgnoredTxn(id: TxnId, b: Box, v: View)
    requires v.txn == b.txn
    ensures Apply(id, b, Ignore).box.txn == Ignored(v).txn
  {
  }

  // ---------------------------------------------------------------------
  // When the order matters
  // ---------------------------------------------------------------------

  /** The call would leave a trace on this transaction, because it records. */
  predicate Matters(b: Box, c: Call) {
    && b.txn.status.recording
    && match c
       case StartCustom(_, _, ok, _) => ok
       case StartDatastore(_, ok, _) => ok
       case StartExternal(_, ok, _) => ok
       case RecordMetric(_, _, ok) => ok
       case RecordEvent(_, _, ok) => ok
       case NoticeError(_, _, _) => Eligible(c) && Retain(b.txn.status, c) != b.txn.status
       case _ => false
  }

  /** Ignoring before and ignoring after differ if and only if the call matters. */
  lemma OrdersDifferIff(id: TxnId, b: Box, c: Call)
    requires Inv(id, b) && Legal(b, c) && Covered(c) && Check(c, ViewOf(b, c).own).Pass?
    ensures var first := Apply(id, Apply(id, b, Ignore).box, c);
            var last := Apply(id, b, c);
            (first.box.txn != Apply(id, last.box, Ignore).box.txn || first.ret != last.ret) <==> Matters(b, c)
  {
    hide Inv, Microseconds, Fold, EndSamples;
    match c {
      case RecordEvent(_, record, _) =>
        assert |b.txn.data.events + [record]| != |b.txn.data.events|;
      case NoticeError(_, _, _) =>
        var st := b.txn.status;
        assert Retain(st, c) == st.(error := Retain(st, c).error);
      case _ =>
    }
  }
}
