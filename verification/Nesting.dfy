/**
 Automatic parenting.  A bracket structure of starts and ends, with any other
 calls in between but no manual reparenting, produces exactly that structure as
 the segment tree: every segment's children are the segments started directly
 inside it, in start order.
 */
module Nesting {
  import opened Common
  import opened SegmentTree
  import opened Model

  /** A list of neutral calls and bracketed segments: a successful start, what happens inside, its end. */
  datatype Forest =
    | Done
    | Other(c: Call, rest: Forest)
    | Nested(open: Call, inside: Forest, now: nat, rest: Forest)

  /** Calls that start a segment, on a transaction that is recording or not. */
  predicate Opens(c: Call, rec: bool) { Startable(c) && rec }

  /** Calls that neither start, end nor move a segment; a start that cannot succeed is one of them. */
  predicate Neutral(c: Call, rec: bool) {
    !Opens(c, rec) && !c.SetParent? && !c.SetParentRoot? && !c.EndSegment?
  }

  /** After these axiom starts nothing any more. */
  predicate Stops(c: Call) { c.Ignore? || c.EndTxn? }

  /** Whether the transaction still records after f. */
  function RecAfter(f: Forest, rec: bool): bool {
    match f
    case Done => rec
    case Other(c, rest) => RecAfter(rest, rec && !Stops(c))
    case Nested(_, inside, _, rest) => RecAfter(rest, RecAfter(inside, rec))
  }

  predicate WellFormed(f: Forest, rec: bool) {
    match f
    case Done => true
    case Other(c, rest) => Neutral(c, rec) && WellFormed(rest, rec && !Stops(c))
    case Nested(open, inside, _, rest) => Opens(open, rec) && WellFormed(inside, rec) && WellFormed(rest, RecAfter(inside, rec))
  }

  /** An ended transaction does not record. */
  predicate Sane(b: Box) { b.txn.status.ended ==> !b.txn.status.recording }

  function Rec(b: Box): bool { b.txn.status.recording }

  /** How many segments it starts. */
  function Size(f: Forest): nat {
    match f
    case Done => 0
    case Other(_, rest) => Size(rest)
    case Nested(_, inside, _, rest) => 1 + Size(inside) + Size(rest)
  }

  /** The call sequence; segments are numbered from `base` in start order. */
  function Flatten(id: TxnId, f: Forest, base: SegId): seq<Call> {
    match f
    case Done => []
    case Other(c, rest) => [c] + Flatten(id, rest, base)
    case Nested(open, inside, now, rest) =>
      [open] + Flatten(id, inside, base + 1) + [EndSegment(base, Some(id), now)]
      + Flatten(id, rest, base + 1 + Size(inside))
  }

  /** The numbers of the segments it starts at the top level, in start order. */
  function Ids(f: Forest, base: SegId): seq<SegId> {
    match f
    case Done => []
    case Other(_, rest) => Ids(rest, base)
    case Nested(_, inside, _, rest) => [base] + Ids(rest, base + 1 + Size(inside))
  }

  function KindOf(c: Call): Kind {
    if c.StartDatastore? then Datastore else if c.StartExternal? then External else Custom
  }

  /** The segments from `base` on are this forest: the i-th start is segment base + i, has the kind it was
      started with, and its child list is what was started directly inside it. */
  predicate Mirrors(ss: seq<Seg>, f: Forest, base: SegId) {
    match f
    case Done => true
    case Other(_, rest) => Mirrors(ss, rest, base)
    case Nested(open, inside, _, rest) =>
      && base < |ss|
      && ss[base].kind == KindOf(open)
      && ss[base].children == Ids(inside, base + 1)
      && Mirrors(ss, inside, base + 1)
      && Mirrors(ss, rest, base + 1 + Size(inside))
  }

  // ---------------------------------------------------------------------
  // Frames
  // ---------------------------------------------------------------------

  predicate SameCore(g: Seg, h: Seg) {
    g.parent == h.parent && g.children == h.children && g.kind == h.kind
  }

  predicate SameCores(ss: seq<Seg>, tt: seq<Seg>, lo: nat, hi: nat) {
    hi <= |ss| && hi <= |tt| && forall i :: lo <= i < hi ==> SameCore(ss[i], tt[i])
  }

  lemma {:induction false} MirrorsFrame(ss: seq<Seg>, tt: seq<Seg>, f: Forest, base: SegId)
    requires Mirrors(ss, f, base) && SameCores(ss, tt, base, base + Size(f))
    ensures Mirrors(tt, f, base)
  {
    match f
    case Done =>
    case Other(_, rest) => MirrorsFrame(ss, tt, rest, base);
    case Nested(_, inside, _, rest) =>
      assert SameCore(ss[base], tt[base]);
      MirrorsFrame(ss, tt, inside, base + 1);
      MirrorsFrame(ss, tt, rest, base + 1 + Size(inside));
  }

  lemma NeutralKeepsTrace(id: TxnId, b: Box, c: Call)
    requires Neutral(c, Rec(b)) && Sane(b)
    ensures var b' := Apply(id, b, c).box;
            && Rec(b') == (Rec(b) && !Stops(c)) && Sane(b')
            && b'.open == b.open && b'.txn.trace.stack == b.txn.trace.stack
            && |b'.txn.trace.segs| == |b.txn.trace.segs|
            && forall i :: 0 <= i < |b.txn.trace.segs| ==> SameCore(b.txn.trace.segs[i], b'.txn.trace.segs[i])
  {
  }

  /** One successful start. */
  lemma StartEffect(id: TxnId, b: Box, c: Call)
    requires Opens(c, Rec(b)) && Current(b.txn.trace) < |b.txn.trace.segs|
    ensures var t, b' := b.txn.trace, Apply(id, b, c).box;
            var t' := b'.txn.trace;
            var n, p := |t.segs|, Current(t);
            && t'.stack == t.stack + [n] && |t'.segs| == n + 1
            && t'.segs[n].kind == KindOf(c) && t'.segs[n].children == []
            && (forall i :: 0 <= i < n && i != p ==> t'.segs[i] == t.segs[i])
            && t'.segs[p] == t.segs[p].(children := t.segs[p].children + [n])
            && b'.txn.status == b.txn.status
            && n in b'.open && b'.open[n].seg == n && b'.open[n].txn == id
            && forall k :: k in b.open && k < n ==> k in b'.open && b'.open[k] == b.open[k]
  {
  }

  /** One end of the innermost segment. */
  lemma EndEffect(id: TxnId, b: Box, n: SegId, now: nat)
    requires var t := b.txn.trace;
             && n < |t.segs| && |t.stack| > 0 && t.stack[|t.stack| - 1] == n && !t.segs[n].kind.Unknown?
             && n in b.open && b.open[n].seg == n && b.open[n].txn == id
    ensures var t, b' := b.txn.trace, Apply(id, b, EndSegment(n, Some(id), now)).box;
            var t' := b'.txn.trace;
            && t'.stack == t.stack[..|t.stack| - 1] && |t'.segs| == |t.segs|
            && (forall i :: 0 <= i < |t.segs| ==> SameCore(t.segs[i], t'.segs[i]))
            && b'.open == b.open - {n} && b'.txn.status == b.txn.status
  {
    var t := b.txn.trace;
    assert Remove(t.stack, n) == t.stack[..|t.stack| - 1];
  }

  // ---------------------------------------------------------------------
  // Running a bracket structure
  // ---------------------------------------------------------------------

  /** What running f from b does: it hangs under the current segment, everything else stays. */
  ghost predicate Hung(b: Box, b': Box, f: Forest) {
    var t, t' := b.txn.trace, b'.txn.trace;
    var base, p := |t.segs|, Current(t);
    && p < base
    && Rec(b') == RecAfter(f, Rec(b)) && Sane(b')
    && t'.stack == t.stack
    && |t'.segs| == base + Size(f)
    && SameCores(t.segs[p := t.segs[p].(children := t.segs[p].children + Ids(f, base))], t'.segs, 0, base)
    && Mirrors(t'.segs, f, base)
    && (forall k :: k in b.open && k < base ==> k in b'.open && b'.open[k] == b.open[k])
  }

  lemma HungAfterOther(step: (Box, Call) -> Box, id: TxnId, b: Box, b2: Box, f: Forest)
    requires Implements(step, id) && f.Other? && Neutral(f.c, Rec(b)) && Sane(b)
    requires Hung(step(b, f.c), b2, f.rest)
    ensures Hung(b, b2, f)
  {
    var b1 := step(b, f.c);
    assert AgreesAt(step, id, b, f.c);
    NeutralKeepsTrace(id, b, f.c);
    var t, t1, t2 := b.txn.trace, b1.txn.trace, b2.txn.trace;
    forall i | 0 <= i < |t.segs| && i != Current(t) ensures SameCore(t.segs[i], t2.segs[i]) {
      assert SameCore(t.segs[i], t1.segs[i]) && SameCore(t1.segs[i], t2.segs[i]);
    }
    assert SameCore(t.segs[Current(t)], t1.segs[Current(t)]);
  }

  /** Start, inside, end: everything before the new segment n, and n itself. */
  lemma Bracket(step: (Box, Call) -> Box, id: TxnId, b: Box, b2: Box, f: Forest)
    requires Implements(step, id) && f.Nested? && Opens(f.open, Rec(b)) && Sane(b) && Current(b.txn.trace) < |b.txn.trace.segs|
    requires Hung(step(b, f.open), b2, f.inside)
    ensures var n, p, t := |b.txn.trace.segs|, Current(b.txn.trace), b.txn.trace;
            var b3 := step(b2, EndSegment(n, Some(id), f.now));
            var t3 := b3.txn.trace;
            && Rec(b3) == RecAfter(f.inside, Rec(b)) && Sane(b3)
            && t3.stack == t.stack
            && |t3.segs| == n + 1 + Size(f.inside)
            && SameCores(t.segs[p := t.segs[p].(children := t.segs[p].children + [n])], t3.segs, 0, n)
            && t3.segs[n].kind == KindOf(f.open) && t3.segs[n].children == Ids(f.inside, n + 1)
            && Mirrors(t3.segs, f.inside, n + 1)
            && (forall k :: k in b.open && k < n ==> k in b3.open && b3.open[k] == b.open[k])
  {
    var n, t := |b.txn.trace.segs|, b.txn.trace;
    var b1 := step(b, f.open);
    assert AgreesAt(step, id, b, f.open);
    assert AgreesAt(step, id, b2, EndSegment(n, Some(id), f.now));
    StartEffect(id, b, f.open);
    assert Current(b1.txn.trace) == n;
    InnerEnd(id, b1, b2, n, f.inside, f.now);
    assert b1.txn.trace.stack[..|t.stack|] == t.stack;
  }

  /** A bracket and what follows it. */
  lemma HungAround(step: (Box, Call) -> Box, id: TxnId, b: Box, b2: Box, b4: Box, f: Forest)
    requires Implements(step, id) && f.Nested? && Opens(f.open, Rec(b)) && Sane(b) && Current(b.txn.trace) < |b.txn.trace.segs|
    requires Hung(step(b, f.open), b2, f.inside)
    requires Hung(step(b2, EndSegment(|b.txn.trace.segs|, Some(id), f.now)), b4, f.rest)
    ensures Hung(b, b4, f)
  {
    hide Implements, Opens, WellFormed;
    var n, p := |b.txn.trace.segs|, Current(b.txn.trace);
    var b3 := step(b2, EndSegment(n, Some(id), f.now));
    Bracket(step, id, b, b2, f);
    var t, t3, t4 := b.txn.trace, b3.txn.trace, b4.txn.trace;
    var more := Ids(f.rest, |t3.segs|);
    CoresChain(t.segs, t3.segs, t4.segs, n, p, more);
    assert t.segs[p].children + [n] + more == t.segs[p].children + Ids(f, n);
    assert SameCore(t3.segs[n], t4.segs[n]);
    MirrorsFrame(t3.segs, t4.segs, f.inside, n + 1);
  }

  /** Two steps that append to the child list of p, one after the other. */
  lemma CoresChain(ss: seq<Seg>, mid: seq<Seg>, tt: seq<Seg>, n: SegId, p: SegId, more: seq<SegId>)
    requires p < n == |ss| <= |mid|
    requires SameCores(ss[p := ss[p].(children := ss[p].children + [n])], mid, 0, n)
    requires SameCores(mid[p := mid[p].(children := mid[p].children + more)], tt, 0, |mid|)
    ensures SameCores(ss[p := ss[p].(children := ss[p].children + [n] + more)], tt, 0, n)
    ensures SameCores(mid, tt, n, |mid|)
  {
    var ss1, mid1 := ss[p := ss[p].(children := ss[p].children + [n])], mid[p := mid[p].(children := mid[p].children + more)];
    assert SameCore(ss1[p], mid[p]) && SameCore(mid1[p], tt[p]);
    forall i | 0 <= i < n && i != p ensures SameCore(ss[i], tt[i]) {
      assert SameCore(ss1[i], mid[i]) && SameCore(mid1[i], tt[i]);
    }
    forall i | n <= i < |mid| ensures SameCore(mid[i], tt[i]) { assert SameCore(mid1[i], tt[i]); }
  }

  /** Ending segment n after running what is inside it. */
  lemma InnerEnd(id: TxnId, b1: Box, b2: Box, n: SegId, inside: Forest, now: nat)
    requires Current(b1.txn.trace) == n && n + 1 == |b1.txn.trace.segs| && |b1.txn.trace.stack| > 0
    requires !b1.txn.trace.segs[n].kind.Unknown? && b1.txn.trace.segs[n].children == []
    requires n in b1.open && b1.open[n].seg == n && b1.open[n].txn == id
    requires Hung(b1, b2, inside)
    ensures Apply(id, b2, EndSegment(n, Some(id), now)).box.txn.status == b2.txn.status
    ensures var t1 := b1.txn.trace;
            var b3 := Apply(id, b2, EndSegment(n, Some(id), now)).box;
            var t3 := b3.txn.trace;
            && t3.stack == t1.stack[..|t1.stack| - 1]
            && |t3.segs| == n + 1 + Size(inside)
            && SameCores(t1.segs, t3.segs, 0, n)
            && t3.segs[n].kind == t1.segs[n].kind && t3.segs[n].children == Ids(inside, n + 1)
            && Mirrors(t3.segs, inside, n + 1)
            && (forall k :: k in b1.open && k < n ==> k in b3.open && b3.open[k] == b1.open[k])
  {
    var t1, t2 := b1.txn.trace, b2.txn.trace;
    assert SameCore(t1.segs[n].(children := Ids(inside, n + 1)), t2.segs[n]);
    EndEffect(id, b2, n, now);
    var t3 := Apply(id, b2, EndSegment(n, Some(id), now)).box.txn.trace;
    forall i | 0 <= i < n ensures SameCore(t1.segs[i], t3.segs[i]) {
      assert SameCore(t1.segs[i], t2.segs[i]) && SameCore(t2.segs[i], t3.segs[i]);
    }
    assert SameCore(t2.segs[n], t3.segs[n]);
    MirrorsFrame(t2.segs, t3.segs, inside, n + 1);
  }

  lemma {:induction false} RunForest(step: (Box, Call) -> Box, id: TxnId, b: Box, f: Forest)
    requires Implements(step, id)
    requires WellFormed(f, Rec(b)) && Sane(b) && Current(b.txn.trace) < |b.txn.trace.segs|
    ensures Hung(b, Fold(step, b, Flatten(id, f, |b.txn.trace.segs|)), f)
    decreases f
  {
    hide Implements, Fold, Opens, Neutral;
    var base := |b.txn.trace.segs|;
    match f {
      case Done => FoldShort(step, b, []);
      case Other(c, rest) =>
        OtherInRange(step, id, b, c);
        RunForest(step, id, step(b, c), rest);
        FoldCons(step, b, c, Flatten(id, rest, base));
        HungAfterOther(step, id, b, Fold(step, b, Flatten(id, f, base)), f);
      case Nested(open, inside, now, rest) =>
        var e := EndSegment(base, Some(id), now);
        StartInRange(step, id, b, open);
        RunForest(step, id, step(b, open), inside);
        var inner, outer := Flatten(id, inside, base + 1), Flatten(id, rest, base + 1 + Size(inside));
        var b2 := Fold(step, step(b, open), inner);
        EndInRange(step, id, b, b2, f);
        RunForest(step, id, step(b2, e), rest);
        FoldFour(step, b, open, inner, e, outer);
        HungAround(step, id, b, b2, Fold(step, b, Flatten(id, f, base)), f);
    }
  }

  lemma OtherInRange(step: (Box, Call) -> Box, id: TxnId, b: Box, c: Call)
    requires Implements(step, id) && Neutral(c, Rec(b)) && Sane(b) && Current(b.txn.trace) < |b.txn.trace.segs|
    ensures Rec(step(b, c)) == (Rec(b) && !Stops(c)) && Sane(step(b, c))
    ensures var t, t' := b.txn.trace, step(b, c).txn.trace;
            |t'.segs| == |t.segs| && Current(t') == Current(t)
  {
    assert AgreesAt(step, id, b, c);
    NeutralKeepsTrace(id, b, c);
  }

  lemma StartInRange(step: (Box, Call) -> Box, id: TxnId, b: Box, c: Call)
    requires Implements(step, id) && Opens(c, Rec(b)) && Current(b.txn.trace) < |b.txn.trace.segs|
    ensures step(b, c).txn.status == b.txn.status
    ensures var t, t' := b.txn.trace, step(b, c).txn.trace;
            |t'.segs| == |t.segs| + 1 && Current(t') == |t.segs|
  {
    assert AgreesAt(step, id, b, c);
    StartEffect(id, b, c);
  }

  lemma EndInRange(step: (Box, Call) -> Box, id: TxnId, b: Box, b2: Box, f: Forest)
    requires Implements(step, id) && f.Nested? && Opens(f.open, Rec(b)) && Sane(b) && Current(b.txn.trace) < |b.txn.trace.segs|
    requires Hung(step(b, f.open), b2, f.inside)
    ensures var n := |b.txn.trace.segs|;
            var t3 := step(b2, EndSegment(n, Some(id), f.now)).txn.trace;
            |t3.segs| == n + 1 + Size(f.inside) && Current(t3) < |t3.segs|
    ensures var b3 := step(b2, EndSegment(|b.txn.trace.segs|, Some(id), f.now)); Rec(b3) == RecAfter(f.inside, Rec(b)) && Sane(b3)
  {
    Bracket(step, id, b, b2, f);
  }

  // ---------------------------------------------------------------------
  // Every well-nested call sequence is a bracket structure
  // ---------------------------------------------------------------------

  /** Each end closes the innermost open segment, nothing is moved, and nothing stays open.  `rec` says whether the
      transaction records: once it is ignored, a start is just another call. */
  predicate WellNested(id: TxnId, cs: seq<Call>, base: SegId, open: seq<SegId>, rec: bool) {
    if cs == [] then open == []
    else if Opens(cs[0], rec) then WellNested(id, cs[1..], base + 1, open + [base], rec)
    else if cs[0].EndSegment? then
      && open != [] && cs[0].seg == open[|open| - 1] && cs[0].via == Some(id)
      && WellNested(id, cs[1..], base, open[..|open| - 1], rec)
    else Neutral(cs[0], rec) && WellNested(id, cs[1..], base, open, rec && !Stops(cs[0]))
  }

  lemma Glue<T>(cs: seq<T>, f1: seq<T>, r1: seq<T>, f2: seq<T>, r2: seq<T>)
    requires cs != [] && cs[1..] == f1 + r1 && r1 != [] && r1[1..] == f2 + r2
    ensures cs == [cs[0]] + f1 + [r1[0]] + f2 + r2
  {
    assert r1 == [r1[0]] + r1[1..];
    assert cs == [cs[0]] + cs[1..];
  }

  lemma WellNestedEnd(id: TxnId, cs: seq<Call>, base: SegId, open: seq<SegId>, s: SegId, rec: bool)
    requires WellNested(id, cs, base, open + [s], rec) && (cs != [] ==> cs[0].EndSegment?)
    ensures cs != [] && cs[0] == EndSegment(s, Some(id), cs[0].now) && WellNested(id, cs[1..], base, open, rec)
  {
    assert (open + [s])[..|open|] == open;
  }

  /** The longest prefix that stays inside the current segment, and what is left. */
  lemma {:induction false} Parse(id: TxnId, cs: seq<Call>, base: SegId, open: seq<SegId>, rec: bool)
    returns (f: Forest, left: seq<Call>)
    requires WellNested(id, cs, base, open, rec)
    ensures WellFormed(f, rec) && cs == Flatten(id, f, base) + left
    ensures WellNested(id, left, base + Size(f), open, RecAfter(f, rec))
    ensures left != [] ==> left[0].EndSegment?
    decreases |cs|
  {
    hide Neutral;
    if cs == [] || cs[0].EndSegment? {
      f, left := Done, cs;
    } else if Opens(cs[0], rec) {
      var inside, r1 := Parse(id, cs[1..], base + 1, open + [base], rec);
      WellNestedEnd(id, r1, base + 1 + Size(inside), open, base, RecAfter(inside, rec));
      var rest, r2 := Parse(id, r1[1..], base + 1 + Size(inside), open, RecAfter(inside, rec));
      f, left := Nested(cs[0], inside, r1[0].now, rest), r2;
      Glue(cs, Flatten(id, inside, base + 1), r1, Flatten(id, rest, base + 1 + Size(inside)), r2);
    } else {
      var rest, r := Parse(id, cs[1..], base, open, rec && !Stops(cs[0]));
      f, left := Other(cs[0], rest), r;
      assert cs == [cs[0]] + cs[1..];
    }
  }

  /** For every well-nested sequence the segment tree is the nesting of the sequence: the root's children
      are the outermost segments and so on down, in start order, with nothing else in the trace. */
  lemma NestingTree(id: TxnId, errEnabled: bool, now: nat, cs: seq<Call>) returns (f: Forest)
    requires WellNested(id, cs, 1, [], true)
    ensures WellFormed(f, true) && cs == Flatten(id, f, 1)
    ensures var t := Run(id, Fresh(errEnabled, now), cs).txn.trace;
            && |t.segs| == 1 + Size(f)
            && t.segs[ROOT].children == Ids(f, 1)
            && Mirrors(t.segs, f, 1)
            && t.stack == [ROOT]
  {
    var left;
    f, left := Parse(id, cs, 1, [], true);
    assert cs == Flatten(id, f, 1);
    var b := Fresh(errEnabled, now);
    StepImplements(id);
    RunForest(Step(id), id, b, f);
    RunIsFold(Step(id), id, b, cs);
    var t, t' := b.txn.trace, Run(id, b, cs).txn.trace;
    assert SameCore(t.segs[0].(children := Ids(f, 1)), t'.segs[0]);
  }
}
