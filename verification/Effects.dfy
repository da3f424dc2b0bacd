/**
 What each call does, read off the call's own arguments: every field it changes,
 with its new value, and that everything else stays.  Nothing here is said
 through the functions the calls are defined with.
 */
module Effects {
  import opened Common
  import opened SegmentTree
  import opened Metrics
  import opened Naming
  import opened Model
  import opened Invariants

  predicate Starting(c: Call) { c.StartCustom? || c.StartDatastore? || c.StartExternal? }

  predicate NoSlash(text: Option<string>) { text.Some? ==> forall i :: 0 <= i < |text.value| ==> text.value[i] != '/' }

  /** The parameters newrelic_start_*_segment accepts. */
  predicate GoodParameters(c: Call) {
    match c
    case StartCustom(_, _, _, _) => true
    case StartDatastore(ds, _, _) =>
      && ds.Some? && ds.value.product.Some? && NoSlash(ds.value.product) && NoSlash(ds.value.collection)
      && NoSlash(ds.value.operation) && NoSlash(ds.value.host)
    case StartExternal(ext, _, _) => ext.Some? && ext.value.uri.Some? && NoSlash(ext.value.library) && NoSlash(ext.value.procedure)
    case _ => false
  }

  // ---------------------------------------------------------------------
  // Starting a segment
  // ---------------------------------------------------------------------

  lemma SlashFree(text: Option<string>)
    ensures ValidParam(text) <==> NoSlash(text)
  {
    if text.Some? && '/' in text.value {
      var i :| 0 <= i < |text.value| && text.value[i] == '/';
    }
  }

  lemma GoodIsValid(c: Call)
    ensures c.StartDatastore? ==> (ValidDatastore(c.ds) <==> GoodParameters(c))
    ensures c.StartExternal? ==> (ValidExternal(c.ext) <==> GoodParameters(c))
  {
    hide ValidParam, NoSlash;
    match c
    case StartDatastore(ds, _, _) =>
      if ds.Some? {
        SlashFree(ds.value.product);
        SlashFree(ds.value.collection);
        SlashFree(ds.value.operation);
        SlashFree(ds.value.host);
      }
    case StartExternal(ext, _, _) =>
      if ext.Some? {
        SlashFree(ext.value.library);
        SlashFree(ext.value.procedure);
      }
    case _ =>
  }

  /** A start succeeds exactly when axiom has memory, the transaction records and the parameters are good; then the
      handle is the next number, and otherwise nothing changes and a custom start crashes where the others return NULL. */
  lemma StartOutcome(id: TxnId, b: Box, c: Call)
    requires Starting(c)
    ensures var r, n := Apply(id, b, c), |b.txn.trace.segs|;
            && (r.ret == Handle(Some(n)) <==> c.ok && b.txn.status.recording && GoodParameters(c))
            && (r.ret != Handle(Some(n)) ==> r == Result(b, if c.StartCustom? then Crash else Handle(None)))
  {
    hide GoodParameters, ValidDatastore, ValidExternal;
    GoodIsValid(c);
    if c.StartCustom? { CustomIsGood(c); }
  }

  lemma CustomIsGood(c: Call)
    requires c.StartCustom?
    ensures GoodParameters(c)
  {
  }

  /** The new segment: last child of the top of the parent stack, of the kind that was asked for, started now, not
      stopped, not ended; on top of the stack from now on. */
  lemma StartEffect(id: TxnId, b: Box, c: Call)
    requires Inv(id, b) && Starting(c)
    ensures var r, t := Apply(id, b, c), b.txn.trace;
            var n, t' := |t.segs|, r.box.txn.trace;
            r.ret == Handle(Some(n)) ==>
              && |t.stack| > 0 && var top := t.stack[|t.stack| - 1];
              && top < n && |t'.segs| == n + 1
              && t'.segs[n].parent == Some(top) && t'.segs[n].children == []
              && t'.segs[n].kind == (if c.StartCustom? then Custom else if c.StartDatastore? then Datastore else External)
              && t'.segs[n].start == c.now && t'.segs[n].stop == 0 && t'.segs[n].ends == 0 && t'.segs[n].metrics == []
              && t'.segs[top] == t.segs[top].(children := t.segs[top].children + [n])
              && (forall i :: 0 <= i < n && i != top ==> t'.segs[i] == t.segs[i])
              && t'.stack == t.stack + [n] && t'.reports == t.reports
              && r.box.txn == b.txn.(trace := t')
  {
    hide ValidDatastore, ValidExternal, MetricName, Tree;
    CurrentInRange(b.txn.trace);
  }

  /** Its handle. */
  lemma StartHandle(id: TxnId, b: Box, c: Call)
    requires Starting(c)
    ensures var r, n := Apply(id, b, c), |b.txn.trace.segs|;
            r.ret == Handle(Some(n)) ==>
              && r.box.open.Keys == b.open.Keys + {n}
              && (forall s :: s in b.open && s != n ==> r.box.open[s] == b.open[s])
              && r.box.open[n].seg == n && r.box.open[n].txn == id && (r.box.open[n].locked <==> c.StartCustom?)
              && (c.StartCustom? <==> r.box.open[n].payload.NoPayload?)
              && (c.StartDatastore? <==> r.box.open[n].payload.DatastorePayload?)
              && (c.StartExternal? <==> r.box.open[n].payload.ExternalPayload?)
  {
    hide ValidDatastore, ValidExternal, MetricName, StartSeg;
  }

  /** The text given, unless it is missing or has a slash in it. */
  function Given(text: Option<string>, otherwise: string): string {
    if text.Some? && NoSlash(text) then text.value else otherwise
  }

  predicate NamedAfter(n: string, c: Call)
    requires c.StartCustom?
  {
    && n == Given(c.category, "Custom") + "/" + Given(c.name, "Unnamed Segment")
    && Count(n, '/') == 1 && '/' in n
    && Split(n) == (Given(c.category, "Custom"), Given(c.name, "Unnamed Segment"))
  }

  lemma GivenIsEffective(text: Option<string>, otherwise: string)
    ensures Given(text, otherwise) == Effective(text, otherwise)
  {
    SlashFree(text);
  }

  /** A custom segment is called category/name, and both parts can be read back. */
  lemma StartName(id: TxnId, b: Box, c: Call)
    requires Inv(id, b) && c.StartCustom?
    ensures var r, n := Apply(id, b, c), |b.txn.trace.segs|;
            r.ret == Handle(Some(n)) ==> n < |r.box.txn.trace.segs| && NamedAfter(r.box.txn.trace.segs[n].name, c)
  {
    hide Given, Count, Split, Tree;
    CurrentInRange(b.txn.trace);
    GivenIsEffective(c.category, "Custom");
    GivenIsEffective(c.name, "Unnamed Segment");
    MetricNameRoundTrip(c.name, c.category);
  }

  /** The text given, or "unknown" for none or an empty one. */
  predicate KnownAs(given: Option<string>, text: string) {
    if given.Some? && |given.value| > 0 then text == given.value else text == "unknown"
  }

  /** A datastore payload against the parameters it was made from. */
  predicate HoldsDatastore(p: Payload, d: DatastoreParams) {
    && p.DatastorePayload?
    && d.product.Some? && p.product == (if |d.product.value| == 0 then "Other" else d.product.value)
    && p.collection == (if d.collection.Some? then d.collection.value else "other")
    && p.operation == (if d.operation.Some? then d.operation.value else "other")
    && KnownAs(d.host, p.host) && KnownAs(d.port, p.port) && KnownAs(d.database, p.database)
    && p.query == d.query
  }

  predicate HoldsExternal(p: Payload, e: ExternalParams) {
    p.ExternalPayload? && Some(p.uri) == e.uri && p.library == e.library && p.procedure == e.procedure
  }

  /** The payload of a typed handle holds the parameters, each in its own place. */
  lemma StartPayload(id: TxnId, b: Box, c: Call)
    requires c.StartDatastore? || c.StartExternal?
    ensures var r, n := Apply(id, b, c), |b.txn.trace.segs|;
            r.ret == Handle(Some(n)) ==>
              && n in r.box.open
              && (c.StartDatastore? ==> c.ds.Some? && HoldsDatastore(r.box.open[n].payload, c.ds.value))
              && (c.StartExternal? ==> c.ext.Some? && HoldsExternal(r.box.open[n].payload, c.ext.value))
  {
    hide ValidParam, StartSeg;
  }

  /** A new transaction: the root alone, on the parent stack, recording, nothing recorded yet. */
  lemma FreshMeans(errEnabled: bool, now: nat)
    ensures var b := Fresh(errEnabled, now);
            && b.open == map[] && b.txn.trace.stack == [0] && b.txn.trace.reports == [] && |b.txn.trace.segs| == 1
            && b.txn.trace.segs[0].parent.None? && b.txn.trace.segs[0].children == [] && b.txn.trace.segs[0].stop == 0
            && b.txn.status.errEnabled == errEnabled && b.txn.status.recording
            && !b.txn.status.ignored && !b.txn.status.ended && b.txn.status.error.None? && b.txn.status.wire == []
            && b.txn.metrics == map[] && b.txn.data.attributes == map[] && b.txn.data.events == [] && b.txn.data.timing.None?
  {
  }

  // ---------------------------------------------------------------------
  // Moving a segment
  // ---------------------------------------------------------------------

  /** zs is xs without its one s, in the same order. */
  ghost predicate Dropped(xs: seq<SegId>, s: SegId, zs: seq<SegId>) {
    exists i: nat :: DroppedAt(xs, s, zs, i)
  }

  predicate DroppedAt(xs: seq<SegId>, s: SegId, zs: seq<SegId>, i: nat) {
    i < |xs| && xs[i] == s && zs == xs[..i] + xs[i + 1..] && s !in zs
  }

  lemma {:induction false} RemoveDrops(xs: seq<SegId>, s: SegId)
    requires NoDup(xs) && s in xs
    ensures Dropped(xs, s, Remove(xs, s))
  {
    hide Remove, NoDup;
    RemoveIsSetMinus(xs, s);
    var i := RemovedAt(xs, s);
    assert DroppedAt(xs, s, Remove(xs, s), i);
  }

  lemma {:induction false} RemovedAt(xs: seq<SegId>, s: SegId) returns (i: nat)
    requires s in xs
    ensures i < |xs| && xs[i] == s && Remove(xs, s) == xs[..i] + xs[i + 1..]
    decreases |xs|
  {
    var n := |xs| - 1;
    if xs[n] == s {
      i := n;
      assert xs[n + 1..] == [];
    } else {
      var front := xs[..n];
      assert s in front by { assert xs == front + [xs[n]]; }
      i := RemovedAt(front, s);
      CutLast(xs, i);
    }
  }

  lemma CutLast(xs: seq<SegId>, i: nat)
    requires i < |xs| - 1
    ensures var n := |xs| - 1; xs[..n][..i] + xs[..n][i + 1..] + [xs[n]] == xs[..i] + xs[i + 1..]
  {
    var n := |xs| - 1;
    assert xs[i + 1..] == xs[..n][i + 1..] + [xs[n]];
  }

  /** s went from the children of q to the end of the children of p, and nothing else about any segment changed. */
  ghost predicate MovedTo(ss: seq<Seg>, tt: seq<Seg>, s: SegId, q: SegId, p: SegId)
    requires s < |ss| && q < |ss| && p < |ss|
  {
    && |tt| == |ss| && q != p && s != p && s != q
    && tt[p] == ss[p].(children := ss[p].children + [s])
    && tt[q] == ss[q].(children := tt[q].children) && Dropped(ss[q].children, s, tt[q].children)
    && tt[s] == ss[s].(parent := Some(p))
    && forall i :: 0 <= i < |ss| && i != p && i != q && i != s ==> tt[i] == ss[i]
  }

  lemma LinkMoves(ss: seq<Seg>, s: SegId, p: SegId)
    requires Tree(ss) && 0 < s < |ss| && p < |ss| && s != p && ss[s].parent != Some(p)
    ensures ss[s].parent.Some? && ss[s].parent.value < |ss| && MovedTo(ss, Link(ss, s, p), s, ss[s].parent.value, p)
  {
    var q := ss[s].parent.value;
    assert NodeAgrees(ss, s) && NodeAgrees(ss, q);
    assert q != s by { NoCycle(ss, s, 1); }
    RemoveDrops(ss[q].children, s);
  }

  /** An accepted reparent either finds the parent it asks for, and changes no segment, or moves the segment to the
      end of the new parent's children.  Stack, reports, status and data stay; a refused one changes no segment. */
  lemma MoveEffect(id: TxnId, b: Box, c: Call)
    requires Inv(id, b) && Legal(b, c) && (c.SetParent? || c.SetParentRoot?)
    ensures var p := if c.SetParent? then c.par else 0;
            var r, ss := Apply(id, b, c), b.txn.trace.segs;
            && r.ret.Bool? && r.box.open == b.open && r.box.txn.status == b.txn.status && r.box.txn.data == b.txn.data
            && r.box.txn.trace.stack == b.txn.trace.stack && r.box.txn.trace.reports == b.txn.trace.reports
            && c.seg < |ss| && ss[c.seg].parent.Some? && ss[c.seg].parent.value < |ss| && p < |ss|
            && (r.ret == Bool(true) && ss[c.seg].parent.value != p ==>
                  MovedTo(ss, r.box.txn.trace.segs, c.seg, ss[c.seg].parent.value, p))
            && (r.ret == Bool(false) || ss[c.seg].parent.value == p ==> r.box.txn.trace.segs == ss)
  {
    hide MovedTo, Tree, Link;
    var p := if c.SetParent? then c.par else ROOT;
    assert HandleOk(id, b, c.seg);
    if c.SetParent? { assert HandleOk(id, b, c.par); }
    HasParent(b.txn.trace.segs, c.seg);
    if c.seg != p && b.txn.trace.segs[c.seg].parent != Some(p) { LinkMoves(b.txn.trace.segs, c.seg, p); }
  }

  lemma HasParent(ss: seq<Seg>, s: SegId)
    requires Tree(ss) && 0 < s < |ss|
    ensures ss[s].parent.Some? && ss[s].parent.value < |ss|
  {
  }

  // ---------------------------------------------------------------------
  // Timing and ending a segment
  // ---------------------------------------------------------------------

  /** Only the two times of the segment change; the sum is taken in 64 bits. */
  lemma TimingEffect(id: TxnId, b: Box, c: Call)
    requires Inv(id, b) && Legal(b, c) && c.SetTiming?
    ensures var r, t := Apply(id, b, c), b.txn.trace;
            && r.ret == Bool(true) && r.box.open == b.open && c.seg < |t.segs|
            && r.box.txn == b.txn.(trace := t.(segs := t.segs[c.seg := t.segs[c.seg].(
                 start := c.start, stop := (c.start + c.duration) % 18446744073709551616)]))
  {
    hide Tree;
    assert HandleOk(id, b, c.seg);
  }

  /** The microseconds a segment lasted; none when it stops before it starts. */
  function Lasted(g: Seg): real {
    if g.start <= g.stop then (g.stop - g.start) as real else 0.0
  }

  /** What ending s on its own transaction does to the segments: a missing stop time becomes now, the segment is ended
      once and leaves the parent stack, whose order stays; a custom segment gets a metric of its own name. */
  lemma EndEffect(id: TxnId, b: Box, c: Call)
    requires Inv(id, b) && Legal(b, c) && c.EndSegment? && c.via == Some(id)
    ensures var r, t, s := Apply(id, b, c), b.txn.trace, c.seg;
            var t' := r.box.txn.trace;
            && s < |t.segs| && |t'.segs| == |t.segs|
            && t'.segs[s] == t.segs[s].(stop := if t.segs[s].stop == 0 then c.now else t.segs[s].stop, ends := 1,
                 metrics := if t.segs[s].kind.Custom? then t.segs[s].metrics + [t.segs[s].name] else t.segs[s].metrics)
            && (forall i :: 0 <= i < |t.segs| && i != s ==> t'.segs[i] == t.segs[i])
            && (if s in t.stack then Dropped(t.stack, s, t'.stack) else t'.stack == t.stack)
            && t'.reports == (if t.segs[s].kind.Custom? then t.reports else t.reports + [Report(s, b.open[s].payload)])
            && r.box.txn.status == b.txn.status && r.box.txn.data == b.txn.data
            && r.box.open == b.open - {s} && r.ret == Bool(true)
  {
    hide Tree, EndSamples, Dropped;
    assert HandleOk(id, b, c.seg);
    if c.seg in b.txn.trace.stack { RemoveDrops(b.txn.trace.stack, c.seg); } else { RemoveAbsent(b.txn.trace.stack, c.seg); }
  }

  /** Ended through another transaction, or none, the handle is gone and nothing else has happened. */
  lemma WrongEndEffect(id: TxnId, b: Box, c: Call)
    requires Inv(id, b) && Legal(b, c) && c.EndSegment? && c.via != Some(id)
    ensures Apply(id, b, c) == Result(b.(open := b.open - {c.seg}), Bool(false))
  {
    hide Tree;
    assert HandleOk(id, b, c.seg);
  }

  // ---------------------------------------------------------------------
  // The metric table
  // ---------------------------------------------------------------------

  function Total(t: Table, name: string): real { if name in t then t[name].total else 0.0 }

  function CountIn(t: Table, name: string): nat { if name in t then t[name].count else 0 }

  /** One more value v under `name`, and nothing under any other. */
  ghost predicate Gains(t: Table, t': Table, name: string, v: real) {
    && Total(t', name) == Total(t, name) + v && CountIn(t', name) == CountIn(t, name) + 1
    && forall other :: other != name ==> Get(t', other) == Get(t, other)
  }

  lemma RecordGains(t: Table, name: string, v: real)
    ensures Gains(t, Record(t, Sample(name, v)), name, v)
  {
  }

  /** Two more values, under different names. */
  ghost predicate GainsTwo(t: Table, t': Table, a: string, b: string, v: real) {
    && a != b
    && Total(t', a) == Total(t, a) + v && CountIn(t', a) == CountIn(t, a) + 1
    && Total(t', b) == Total(t, b) + v && CountIn(t', b) == CountIn(t, b) + 1
    && forall other :: other != a && other != b ==> Get(t', other) == Get(t, other)
  }

  lemma RecordTwoGains(t: Table, a: string, b: string, v: real)
    requires a != b
    ensures GainsTwo(t, RecordAll(t, [Sample(a, v), Sample(b, v)]), a, b, v)
  {
    hide Record;
    var one := Record(t, Sample(a, v));
    FoldShort(Record, t, [Sample(a, v)]);
    FoldSnoc(Record, t, [Sample(a, v)], Sample(b, v));
    assert [Sample(a, v)] + [Sample(b, v)] == [Sample(a, v), Sample(b, v)];
    RecordGains(t, a, v);
    RecordGains(one, b, v);
    assert Get(one, b) == Get(t, b) && Get(Record(one, Sample(b, v)), a) == Get(one, a);
  }

  /** The name of the rollup of one product. */
  function ProductRollup(product: string): string { "Datastore/" + ProductName(product) + "/all" }

  /** Ending a datastore segment adds how long it lasted under Datastore/all and under its product's name, ending an
      external one under External/all, ending a custom one nothing. */
  lemma EndTotals(id: TxnId, b: Box, c: Call)
    requires Inv(id, b) && Legal(b, c) && c.EndSegment? && c.via == Some(id)
    ensures var r, s, t := Apply(id, b, c), c.seg, b.txn.metrics;
            && s < |b.txn.trace.segs| && s < |r.box.txn.trace.segs|
            && var d := Lasted(r.box.txn.trace.segs[s]);
            match b.txn.trace.segs[s].kind
            case Datastore => b.open[s].payload.DatastorePayload?
                              && GainsTwo(t, r.box.txn.metrics, "Datastore/all", ProductRollup(b.open[s].payload.product), d)
            case External => Gains(t, r.box.txn.metrics, "External/all", d)
            case _ => r.box.txn.metrics == t
  {
    hide Tree, ProductName, Gains, GainsTwo, Record;
    assert HandleOk(id, b, c.seg);
    var w, t := b.open[c.seg], b.txn.metrics;
    var g := Apply(id, b, c).box.txn.trace.segs[c.seg];
    assert g.kind == b.txn.trace.segs[c.seg].kind && Lasted(g) == Duration(g) as real;
    if g.kind.Datastore? {
      var product := ProductRollup(w.payload.product);
      assert |product| > |"Datastore/all"|;
      RecordTwoGains(t, "Datastore/all", product, Lasted(g));
    } else if g.kind.External? {
      FoldShort(Record, t, [Sample("External/all", Lasted(g))]);
      RecordGains(t, "External/all", Lasted(g));
    }
  }

  /** Equal but for the case of the letters A to Z. */
  predicate SameIgnoringCase(a: string, b: string) {
    |a| == |b| && forall i :: 0 <= i < |a| ==> SameLetter(a[i], b[i])
  }

  predicate SameLetter(x: char, y: char) {
    || x == y
    || ('A' <= x <= 'Z' && 'a' <= y <= 'z' && y as int == x as int + 32)
    || ('A' <= y <= 'Z' && 'a' <= x <= 'z' && x as int == y as int + 32)
  }

  lemma LowerIsCase(a: string, b: string)
    ensures Lower(a) == Lower(b) <==> SameIgnoringCase(a, b)
  {
    forall i | 0 <= i < |a| && i < |b| ensures LowerChar(a[i]) == LowerChar(b[i]) <==> SameLetter(a[i], b[i]) {
      LowerCharIsCase(a[i], b[i]);
    }
    if Lower(a) == Lower(b) {
      assert |a| == |Lower(a)| == |b|;
      forall i | 0 <= i < |a| ensures SameLetter(a[i], b[i]) { assert Lower(a)[i] == Lower(b)[i]; }
    }
  }

  lemma LowerCharIsCase(x: char, y: char)
    ensures LowerChar(x) == LowerChar(y) <==> SameLetter(x, y)
  {
  }

  /** The products axiom knows. */
  const KNOWN: set<string> := {"MongoDB", "Memcached", "MySQL", "Redis", "MSSQL", "Oracle", "Postgres", "SQLite",
                               "Firebird", "ODBC", "Sybase", "Informix", "PDO"}

  lemma {:induction false} SpelledMeans(products: seq<string>, product: string)
    ensures var name := Spelled(products, product);
            || (name in products && SameIgnoringCase(name, product))
            || (name == product && forall q :: q in products ==> !SameIgnoringCase(q, product))
    decreases |products|
  {
    hide Lower, SameIgnoringCase;
    if products != [] {
      LowerIsCase(products[0], product);
      if Lower(products[0]) != Lower(product) { SpelledMeans(products[1..], product); }
    }
  }

  /** A product is called what axiom calls it, if it is known in any case, and otherwise what the client calls it. */
  lemma ProductMeans(product: string)
    ensures var name := ProductName(product);
            || (name in KNOWN && SameIgnoringCase(name, product))
            || (name == product && forall q :: q in KNOWN ==> !SameIgnoringCase(q, product))
  {
    hide SameIgnoringCase;
    SpelledMeans(PRODUCTS, product);
    assert forall q :: q in PRODUCTS <==> q in KNOWN;
  }

  // ---------------------------------------------------------------------
  // Calls on the transaction
  // ---------------------------------------------------------------------

  const API := "Supportability/C/api/"

  /** The supportability counter of the call, none for a segment moved to itself. */
  lemma CountEffect(id: TxnId, b: Box, c: Call)
    requires c.SetParent? || c.SetParentRoot? || c.SetTxnTiming?
    ensures var t, t' := b.txn.metrics, Apply(id, b, c).box.txn.metrics;
            match c
            case SetParent(s, p) => if s == p then t' == t else Gains(t, t', API + "set_segment_parent", 0.0)
            case SetParentRoot(_) => Gains(t, t', API + "set_segment_parent_root", 0.0)
            case SetTxnTiming(_, _) => Gains(t, t', API + "set_transaction_timing", 0.0)
  {
    hide Gains, Record;
    RecordGains(b.txn.metrics, API + "set_segment_parent", 0.0);
    RecordGains(b.txn.metrics, API + "set_segment_parent_root", 0.0);
    RecordGains(b.txn.metrics, API + "set_transaction_timing", 0.0);
  }

  lemma TxnTimingEffect(id: TxnId, b: Box, c: Call)
    requires c.SetTxnTiming?
    ensures var r := Apply(id, b, c);
            && r.ret == Bool(true) && r.box.open == b.open
            && r.box.txn == b.txn.(metrics := r.box.txn.metrics, data := b.txn.data.(timing := Some((c.start, c.duration))))
  {
  }

  /** An error is retained exactly when errors are enabled, the transaction records, message and class are there and not
      empty, and no error of higher priority is held; it is then the error held, message and class as given. */
  lemma NoticeEffect(id: TxnId, b: Box, c: Call)
    requires c.NoticeError?
    ensures var r, st := Apply(id, b, c), b.txn.status;
            var st' := r.box.txn.status;
            && r.ret == Void && r.box == b.(txn := b.txn.(status := st.(error := st'.error)))
            && (if st.errEnabled && st.recording && c.message.Some? && |c.message.value| > 0
                   && c.class_.Some? && |c.class_.value| > 0
                   && (st.error.None? || st.error.value.priority <= c.priority)
                then st'.error.Some? && st'.error.value.priority == c.priority
                     && Some(st'.error.value.message) == c.message && Some(st'.error.value.class_) == c.class_
                else st'.error == st.error)
  {
  }

  lemma AttributeEffect(id: TxnId, b: Box, c: Call)
    requires c.AddAttribute?
    ensures var r := Apply(id, b, c);
            if c.key.Some? && c.value.Some? && c.ok then
              && r.ret == Bool(true)
              && r.box == b.(txn := b.txn.(data := b.txn.data.(attributes := b.txn.data.attributes[c.key.value := c.value.value])))
            else r == Result(b, Bool(false))
  {
  }

  /** A custom metric is taken exactly when it has a name, is finite and the transaction records; milliseconds become
      whole microseconds. */
  lemma MetricEffect(id: TxnId, b: Box, c: Call)
    requires c.RecordMetric?
    ensures var r := Apply(id, b, c);
            if c.metric.Some? && c.ok && b.txn.status.recording then
              && r.ret == Bool(true) && r.box == b.(txn := b.txn.(metrics := r.box.txn.metrics))
              && Gains(b.txn.metrics, r.box.txn.metrics, c.metric.value, (1000.0 * c.sample).Floor as real)
            else r == Result(b, Bool(false))
  {
    hide Gains, Record;
    if c.metric.Some? { RecordGains(b.txn.metrics, c.metric.value, (1000.0 * c.sample).Floor as real); }
  }

  /** The transaction gets the event as it is, exactly when axiom keeps it and the transaction records. */
  lemma EventEffect(id: TxnId, b: Box, c: Call)
    requires c.RecordEvent?
    ensures var r := Apply(id, b, c);
            && r.ret == Void && r.box == b.(txn := b.txn.(data := b.txn.data.(events := r.box.txn.data.events)))
            && r.box.txn.data.events == (if c.ok && b.txn.status.recording then b.txn.data.events + [c.record] else b.txn.data.events)
  {
  }

  lemma IgnoreEffect(id: TxnId, b: Box)
    ensures Apply(id, b, Ignore) == Result(b.(txn := b.txn.(status := b.txn.status.(ignored := true, recording := false))), Bool(true))
  {
  }

  /** The end of a live transaction; on an ended one, whose handle is NULL, nothing happens. */
  lemma EndTxnEffect(id: TxnId, b: Box, c: Call)
    requires c.EndTxn?
    ensures var r, st := Apply(id, b, c), b.txn.status;
            if st.ended then r == Result(b, Bool(false))
            else
              var ignored := st.ignored || c.ruleIgnores;
              && r.ret == Bool(ignored || c.sent)
              && r.box == b.(txn := b.txn.(metrics := r.box.txn.metrics, status := st.(ended := true, recording := false,
                   ignored := ignored, wire := if ignored then st.wire else st.wire + [c.sent])))
              && Gains(b.txn.metrics, r.box.txn.metrics, "Supportability/C/NewrelicVersion/1.3.0", 0.0)
  {
    hide Gains, Record;
    RecordGains(b.txn.metrics, "Supportability/C/NewrelicVersion/1.3.0", 0.0);
    assert VERSION_METRIC == "Supportability/C/NewrelicVersion/1.3.0";
  }

  /** Calls on the transaction itself touch no segment and no handle. */
  lemma QuietEffect(id: TxnId, b: Box, c: Call)
    requires !Starting(c) && !c.SetParent? && !c.SetParentRoot? && !c.SetTiming? && !c.EndSegment?
    ensures Apply(id, b, c).box.txn.trace == b.txn.trace && Apply(id, b, c).box.open == b.open
  {
  }
}
