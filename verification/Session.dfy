/**
 The API calls as in-place code: one transaction, its lock, the global segment
 mutex and the C heap.  Each method is proved to do what Model says its call
 does, with every lock released and every block accounted for on every exit.
 */
module Session {
  import opened Common
  import opened SegmentTree
  import opened Metrics
  import opened Naming
  import opened Model
  import opened Invariants
  import opened Ownership
  import opened Memory
  import opened Axiom

  // ---------------------------------------------------------------------
  // What a wrapper looks like in memory
  // ---------------------------------------------------------------------

  function Optionally(m: map<Field, string>, f: Field, text: Option<string>): map<Field, string> {
    if text.Some? then m[f := text.value] else m
  }

  /** The strings a wrapper with this payload owns. */
  function TextsOf(p: Payload): map<Field, string> {
    match p
    case NoPayload => map[]
    case DatastorePayload(product, collection, operation, host, port, database, query) =>
      Optionally(map[Collection := collection, Operation := operation, Product := product],
                 Sql, query)[Host := host][Port := port][Database := database]
    case ExternalPayload(uri, library, procedure) =>
      Optionally(Optionally(map[Uri := uri], Library, library), Procedure, procedure)
  }

  function ImageFor(w: Wrapper): Image {
    Image(w.seg, w.txn, w.locked, TextsOf(w.payload))
  }

  function Imaged(open: map<SegId, Wrapper>): map<SegId, Image> {
    map s | s in open :: ImageFor(open[s])
  }

  /** The part of a process-wide map that belongs to one transaction. */
  function Mine<V>(m: map<HandleId, V>, id: TxnId): map<SegId, V> {
    map h | h in m && h.t == id :: h.s := m[h]
  }

  /** Nothing of the other transactions changed. */
  ghost predicate OthersSame<V(!new)>(m: map<HandleId, V>, m': map<HandleId, V>, id: TxnId) {
    forall h: HandleId :: h.t != id ==> Get(m', h) == Get(m, h)
  }

  lemma MineHas<V>(m: map<HandleId, V>, id: TxnId, s: SegId)
    ensures Get(Mine(m, id), s) == Get(m, HandleId(id, s))
  {
  }

  lemma MineAt<V(!new)>(m: map<HandleId, V>, id: TxnId, s: SegId, v: V)
    ensures Mine(m[HandleId(id, s) := v], id) == Mine(m, id)[s := v]
  {
    var a, b := Mine(m[HandleId(id, s) := v], id), Mine(m, id)[s := v];
    forall x ensures Get(a, x) == Get(b, x) {
      MineHas(m, id, x);
      MineHas(m[HandleId(id, s) := v], id, x);
    }
    SameMaps(a, b);
  }

  lemma MineLess<V(!new)>(m: map<HandleId, V>, id: TxnId, s: SegId)
    ensures Mine(m - {HandleId(id, s)}, id) == Mine(m, id) - {s}
  {
    var a, b := Mine(m - {HandleId(id, s)}, id), Mine(m, id) - {s};
    forall x ensures Get(a, x) == Get(b, x) {
      MineHas(m, id, x);
      MineHas(m - {HandleId(id, s)}, id, x);
    }
    SameMaps(a, b);
  }

  lemma MineOfOthers<V(!new)>(m: map<HandleId, V>, m': map<HandleId, V>, id: TxnId, other: TxnId)
    requires OthersSame(m, m', id) && other != id
    ensures Mine(m', other) == Mine(m, other)
  {
    var a, b := Mine(m', other), Mine(m, other);
    forall x ensures Get(a, x) == Get(b, x) {
      MineHas(m, other, x);
      MineHas(m', other, x);
      assert Get(m', HandleId(other, x)) == Get(m, HandleId(other, x));
    }
    SameMaps(a, b);
  }

  lemma SameMaps<K(!new), V(!new)>(a: map<K, V>, b: map<K, V>)
    requires forall x :: Get(a, x) == Get(b, x)
    ensures a == b
  {
    forall x ensures x in a <==> x in b { assert Get(a, x) == Get(b, x); }
    forall x | x in a ensures a[x] == b[x] { assert Get(a, x) == Get(b, x); }
  }

  /** The memory determines the wrapper, up to the empty payload of a custom segment. */
  lemma TextsDeterminePayload(p: Payload, q: Payload)
    requires TextsOf(p) == TextsOf(q)
    ensures p == q
  {
    var m := TextsOf(p);
    assert p.DatastorePayload? <==> Product in m;
    assert p.ExternalPayload? <==> Uri in m;
    assert q.DatastorePayload? <==> Product in m;
    assert q.ExternalPayload? <==> Uri in m;
    if p.DatastorePayload? {
      FieldsOf(p);
      FieldsOf(q);
    } else if p.ExternalPayload? {
      assert m[Uri] == p.uri && Get(m, Library) == p.library && Get(m, Procedure) == p.procedure;
      assert m[Uri] == q.uri && Get(m, Library) == q.library && Get(m, Procedure) == q.procedure;
    }
  }

  lemma FieldsOf(p: Payload)
    requires p.DatastorePayload?
    ensures var m := TextsOf(p);
            && DATASTORE_FIELDS - {Sql} <= m.Keys && Get(m, Sql) == p.query
            && p == DatastorePayload(m[Product], m[Collection], m[Operation], m[Host], m[Port], m[Database], p.query)
  {
  }

  lemma ImagedAt(open: map<SegId, Wrapper>, s: SegId, w: Wrapper)
    ensures Imaged(open[s := w]) == Imaged(open)[s := ImageFor(w)]
    ensures Imaged(open - {s}) == Imaged(open) - {s}
  {
  }

  const DATASTORE_FIELDS := {Collection, Operation, Sql, Product, Host, Port, Database}
  const EXTERNAL_FIELDS := {Uri, Library, Procedure}

  lemma VariantFields(p: Payload)
    ensures p.NoPayload? ==> TextsOf(p) == map[]
    ensures p.DatastorePayload? ==> TextsOf(p) - DATASTORE_FIELDS == map[]
    ensures p.ExternalPayload? ==> TextsOf(p) - EXTERNAL_FIELDS == map[]
  {
  }

  // ---------------------------------------------------------------------
  // Arguments that point to the caller's buffers
  // ---------------------------------------------------------------------

  datatype DatastoreArgs = DatastoreArgs(product: Ptr, collection: Ptr, operation: Ptr, host: Ptr, port: Ptr,
                                         database: Ptr, query: Ptr)

  datatype ExternalArgs = ExternalArgs(uri: Ptr, library: Ptr, procedure: Ptr)

  function Arg(callers: map<Ptr, string>, q: Ptr): Option<string> {
    if q == NULL then None else Get(callers, q)
  }

  predicate GoodArg(callers: map<Ptr, string>, q: Ptr) { q == NULL || q in callers }

  function DatastoreAt(callers: map<Ptr, string>, a: DatastoreArgs): DatastoreParams {
    DatastoreParams(Arg(callers, a.product), Arg(callers, a.collection), Arg(callers, a.operation),
                    Arg(callers, a.host), Arg(callers, a.port), Arg(callers, a.database), Arg(callers, a.query))
  }

  function ExternalAt(callers: map<Ptr, string>, a: ExternalArgs): ExternalParams {
    ExternalParams(Arg(callers, a.uri), Arg(callers, a.library), Arg(callers, a.procedure))
  }

  /** Each argument is the string its own pointer points to, or missing for NULL. */
  lemma ArgumentsMean(callers: map<Ptr, string>, d: DatastoreArgs, e: ExternalArgs)
    ensures var p, q := DatastoreAt(callers, d), ExternalAt(callers, e);
            && PointsTo(callers, d.product, p.product) && PointsTo(callers, d.collection, p.collection)
            && PointsTo(callers, d.operation, p.operation) && PointsTo(callers, d.host, p.host)
            && PointsTo(callers, d.port, p.port) && PointsTo(callers, d.database, p.database)
            && PointsTo(callers, d.query, p.query)
            && PointsTo(callers, e.uri, q.uri) && PointsTo(callers, e.library, q.library)
            && PointsTo(callers, e.procedure, q.procedure)
  {
  }

  predicate PointsTo(callers: map<Ptr, string>, q: Ptr, text: Option<string>) {
    if q == 0 then text.None? else q in callers ==> text == Some(callers[q])
  }

  // ---------------------------------------------------------------------
  // The calls
  // ---------------------------------------------------------------------

  /** newrelic_txn_t with the process state its calls touch. */
  class Transaction {
    const id: TxnId
    const txn: AxiomTxn
    const heap: Heap
    var lock: bool          // transaction->lock is held
    ghost var box: Box      // what Model says the state is

    /** The real state is what box says, and box is well formed. */
    ghost predicate Coupled()
      reads this, txn, heap
    {
      && heap.Valid() && Mine(heap.hs, id).Keys == box.open.Keys
      && Mine(heap.View(), id) == Imaged(box.open)
      && txn.Value() == box.txn
      && Inv(id, box)
    }

    ghost predicate Valid()
      reads this, txn, heap
    {
      Coupled() && !lock && !heap.mutex
    }

    constructor (id: TxnId, errEnabled: bool, now: nat, heap: Heap)
      requires heap.Valid() && !heap.mutex && Mine(heap.hs, id) == map[]
      ensures this.id == id && this.heap == heap && fresh(txn)
      ensures Valid() && box == Fresh(errEnabled, now)
    {
      hide Owned, Images, CallersOf, Mine, Imaged, Inv;
      NothingMine(heap, id);
      this.id, this.heap, lock := id, heap, false;
      txn := new AxiomTxn(errEnabled, now);
      box := Fresh(errEnabled, now);
      FreshInv(id, errEnabled, now);
    }

    /** nrt_mutex_lock on the transaction lock: taking it twice is an error, and so is giving it back unheld. */
    method Lock()
      requires !lock
      modifies this`lock
      ensures lock
    {
      lock := true;
    }

    method Unlock()
      requires lock
      modifies this`lock
      ensures !lock
    {
      lock := false;
    }

    // -- segments: creation --

    /** newrelic_segment_create, under the transaction lock. */
    method SegmentCreate(slab: bool, now: nat) returns (p: Ptr)
      requires Coupled() && lock && !heap.mutex
      modifies txn`segs, txn`stack, heap
      ensures heap.Valid() && !heap.mutex && heap.Callers() == old(heap.Callers())
      ensures p != NULL <==> Admits(txn.status, slab)
      ensures p == NULL ==> unchanged(txn) && unchanged(heap)
      ensures p != NULL ==>
                var s := |old(txn.segs)|;
                && heap.hs == old(heap.hs)[HandleId(id, s) := p]
                && heap.View() == old(heap.View())[HandleId(id, s) := Image(s, id, false, map[])]
                && Trace(txn.segs, txn.stack, txn.reports) == StartSeg(old(Trace(txn.segs, txn.stack, txn.reports)), now)
    {
      hide Owned, Images, CallersOf, Imaged, StartSeg, Tree;
      CurrentInRange(box.txn.trace);
      HandlesBelow(id, box);
      MineHas(heap.hs, id, |txn.segs|);
      var seg := txn.SegmentStart(slab, now);
      if seg.None? {
        return NULL;
      }
      heap.LockMutex();
      p := heap.AllocWrapper(HandleId(id, seg.value));
      heap.UnlockMutex();
      heap.SetOwner(p, id, seg.value, HandleId(id, seg.value));
    }

    /** The locked part of newrelic_start_segment. */
    method CreateNamed(name: string, ok: bool, now: nat) returns (p: Ptr)
      requires Valid()
      modifies this`lock, txn`segs, txn`stack, heap
      ensures heap.Valid() && !lock && !heap.mutex && heap.Callers() == old(heap.Callers())
      ensures p != NULL <==> Admits(txn.status, ok)
      ensures p == NULL ==> unchanged(txn) && unchanged(heap)
      ensures p != NULL ==>
                var s := |old(txn.segs)|;
                && heap.hs == old(heap.hs)[HandleId(id, s) := p]
                && heap.View() == old(heap.View())[HandleId(id, s) := Image(s, id, false, map[])]
                && Trace(txn.segs, txn.stack, txn.reports)
                == SetName(StartSeg(old(Trace(txn.segs, txn.stack, txn.reports)), now), s, name)
    {
      hide Owned, Images, CallersOf, Imaged, Mine, Inv, StartSeg, SetName;
      var s := |txn.segs|;
      StartGrows(id, box, now);
      Lock();
      p := SegmentCreate(ok, now);
      if p != NULL {
        txn.SegmentSetName(s, name);
      }
      Unlock();
    }

    method ReadNames(name: Ptr, category: Ptr) returns (n: Option<string>, c: Option<string>)
      requires heap.Valid() && GoodArg(heap.Callers(), name) && GoodArg(heap.Callers(), category)
      ensures n == Arg(heap.Callers(), name) && c == Arg(heap.Callers(), category)
    {
      hide Owned, Images, CallersOf;
      n := heap.ReadArg(name);
      c := heap.ReadArg(category);
    }

    /** newrelic_start_segment.  When creation fails the lock pointer is stored through NULL. */
    method StartSegment(name: Ptr, category: Ptr, ok: bool, now: nat) returns (r: Ret, p: Ptr)
      requires Valid() && !box.txn.status.ended
      requires GoodArg(heap.Callers(), name) && GoodArg(heap.Callers(), category)
      modifies this, txn, heap
      ensures Valid() && heap.Callers() == old(heap.Callers())
      ensures Apply(id, old(box), StartCustom(Arg(old(heap.Callers()), name), Arg(old(heap.Callers()), category), ok, now))
           == Result(box, r)
      ensures heap.hs == if r.Handle? && r.h.Some? then old(heap.hs)[HandleId(id, r.h.value) := p] else old(heap.hs)
      ensures OthersSame(old(heap.View()), heap.View(), id) && OthersSame(old(heap.hs), heap.hs, id)
    {
      hide Owned, Images, CallersOf, Imaged, Mine, Inv, StartSeg, SetName, Apply, Effective, MetricName, Arg, GoodArg;
      var n, c := ReadNames(name, category);
      ghost var call := StartCustom(n, c, ok, now);
      StartEffect(id, box, call);
      var s := |txn.segs|;
      ghost var view, hs := heap.View(), heap.hs;
      p := CreateNamed(JoinName(c, n), ok, now);
      if p == NULL {
        r := Crash;
      } else {
        heap.SetLock(p, HandleId(id, s));
        r := Handle(Some(s));
        assert heap.View() == view[HandleId(id, s) := Image(s, id, true, map[])];
        MineAt(view, id, s, Image(s, id, true, map[]));
        MineAt(hs, id, s, p);
        box := Apply(id, box, call).box;
        assert Mine(heap.hs, id).Keys == box.open.Keys;
        assert txn.Value() == box.txn;
      }
    }

    /** The copies newrelic_start_datastore_segment makes: every field is a fresh string of its own. */
    method FillDatastore(p: Ptr, params: DatastoreParams, ghost h: HandleId)
      requires heap.Valid() && h in heap.hs && heap.hs[h] == p && h in heap.View()
      requires heap.View()[h].texts == map[] && params.product.Some?
      modifies heap`cells, heap`next, heap`own, heap`hs
      ensures heap.Valid() && heap.hs == old(heap.hs) && heap.Callers() == old(heap.Callers())
      ensures heap.View() == old(heap.View())[h := old(heap.View())[h].(texts := TextsOf(DatastoreOf(params)))]
    {
      hide Owned, Images, CallersOf;
      FillStatement(p, params, h);
      if params.query.Some? {
        heap.CopyTo(p, Sql, params.query.value, h);
      }
      FillInstance(p, params, h);
    }

    method FillStatement(p: Ptr, params: DatastoreParams, ghost h: HandleId)
      requires heap.Valid() && h in heap.hs && heap.hs[h] == p && h in heap.View()
      requires heap.View()[h].texts == map[] && params.product.Some?
      modifies heap`cells, heap`next, heap`own, heap`hs
      ensures heap.Valid() && heap.hs == old(heap.hs) && heap.Callers() == old(heap.Callers())
      ensures var d := DatastoreOf(params);
              heap.View() == old(heap.View())[h := old(heap.View())[h].(texts :=
                map[Collection := d.collection, Operation := d.operation, Product := d.product])]
    {
      hide Owned, Images, CallersOf;
      heap.CopyTo(p, Collection, params.collection.GetOr("other"), h);
      heap.CopyTo(p, Operation, params.operation.GetOr("other"), h);
      heap.CopyTo(p, Product, if params.product.value == "" then "Other" else params.product.value, h);
    }

    /** nr_datastore_instance_set_host, _set_port_path_or_id and _set_database_name. */
    method FillInstance(p: Ptr, params: DatastoreParams, ghost h: HandleId)
      requires heap.Valid() && h in heap.hs && heap.hs[h] == p && h in heap.View()
      requires {Host, Port, Database} !! heap.View()[h].texts.Keys
      modifies heap`cells, heap`next, heap`own, heap`hs
      ensures heap.Valid() && heap.hs == old(heap.hs) && heap.Callers() == old(heap.Callers())
      ensures var i := old(heap.View())[h];
              heap.View() == old(heap.View())[h := i.(texts := i.texts[Host := OrUnknown(params.host)]
                [Port := OrUnknown(params.port)][Database := OrUnknown(params.database)])]
    {
      hide Owned, Images, CallersOf;
      heap.CopyTo(p, Host, OrUnknown(params.host), h);
      heap.CopyTo(p, Port, OrUnknown(params.port), h);
      heap.CopyTo(p, Database, OrUnknown(params.database), h);
    }

    method FillExternal(p: Ptr, params: ExternalParams, ghost h: HandleId)
      requires heap.Valid() && h in heap.hs && heap.hs[h] == p && h in heap.View()
      requires heap.View()[h].texts == map[] && params.uri.Some?
      modifies heap`cells, heap`next, heap`own, heap`hs
      ensures heap.Valid() && heap.hs == old(heap.hs) && heap.Callers() == old(heap.Callers())
      ensures heap.View() == old(heap.View())[h := old(heap.View())[h].(texts := TextsOf(ExternalOf(params)))]
    {
      hide Owned, Images, CallersOf;
      heap.CopyTo(p, Uri, params.uri.value, h);
      if params.library.Some? {
        heap.CopyTo(p, Library, params.library.value, h);
      }
      if params.procedure.Some? {
        heap.CopyTo(p, Procedure, params.procedure.value, h);
      }
    }

    method ReadDatastoreArgs(a: DatastoreArgs) returns (params: DatastoreParams)
      requires heap.Valid() && GoodDatastoreArgs(heap.Callers(), a)
      ensures params == DatastoreAt(heap.Callers(), a)
    {
      hide Owned, Images, CallersOf;
      var product := heap.ReadArg(a.product);
      var collection := heap.ReadArg(a.collection);
      var operation := heap.ReadArg(a.operation);
      var host := heap.ReadArg(a.host);
      var port := heap.ReadArg(a.port);
      var database := heap.ReadArg(a.database);
      var query := heap.ReadArg(a.query);
      params := DatastoreParams(product, collection, operation, host, port, database, query);
    }

    method ReadExternalArgs(a: ExternalArgs) returns (params: ExternalParams)
      requires heap.Valid() && GoodExternalArgs(heap.Callers(), a)
      ensures params == ExternalAt(heap.Callers(), a)
    {
      hide Owned, Images, CallersOf;
      var uri := heap.ReadArg(a.uri);
      var library := heap.ReadArg(a.library);
      var procedure := heap.ReadArg(a.procedure);
      params := ExternalParams(uri, library, procedure);
    }

    /** newrelic_start_datastore_segment; NULL params are no arguments at all. */
    method StartDatastoreSegment(a: Option<DatastoreArgs>, ok: bool, now: nat) returns (r: Ret, p: Ptr)
      requires Valid() && !box.txn.status.ended
      requires a.Some? ==> GoodDatastoreArgs(heap.Callers(), a.value)
      modifies this, txn, heap
      ensures Valid() && heap.Callers() == old(heap.Callers())
      ensures var ds := if a.Some? then Some(DatastoreAt(old(heap.Callers()), a.value)) else None;
              Apply(id, old(box), StartDatastore(ds, ok, now)) == Result(box, r)
      ensures heap.hs == if r.Handle? && r.h.Some? then old(heap.hs)[HandleId(id, r.h.value) := p] else old(heap.hs)
      ensures OthersSame(old(heap.View()), heap.View(), id) && OthersSame(old(heap.hs), heap.hs, id)
    {
      hide Owned, Images, CallersOf, Imaged, Mine, Inv, StartSeg, SetKind, Apply, TextsOf, DatastoreOf, DatastoreAt, GoodDatastoreArgs;
      r, p := Handle(None), NULL;
      if a.None? {
        StartRefused(id, box, StartDatastore(None, ok, now));
        return;
      }
      var params := ReadDatastoreArgs(a.value);
      ghost var call := StartDatastore(Some(params), ok, now);
      if !ValidDatastore(Some(params)) {
        StartRefused(id, box, call);
        return;
      }
      StartEffect(id, box, call);
      var s := |txn.segs|;
      ghost var view, hs := heap.View(), heap.hs;
      Lock();
      p := SegmentCreate(ok, now);
      if p != NULL {
        txn.SegmentSetType(s, Datastore);
        FillDatastore(p, params, HandleId(id, s));
        r := Handle(Some(s));
        assert heap.View() == view[HandleId(id, s) := Image(s, id, false, TextsOf(DatastoreOf(params)))];
        MineAt(view, id, s, Image(s, id, false, TextsOf(DatastoreOf(params))));
        MineAt(hs, id, s, p);
        box := Apply(id, box, call).box;
        assert Mine(heap.hs, id).Keys == box.open.Keys;
        assert txn.Value() == box.txn;
      }
      Unlock();
    }

    /** newrelic_start_external_segment. */
    method StartExternalSegment(a: Option<ExternalArgs>, ok: bool, now: nat) returns (r: Ret, p: Ptr)
      requires Valid() && !box.txn.status.ended
      requires a.Some? ==> GoodExternalArgs(heap.Callers(), a.value)
      modifies this, txn, heap
      ensures Valid() && heap.Callers() == old(heap.Callers())
      ensures var ext := if a.Some? then Some(ExternalAt(old(heap.Callers()), a.value)) else None;
              Apply(id, old(box), StartExternal(ext, ok, now)) == Result(box, r)
      ensures heap.hs == if r.Handle? && r.h.Some? then old(heap.hs)[HandleId(id, r.h.value) := p] else old(heap.hs)
      ensures OthersSame(old(heap.View()), heap.View(), id) && OthersSame(old(heap.hs), heap.hs, id)
    {
      hide Owned, Images, CallersOf, Imaged, Mine, Inv, StartSeg, SetKind, Apply, TextsOf, ExternalOf, ExternalAt, GoodExternalArgs;
      r, p := Handle(None), NULL;
      if a.None? {
        StartRefused(id, box, StartExternal(None, ok, now));
        return;
      }
      var params := ReadExternalArgs(a.value);
      ghost var call := StartExternal(Some(params), ok, now);
      if !ValidExternal(Some(params)) {
        StartRefused(id, box, call);
        return;
      }
      StartEffect(id, box, call);
      var s := |txn.segs|;
      ghost var view, hs := heap.View(), heap.hs;
      Lock();
      p := SegmentCreate(ok, now);
      if p != NULL {
        txn.SegmentSetType(s, External);
        FillExternal(p, params, HandleId(id, s));
        r := Handle(Some(s));
        assert heap.View() == view[HandleId(id, s) := Image(s, id, false, TextsOf(ExternalOf(params)))];
        MineAt(view, id, s, Image(s, id, false, TextsOf(ExternalOf(params))));
        MineAt(hs, id, s, p);
        box := Apply(id, box, call).box;
        assert Mine(heap.hs, id).Keys == box.open.Keys;
        assert txn.Value() == box.txn;
      }
      Unlock();
    }

    // -- segments: destruction --

    /** newrelic_destroy_datastore_segment_fields: safe on fields already released. */
    method DestroyDatastoreFields(p: Ptr, ghost h: HandleId)
      requires heap.Valid() && h in heap.hs && heap.hs[h] == p && h in heap.View()
      modifies heap`cells, heap`next, heap`own, heap`hs
      ensures heap.Valid() && heap.hs == old(heap.hs) && heap.Callers() == old(heap.Callers())
      ensures heap.View() == old(heap.View())[h := old(heap.View())[h].(texts := old(heap.View())[h].texts - DATASTORE_FIELDS)]
    {
      hide Owned, Images, CallersOf;
      ghost var m := heap.View()[h].texts;
      DestroyStatement(p, h);
      DestroyInstance(p, h);
      assert m - {Collection, Operation, Sql, Product} - {Host, Port, Database} == m - DATASTORE_FIELDS;
    }

    method DestroyStatement(p: Ptr, ghost h: HandleId)
      requires heap.Valid() && h in heap.hs && heap.hs[h] == p && h in heap.View()
      modifies heap`cells, heap`next, heap`own, heap`hs
      ensures heap.Valid() && heap.hs == old(heap.hs) && heap.Callers() == old(heap.Callers())
      ensures var i := old(heap.View())[h];
              heap.View() == old(heap.View())[h := i.(texts := i.texts - {Collection, Operation, Sql, Product})]
    {
      hide Owned, Images, CallersOf;
      ghost var m := heap.View()[h].texts;
      heap.FreeField(p, Collection, h);
      heap.FreeField(p, Operation, h);
      heap.FreeField(p, Sql, h);
      heap.FreeField(p, Product, h);
      MinusFour(m, Collection, Operation, Sql, Product);
    }

    /** nr_datastore_instance_destroy_fields. */
    method DestroyInstance(p: Ptr, ghost h: HandleId)
      requires heap.Valid() && h in heap.hs && heap.hs[h] == p && h in heap.View()
      modifies heap`cells, heap`next, heap`own, heap`hs
      ensures heap.Valid() && heap.hs == old(heap.hs) && heap.Callers() == old(heap.Callers())
      ensures heap.View() == old(heap.View())[h := old(heap.View())[h].(texts := old(heap.View())[h].texts - {Host, Port, Database})]
    {
      hide Owned, Images, CallersOf;
      ghost var m := heap.View()[h].texts;
      heap.FreeField(p, Host, h);
      heap.FreeField(p, Port, h);
      heap.FreeField(p, Database, h);
      MinusThree(m, Host, Port, Database);
    }

    /** newrelic_destroy_external_segment_fields. */
    method DestroyExternalFields(p: Ptr, ghost h: HandleId)
      requires heap.Valid() && h in heap.hs && heap.hs[h] == p && h in heap.View()
      modifies heap`cells, heap`next, heap`own, heap`hs
      ensures heap.Valid() && heap.hs == old(heap.hs) && heap.Callers() == old(heap.Callers())
      ensures heap.View() == old(heap.View())[h := old(heap.View())[h].(texts := old(heap.View())[h].texts - EXTERNAL_FIELDS)]
    {
      hide Owned, Images, CallersOf;
      ghost var m := heap.View()[h].texts;
      heap.FreeField(p, Uri, h);
      heap.FreeField(p, Library, h);
      heap.FreeField(p, Procedure, h);
      MinusThree(m, Uri, Library, Procedure);
    }

    /** newrelic_segment_destroy, on a handle whose fields are those of its type or already gone. */
    method SegmentDestroy(p: Ptr, s: SegId) returns (cleared: Ptr)
      requires heap.Valid() && HandleId(id, s) in heap.hs && heap.hs[HandleId(id, s)] == p && HandleId(id, s) in heap.View() && s < |txn.segs|
      requires FieldsFit(txn.segs[s].kind, heap.View()[HandleId(id, s)].texts)
      modifies heap`cells, heap`next, heap`own, heap`hs
      ensures heap.Valid() && heap.hs == old(heap.hs) - {HandleId(id, s)} && heap.Callers() == old(heap.Callers())
      ensures heap.View() == old(heap.View()) - {HandleId(id, s)} && cleared == NULL
    {
      hide Owned, Images, CallersOf;
      match txn.segs[s].kind {
        case Datastore => DestroyDatastoreFields(p, HandleId(id, s));
        case External => DestroyExternalFields(p, HandleId(id, s));
        case Custom =>
        case Unknown(_) =>
      }
      cleared := heap.FreeWrapper(p, HandleId(id, s));
    }

    // -- segments: end --

    /** The parameters newrelic_end_datastore_segment hands to axiom, read through the wrapper's pointers. */
    method ReadDatastore(p: Ptr, ghost h: HandleId, ghost d: Payload) returns (payload: Payload)
      requires heap.Valid() && h in heap.hs && heap.hs[h] == p && h in heap.View()
      requires d.DatastorePayload? && heap.View()[h].texts == TextsOf(d)
      ensures payload == d
    {
      hide Owned, Images, CallersOf, TextsOf;
      FieldsOf(d);
      var operation := heap.Load(p, Operation, h);
      var collection := heap.Load(p, Collection, h);
      var host := heap.Load(p, Host, h);
      var port := heap.Load(p, Port, h);
      var database := heap.Load(p, Database, h);
      var product := heap.Load(p, Product, h);
      var query := heap.Load(p, Sql, h);
      payload := DatastorePayload(product.value, collection.value, operation.value, host.value, port.value, database.value, query);
    }

    method ReadExternal(p: Ptr, ghost h: HandleId, ghost d: Payload) returns (payload: Payload)
      requires heap.Valid() && h in heap.hs && heap.hs[h] == p && h in heap.View()
      requires d.ExternalPayload? && heap.View()[h].texts == TextsOf(d)
      ensures payload == d
    {
      hide Owned, Images, CallersOf;
      var uri := heap.Load(p, Uri, h);
      var library := heap.Load(p, Library, h);
      var procedure := heap.Load(p, Procedure, h);
      payload := ExternalPayload(uri.value, library, procedure);
    }

    /** newrelic_end_datastore_segment and newrelic_end_external_segment: report, then release the fields. */
    method EndTyped(p: Ptr, s: SegId, now: nat, ghost d: Payload)
      requires heap.Valid() && HandleId(id, s) in heap.hs && heap.hs[HandleId(id, s)] == p && HandleId(id, s) in heap.View() && s < |txn.segs|
      requires heap.View()[HandleId(id, s)].texts == TextsOf(d) && VariantMatches(txn.segs[s].kind, d) && !txn.segs[s].kind.Custom?
      modifies txn`segs, txn`stack, txn`reports, txn`metrics, heap`cells, heap`next, heap`own, heap`hs
      ensures heap.Valid() && heap.hs == old(heap.hs) && heap.Callers() == old(heap.Callers())
      ensures heap.View() == old(heap.View())[HandleId(id, s) := old(heap.View())[HandleId(id, s)].(texts := map[])]
      ensures var t := EndSeg(old(Trace(txn.segs, txn.stack, txn.reports)), s, now);
              && Trace(txn.segs, txn.stack, txn.reports) == AddReport(t, s, d)
              && |t.segs| == |old(txn.segs)|
              && txn.metrics == RecordAll(old(txn.metrics), Rollups(t.segs[s].kind, d, Duration(t.segs[s]) as real))
    {
      hide Owned, Images, CallersOf, EndSeg, AddReport, TextsOf, Rollups, Duration, Fold;
      VariantFields(d);
      EndKeepsLength(Trace(txn.segs, txn.stack, txn.reports), s, now);
      var payload;
      if txn.segs[s].kind.Datastore? {
        payload := ReadDatastore(p, HandleId(id, s), d);
        txn.SegmentEnd(s, now);
        txn.AddRollups(s, payload);
        txn.SegmentReport(s, payload);
        DestroyDatastoreFields(p, HandleId(id, s));
      } else {
        payload := ReadExternal(p, HandleId(id, s), d);
        txn.SegmentEnd(s, now);
        txn.AddRollups(s, payload);
        txn.SegmentReport(s, payload);
        DestroyExternalFields(p, HandleId(id, s));
      }
    }

    /** The switch in newrelic_end_segment, under the lock. */
    method EndByType(p: Ptr, s: SegId, now: nat)
      requires Coupled() && lock && HandleId(id, s) in heap.hs && heap.hs[HandleId(id, s)] == p && s in box.open
      modifies txn`segs, txn`stack, txn`reports, txn`metrics, heap`cells, heap`next, heap`own, heap`hs
      ensures heap.Valid() && heap.hs == old(heap.hs) && heap.Callers() == old(heap.Callers())
      ensures var h := HandleId(id, s); h in old(heap.View()) && heap.View() == old(heap.View())[h := old(heap.View())[h].(texts := map[])]
      ensures txn.Value() == Ended(old(txn.Value()), s, box.open[s], now)
    {
      hide Owned, Images, CallersOf, EndSeg, AddReport, AddSegMetric, TextsOf, Tree, Ended, Rollups, Duration, Fold;
      ghost var w := box.open[s];
      assert HandleOk(id, box, s);
      ghost var h := HandleId(id, s);
      MineHas(heap.View(), id, s);
      assert heap.View()[h] == ImageFor(w);
      VariantFields(w.payload);
      EndedByKind(txn.Value(), s, w, now);
      if txn.segs[s].kind.Custom? {
        txn.SegmentEnd(s, now);
        txn.SegmentAddMetric(s);
        assert heap.View() == heap.View()[h := heap.View()[h].(texts := map[])];
      } else {
        EndTyped(p, s, now, w.payload);
      }
    }

    /** newrelic_end_segment.  NULL is refused; otherwise the handle is consumed, and the result says whether the
        end routine of its type ran. */
    method EndSegment(p: Ptr, via: Option<TxnId>, now: nat, ghost s: SegId) returns (status: bool, cleared: Ptr)
      requires Valid() && !box.txn.status.ended && (p == NULL || (HandleId(id, s) in heap.hs && heap.hs[HandleId(id, s)] == p))
      modifies this, txn, heap
      ensures Valid() && heap.Callers() == old(heap.Callers()) && cleared == NULL
      ensures p == NULL ==> !status && box == old(box) && heap.hs == old(heap.hs)
      ensures p != NULL ==> Apply(id, old(box), Call.EndSegment(s, via, now)) == Result(box, Bool(status)) && heap.hs == old(heap.hs) - {HandleId(id, s)}
      ensures OthersSame(old(heap.View()), heap.View(), id) && OthersSame(old(heap.hs), heap.hs, id)
    {
      hide Owned, Images, CallersOf, Imaged, Mine, Inv, Ended, Apply;
      status, cleared := false, NULL;
      if p == NULL {
        return;
      }
      ghost var view, hs := heap.View(), heap.hs;
      MineHas(hs, id, s);
      MineHas(view, id, s);
      EndEffect(id, box, s, via, now);
      var seg, owner, _ := heap.LoadWrapper(p, HandleId(id, s));
      if via == Some(owner) {
        Lock();
        EndByType(p, seg, now);
        Unlock();
        status := true;
      }
      cleared := SegmentDestroy(p, seg);
      ghost var a := Apply(id, box, Call.EndSegment(s, via, now));
      assert heap.View() == view - {HandleId(id, s)};
      MineLess(view, id, s);
      MineLess(hs, id, s);
      assert txn.Value() == a.box.txn;
      box := a.box;
    }

    // -- segments: changes --

    /** newrelic_add_api_supportability_metric. */
    method AddApiMetric(name: string)
      modifies txn`metrics
      ensures txn.Value() == Tally(old(txn.Value()), ApiMetric(name))
    {
      txn.AddMetric("Supportability/C/api/" + name, 0.0);
    }

    /** The locked part of both reparenting calls; txn_lock is NULL on datastore and external handles. */
    method MoveLocked(api: string, txnLock: bool, s: SegId, p: SegId) returns (ok: bool)
      requires !lock && Tree(txn.segs) && 0 < s < |txn.segs| && p < |txn.segs|
      modifies this`lock, txn`metrics, txn`segs
      ensures !lock && ok == Accepts(old(Trace(txn.segs, txn.stack, txn.reports)), s, p)
      ensures txn.Value() == Tally(old(txn.Value()), ApiMetric(api)).(trace := Reparent(old(txn.Value()).trace, s, p))
    {
      hide Tree, Accepts, Reparent, ApiMetric, Metrics.Record;
      if txnLock { Lock(); }
      AddApiMetric(api);
      ok := txn.SegmentSetParent(s, p);
      if txnLock { Unlock(); }
    }

    /** newrelic_set_segment_parent. */
    method SetSegmentParent(p: Ptr, q: Ptr, ghost s: SegId, ghost par: SegId) returns (ok: bool)
      requires Valid() && !box.txn.status.ended
      requires p == NULL || (HandleId(id, s) in heap.hs && heap.hs[HandleId(id, s)] == p)
      requires q == NULL || (HandleId(id, par) in heap.hs && heap.hs[HandleId(id, par)] == q)
      modifies this, txn
      ensures Valid()
      ensures p == NULL || q == NULL ==> !ok && box == old(box)
      ensures p != NULL && q != NULL ==> Apply(id, old(box), SetParent(s, par)) == Result(box, Bool(ok))
    {
      hide Owned, Images, CallersOf, Imaged, Mine, Inv, Apply, Reparent, Tally, Accepts;
      ok := false;
      if p == NULL || q == NULL {
        return;
      }
      HandlesDiffer(heap.cells, heap.own, heap.hs, HandleId(id, s), HandleId(id, par));
      MineHas(heap.hs, id, s);
      MineHas(heap.hs, id, par);
      MineHas(heap.View(), id, s);
      MineHas(heap.View(), id, par);
      MoveEffect(id, box, SetParent(s, par));
      if p != q {
        HandleMeans(id, box, s);
        HandleMeans(id, box, par);
        var seg, _, txnLock := heap.LoadWrapper(p, HandleId(id, s));
        var target, _, _ := heap.LoadWrapper(q, HandleId(id, par));
        ok := MoveLocked(SET_PARENT, txnLock, seg, target);
        box := Apply(id, box, SetParent(s, par)).box;
      }
    }

    /** newrelic_set_segment_parent_root. */
    method SetSegmentParentRoot(p: Ptr, ghost s: SegId) returns (ok: bool)
      requires Valid() && !box.txn.status.ended && (p == NULL || (HandleId(id, s) in heap.hs && heap.hs[HandleId(id, s)] == p))
      modifies this, txn
      ensures Valid()
      ensures p == NULL ==> !ok && box == old(box)
      ensures p != NULL ==> Apply(id, old(box), SetParentRoot(s)) == Result(box, Bool(ok))
    {
      hide Owned, Images, CallersOf, Imaged, Mine, Inv, Apply, Reparent, Tally, Accepts;
      ok := false;
      if p == NULL {
        return;
      }
      MineHas(heap.hs, id, s);
      MineHas(heap.View(), id, s);
      MoveEffect(id, box, SetParentRoot(s));
      HandleMeans(id, box, s);
      var seg, _, txnLock := heap.LoadWrapper(p, HandleId(id, s));
      ok := MoveLocked(SET_PARENT_ROOT, txnLock, seg, ROOT);
      box := Apply(id, box, SetParentRoot(s)).box;
    }

    /** newrelic_set_segment_timing. */
    method SetSegmentTiming(p: Ptr, start: nat, duration: nat, ghost s: SegId) returns (ok: bool)
      requires Valid() && !box.txn.status.ended && (p == NULL || (HandleId(id, s) in heap.hs && heap.hs[HandleId(id, s)] == p))
      modifies this, txn
      ensures Valid()
      ensures p == NULL ==> !ok && box == old(box)
      ensures p != NULL ==> Apply(id, old(box), SetTiming(s, start, duration)) == Result(box, Bool(ok))
    {
      hide Owned, Images, CallersOf, Imaged, Mine, Inv, SetSegTiming;
      ok := false;
      if p == NULL {
        return;
      }
      MineHas(heap.hs, id, s);
      MineHas(heap.View(), id, s);
      ApplyKeepsInv(id, box, SetTiming(s, start, duration));
      HandleMeans(id, box, s);
      var seg, _, txnLock := heap.LoadWrapper(p, HandleId(id, s));
      if txnLock { Lock(); }
      ok := txn.SegmentSetTiming(seg, start, duration);
      if txnLock { Unlock(); }
      box := Apply(id, box, SetTiming(s, start, duration)).box;
    }

    // -- the transaction --

    /** newrelic_notice_error. */
    method NoticeError(priority: int, message: Option<string>, class_: Option<string>)
      requires Valid() && !box.txn.status.ended
      modifies this, txn
      ensures Valid()
      ensures Apply(id, old(box), Call.NoticeError(priority, message, class_)) == Result(box, Void)
    {
      hide Owned, Images, CallersOf, Imaged, Mine, Inv;
      ghost var call := Call.NoticeError(priority, message, class_);
      ApplyKeepsInv(id, box, call);
      if message.None? || message.value == "" || class_.None? || class_.value == "" {
        return;
      }
      Lock();
      if txn.status.errEnabled && txn.status.recording
         && !(txn.status.error.Some? && priority < txn.status.error.value.priority) {
        txn.RecordError(priority, message.value, class_.value);
      }
      Unlock();
      box := Apply(id, box, call).box;
    }

    /** newrelic_add_attribute. */
    method AddAttribute(key: Option<string>, value: Option<Value>, accepts: bool) returns (ok: bool)
      requires Valid() && !box.txn.status.ended
      modifies this, txn
      ensures Valid() && Apply(id, old(box), Call.AddAttribute(key, value, accepts)) == Result(box, Bool(ok))
    {
      hide Owned, Images, CallersOf, Imaged, Mine, Inv;
      ghost var call := Call.AddAttribute(key, value, accepts);
      ApplyKeepsInv(id, box, call);
      ok := false;
      Lock();
      if key.Some? && value.Some? {
        ok := txn.AddAttribute(key.value, value.value, accepts);
      }
      Unlock();
      box := Apply(id, box, call).box;
    }

    /** newrelic_record_custom_metric. */
    method RecordCustomMetric(name: Option<string>, v: real, accepts: bool) returns (ok: bool)
      requires Valid() && !box.txn.status.ended
      modifies this, txn
      ensures Valid() && Apply(id, old(box), RecordMetric(name, v, accepts)) == Result(box, Bool(ok))
    {
      hide Owned, Images, CallersOf, Imaged, Mine, Inv, Metrics.Record;
      ghost var call := RecordMetric(name, v, accepts);
      ApplyKeepsInv(id, box, call);
      if name.None? {
        return false;
      }
      Lock();
      ok := txn.AddCustomMetric(name.value, v, accepts);
      Unlock();
      box := Apply(id, box, call).box;
    }

    /** The locked part of newrelic_record_custom_event. */
    method RecordCustomEvent(ghost event: nat, record: EventRecord, accepts: bool)
      requires Valid() && !box.txn.status.ended
      modifies this, txn
      ensures Valid() && Apply(id, old(box), RecordEvent(event, record, accepts)) == Result(box, Void)
    {
      hide Owned, Images, CallersOf, Imaged, Mine, Inv;
      ghost var call := RecordEvent(event, record, accepts);
      ApplyKeepsInv(id, box, call);
      Lock();
      txn.RecordEvent(record, accepts);
      Unlock();
      box := Apply(id, box, call).box;
    }

    /** newrelic_set_transaction_timing. */
    method SetTransactionTiming(start: nat, duration: nat) returns (ok: bool)
      requires Valid() && !box.txn.status.ended
      modifies this, txn
      ensures Valid() && Apply(id, old(box), SetTxnTiming(start, duration)) == Result(box, Bool(ok))
    {
      hide Owned, Images, CallersOf, Imaged, Mine, Inv, Metrics.Record, ApiMetric;
      ApplyKeepsInv(id, box, SetTxnTiming(start, duration));
      Lock();
      AddApiMetric(SET_TXN_TIMING);
      ok := txn.SetTiming(start, duration);
      Unlock();
      box := Apply(id, box, SetTxnTiming(start, duration)).box;
    }

    /** newrelic_ignore_transaction, which takes no lock. */
    method IgnoreTransaction() returns (ok: bool)
      requires Valid() && !box.txn.status.ended
      modifies this, txn
      ensures Valid() && Apply(id, old(box), Call.Ignore) == Result(box, Bool(ok))
    {
      hide Owned, Images, CallersOf, Imaged, Mine, Inv;
      ApplyKeepsInv(id, box, Call.Ignore);
      ok := txn.Ignore();
      box := Apply(id, box, Call.Ignore).box;
    }

    /** newrelic_end_transaction; an ended transaction's handle is NULL. */
    method EndTransaction(ruleIgnores: bool, sent: bool) returns (ret: bool)
      requires Valid() && (box.txn.status.ended || box.open == map[])
      modifies this, txn
      ensures Valid() && Apply(id, old(box), EndTxn(ruleIgnores, sent)) == Result(box, Bool(ret))
    {
      hide Owned, Images, CallersOf, Imaged, Mine, Inv, Metrics.Record;
      ApplyKeepsInv(id, box, EndTxn(ruleIgnores, sent));
      if txn.status.ended {
        return false;
      }
      ret := true;
      Lock();
      txn.AddMetric(VERSION_METRIC, 0.0);
      txn.End(ruleIgnores);
      if !txn.status.ignored {
        ret := txn.Transmit(sent);
      }
      Unlock();
      box := Apply(id, box, EndTxn(ruleIgnores, sent)).box;
    }
  }

  /** What an open handle says about its segment. */
  lemma HandleMeans(id: TxnId, b: Box, s: SegId)
    requires Inv(id, b) && s in b.open
    ensures s in Imaged(b.open) && Imaged(b.open)[s].segment == s
    ensures 0 < s < |b.txn.trace.segs| && Tree(b.txn.trace.segs)
  {
    hide Tree;
    assert HandleOk(id, b, s);
  }

  lemma MoveEffect(id: TxnId, b: Box, c: Call)
    requires Inv(id, b) && Legal(b, c) && (c.SetParent? || c.SetParentRoot?)
    ensures var a, p := Apply(id, b, c), if c.SetParent? then c.par else ROOT;
            && Inv(id, a.box) && a.box.open == b.open
            && (c.SetParent? && c.seg == c.par ==> a == Result(b, Bool(false)))
            && (c.SetParentRoot? || c.seg != c.par ==>
                  && a.ret == Bool(Accepts(b.txn.trace, c.seg, p))
                  && a.box.txn == Tally(b.txn, ApiMetric(if c.SetParent? then SET_PARENT else SET_PARENT_ROOT))
                                    .(trace := Reparent(b.txn.trace, c.seg, p)))
  {
    hide Inv, Reparent, Tally, Accepts;
    ApplyKeepsInv(id, b, c);
  }

  lemma EndKeepsLength(t: Trace, s: SegId, now: nat)
    ensures |EndSeg(t, s, now).segs| == |t.segs| && SegKind(EndSeg(t, s, now), s) == SegKind(t, s)
  {
  }

  /** A whole end, type by type. */
  lemma EndedByKind(t: Txn, s: SegId, w: Wrapper, now: nat)
    requires s < |t.trace.segs| && !t.trace.segs[s].kind.Unknown?
    ensures var e := EndSeg(t.trace, s, now);
            && |e.segs| == |t.trace.segs| && SegKind(e, s) == SegKind(t.trace, s) == e.segs[s].kind
            && Ended(t, s, w, now)
            == if e.segs[s].kind.Custom? then t.(trace := AddSegMetric(e, s))
               else t.(trace := AddReport(e, s, w.payload),
                       metrics := RecordAll(t.metrics, Rollups(e.segs[s].kind, w.payload, Duration(e.segs[s]) as real)))
  {
    hide Record;
    assert RecordAll(t.metrics, []) == t.metrics;
  }

  /** An end, split into what it does to the segments and to the handles. */
  lemma EndEffect(id: TxnId, b: Box, s: SegId, via: Option<TxnId>, now: nat)
    requires Inv(id, b) && !b.txn.status.ended && s in b.open
    ensures var a, w := Apply(id, b, EndSegment(s, via, now)), b.open[s];
            && Inv(id, a.box)
            && s in Imaged(b.open) && Imaged(b.open)[s] == ImageFor(w)
            && w.seg == s && w.txn == id && s < |b.txn.trace.segs|
            && FieldsFit(b.txn.trace.segs[s].kind, TextsOf(w.payload))
            && |Ended(b.txn, s, w, now).trace.segs| == |b.txn.trace.segs|
            && a.ret == Bool(via == Some(id))
            && a.box.open == b.open - {s} && Imaged(a.box.open) == Imaged(b.open) - {s}
            && a.box.txn == if via == Some(id) then Ended(b.txn, s, w, now) else b.txn
  {
    assert HandleOk(id, b, s);
    VariantFields(b.open[s].payload);
    FieldsFitVariant(b.txn.trace.segs[s].kind, b.open[s].payload);
    ApplyKeepsInv(id, b, EndSegment(s, via, now));
    ImagedAt(b.open, s, b.open[s]);
    hide Inv, TextsOf, Rollups, EndSamples;
  }

  lemma FieldsFitVariant(k: Kind, p: Payload)
    requires VariantMatches(k, p)
    ensures FieldsFit(k, TextsOf(p)) && FieldsFit(k, map[])
  {
  }

  lemma MinusThree(m: map<Field, string>, a: Field, b: Field, c: Field)
    ensures m - {a} - {b} - {c} == m - {a, b, c}
  {
  }

  lemma MinusFour(m: map<Field, string>, a: Field, b: Field, c: Field, d: Field)
    ensures m - {a} - {b} - {c} - {d} == m - {a, b, c, d}
  {
  }

  /** The fields a wrapper may still own, given its axiom type. */
  predicate FieldsFit(k: Kind, texts: map<Field, string>) {
    match k
    case Datastore => texts.Keys <= DATASTORE_FIELDS
    case External => texts.Keys <= EXTERNAL_FIELDS
    case _ => texts == map[]
  }

  predicate GoodDatastoreArgs(callers: map<Ptr, string>, a: DatastoreArgs) {
    && GoodArg(callers, a.product) && GoodArg(callers, a.collection) && GoodArg(callers, a.operation)
    && GoodArg(callers, a.host) && GoodArg(callers, a.port) && GoodArg(callers, a.database) && GoodArg(callers, a.query)
  }

  predicate GoodExternalArgs(callers: map<Ptr, string>, a: ExternalArgs) {
    GoodArg(callers, a.uri) && GoodArg(callers, a.library) && GoodArg(callers, a.procedure)
  }

  lemma StartRefused(id: TxnId, b: Box, c: Call)
    requires c.StartDatastore? || c.StartExternal?
    requires c.StartDatastore? ==> !ValidDatastore(c.ds)
    requires c.StartExternal? ==> !ValidExternal(c.ext)
    ensures Apply(id, b, c) == Result(b, Handle(None))
  {
  }

  /** nr_formatf("%s/%s", category, name), after the defaults. */
  function JoinName(category: Option<string>, name: Option<string>): string {
    Effective(category, DEFAULT_CATEGORY) + "/" + Effective(name, DEFAULT_NAME)
  }

  /** A start, split into what it does to the segments and to the handles. */
  lemma StartEffect(id: TxnId, b: Box, c: Call)
    requires Inv(id, b) && Legal(b, c) && (c.StartCustom? || c.StartDatastore? || c.StartExternal?)
    requires c.StartDatastore? ==> ValidDatastore(c.ds)
    requires c.StartExternal? ==> ValidExternal(c.ext)
    ensures var a, s, t := Apply(id, b, c), |b.txn.trace.segs|, StartSeg(b.txn.trace, c.now);
            && Inv(id, a.box)
            && |t.segs| == s + 1
            && (!Admits(b.txn.status, c.ok) ==> a == Result(b, if c.StartCustom? then Crash else Handle(None)))
            && (Admits(b.txn.status, c.ok) ==>
                  var w := if c.StartCustom? then Wrapper(s, id, true, NoPayload)
                           else if c.StartDatastore? then Wrapper(s, id, false, DatastoreOf(c.ds.value))
                           else Wrapper(s, id, false, ExternalOf(c.ext.value));
                  && a.ret == Handle(Some(s)) && a.box.open == b.open[s := w]
                  && Imaged(a.box.open) == Imaged(b.open)[s := ImageFor(w)]
                  && a.box.txn == b.txn.(trace := if c.StartCustom? then SetName(t, s, JoinName(c.category, c.name))
                                                 else SetKind(t, s, if c.StartDatastore? then Datastore else External)))
  {
    hide Inv, Imaged;
    ApplyKeepsInv(id, b, c);
    StartGrows(id, b, c.now);
    var s := |b.txn.trace.segs|;
    if Admits(b.txn.status, c.ok) {
      ImagedAt(b.open, s, Apply(id, b, c).box.open[s]);
    }
  }

  lemma StartGrows(id: TxnId, b: Box, now: nat)
    requires Inv(id, b)
    ensures |StartSeg(b.txn.trace, now).segs| == |b.txn.trace.segs| + 1
  {
    CurrentInRange(b.txn.trace);
  }

  /** A transaction that has no wrapper has no image of one. */
  lemma NothingMine(heap: Heap, id: TxnId)
    requires Mine(heap.hs, id) == map[]
    ensures Mine(heap.View(), id) == map[] && Imaged(map[]) == map[]
  {
    hide ImageOf;
    forall h | h in heap.View() && h.t == id ensures false { MineHas(heap.hs, id, h.s); }
  }

  /** Handles are on segments that exist. */
  lemma HandlesBelow(id: TxnId, b: Box)
    requires Inv(id, b)
    ensures |b.txn.trace.segs| !in b.open
  {
    forall s | s in b.open ensures s < |b.txn.trace.segs| { assert HandleOk(id, b, s); }
  }
}
