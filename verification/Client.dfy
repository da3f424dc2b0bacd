/**
 A single-threaded client driving the in-place code: API calls on any number of
 transactions that share one heap, mixed in any order with whatever the client
 does to its own string buffers.
 */
module Client {
  import opened Common
  import opened SegmentTree
  import opened Model
  import opened Ownership
  import opened Memory
  import opened Axiom
  import opened Session

  /** An API call on a transaction, or the client overwriting (Some) or freeing (None) one of its own buffers. */
  datatype Deed = Api(t: TxnId, c: Call) | Buffer(q: Ptr, text: Option<string>)

  function CallsOn(ds: seq<Deed>, t: TxnId): seq<Call>
    decreases |ds|
  {
    if ds == [] then []
    else
      var rest, d := CallsOn(ds[..|ds| - 1], t), ds[|ds| - 1];
      if d.Api? && d.t == t then rest + [d.c] else rest
  }

  class Driver {
    const heap: Heap
    const txs: map<TxnId, Transaction>     // all live at once
    var handles: map<HandleId, Ptr>
    var buffers: set<Ptr>

    /** What a call on tx needs and keeps. */
    ghost predicate Near(tx: Transaction)
      reads this, heap, tx, tx.txn, tx.heap
    {
      tx.heap == heap && tx.Valid() && handles == heap.hs && buffers == heap.Callers().Keys
    }

    ghost predicate Apart() {
      forall t, u :: t in txs && u in txs && t != u ==> txs[t] != txs[u] && txs[t].txn != txs[u].txn
    }

    ghost predicate Valid()
      reads this, heap, set t | t in txs :: txs[t], set t | t in txs :: txs[t].txn
    {
      && Apart() && heap.Valid()
      && (forall t :: t in txs ==> txs[t].id == t && txs[t].heap == heap)
      && (forall t :: t in txs ==> txs[t].Valid())
      && handles == heap.hs && buffers == heap.Callers().Keys
      && (forall h :: h in handles ==> h.t in txs)
    }

    constructor (heap: Heap, txs: map<TxnId, Transaction>)
      requires heap.Valid() && heap.hs == map[] && heap.Callers() == map[]
      requires forall t :: t in txs ==> txs[t].id == t && txs[t].heap == heap && txs[t].Valid()
      requires forall t, u :: t in txs && u in txs && t != u ==> txs[t] != txs[u] && txs[t].txn != txs[u].txn
      ensures this.heap == heap && this.txs == txs && Valid()
    {
      this.heap, this.txs, handles, buffers := heap, txs, map[], {};
    }

    /** A string argument in a fresh buffer, or NULL. */
    method Argument(tx: Transaction, text: Option<string>) returns (q: Ptr)
      requires Near(tx)
      modifies this`buffers, heap`cells, heap`next, heap`own, heap`hs
      ensures Near(tx) && heap.hs == old(heap.hs) && heap.View() == old(heap.View()) && GoodArg(heap.Callers(), q)
      ensures Arg(heap.Callers(), q) == text
      ensures forall p :: p in old(heap.Callers()) ==>
                p in heap.Callers() && heap.Callers()[p] == old(heap.Callers())[p]
    {
      hide Owned, Images, CallersOf, Imaged, Mine, Invariants.Inv;
      if text.None? {
        q := NULL;
      } else {
        q := heap.CallerNew(text.value);
        buffers := buffers + {q};
      }
    }

    /** Keeps a handle that a start returned. */
    method Keep(t: TxnId, r: Ret, p: Ptr)
      modifies this`handles
      ensures handles == if r.Handle? && r.h.Some? then old(handles)[HandleId(t, r.h.value) := p] else old(handles)
    {
      if r.Handle? && r.h.Some? { handles := handles[HandleId(t, r.h.value) := p]; }
    }

    method StartCustom(tx: Transaction, name: Option<string>, category: Option<string>, ok: bool, now: nat) returns (r: Ret)
      requires Near(tx) && !tx.box.txn.status.ended
      modifies this, tx, tx.txn, heap
      ensures Near(tx) && Apply(tx.id, old(tx.box), Call.StartCustom(name, category, ok, now)) == Result(tx.box, r)
      ensures OthersSame(old(heap.View()), heap.View(), tx.id) && OthersSame(old(heap.hs), heap.hs, tx.id)
    {
      hide Owned, Images, CallersOf, Imaged, Mine, Invariants.Inv, Apply;
      var n := Argument(tx, name);
      var c := Argument(tx, category);
      assert Arg(heap.Callers(), n) == name;
      var p;
      r, p := tx.StartSegment(n, c, ok, now);
      Keep(tx.id, r, p);
    }

    method StartDatastore(tx: Transaction, ds: Option<DatastoreParams>, ok: bool, now: nat) returns (r: Ret)
      requires Near(tx) && !tx.box.txn.status.ended
      modifies this, tx, tx.txn, heap
      ensures Near(tx) && Apply(tx.id, old(tx.box), Call.StartDatastore(ds, ok, now)) == Result(tx.box, r)
      ensures OthersSame(old(heap.View()), heap.View(), tx.id) && OthersSame(old(heap.hs), heap.hs, tx.id)
    {
      hide Owned, Images, CallersOf, Imaged, Mine, Invariants.Inv, Apply, DatastoreAt, GoodDatastoreArgs;
      var p;
      if ds.None? {
        r, p := tx.StartDatastoreSegment(None, ok, now);
      } else {
        var a := DatastoreArguments(tx, ds.value);
        r, p := tx.StartDatastoreSegment(Some(a), ok, now);
      }
      Keep(tx.id, r, p);
    }

    method DatastoreArguments(tx: Transaction, d: DatastoreParams) returns (a: DatastoreArgs)
      requires Near(tx)
      modifies this`buffers, heap`cells, heap`next, heap`own, heap`hs
      ensures Near(tx) && heap.hs == old(heap.hs) && heap.View() == old(heap.View())
      ensures GoodDatastoreArgs(heap.Callers(), a) && DatastoreAt(heap.Callers(), a) == d
    {
      hide Owned, Images, CallersOf, Imaged, Mine, Invariants.Inv, Heap.Valid;
      var product := Argument(tx, d.product);
      var collection := Argument(tx, d.collection);
      var operation := Argument(tx, d.operation);
      var host := Argument(tx, d.host);
      var port := Argument(tx, d.port);
      var database := Argument(tx, d.database);
      var query := Argument(tx, d.query);
      a := DatastoreArgs(product, collection, operation, host, port, database, query);
    }

    method StartExternal(tx: Transaction, ext: Option<ExternalParams>, ok: bool, now: nat) returns (r: Ret)
      requires Near(tx) && !tx.box.txn.status.ended
      modifies this, tx, tx.txn, heap
      ensures Near(tx) && Apply(tx.id, old(tx.box), Call.StartExternal(ext, ok, now)) == Result(tx.box, r)
      ensures OthersSame(old(heap.View()), heap.View(), tx.id) && OthersSame(old(heap.hs), heap.hs, tx.id)
    {
      hide Owned, Images, CallersOf, Imaged, Mine, Invariants.Inv, Apply;
      var p;
      if ext.None? {
        r, p := tx.StartExternalSegment(None, ok, now);
      } else {
        var uri := Argument(tx, ext.value.uri);
        var library := Argument(tx, ext.value.library);
        var procedure := Argument(tx, ext.value.procedure);
        var a := ExternalArgs(uri, library, procedure);
        assert ExternalAt(heap.Callers(), a) == ext.value;
        r, p := tx.StartExternalSegment(Some(a), ok, now);
      }
      Keep(tx.id, r, p);
    }

    /** Calls through handles. */
    method ThroughHandle(tx: Transaction, c: Call) returns (r: Ret)
      requires Near(tx) && Legal(tx.box, c) && (c.SetParent? || c.SetParentRoot? || c.SetTiming? || c.EndSegment?)
      modifies this, tx, tx.txn, heap
      ensures Near(tx) && Apply(tx.id, old(tx.box), c) == Result(tx.box, r)
      ensures OthersSame(old(heap.View()), heap.View(), tx.id) && OthersSame(old(heap.hs), heap.hs, tx.id)
    {
      hide Owned, Images, CallersOf, Imaged, Mine, Invariants.Inv, Apply;
      LiveHandles(tx, c.seg);
      if c.SetParent? { LiveHandles(tx, c.par); }
      var ok;
      match c {
        case SetParent(s, par) => ok := tx.SetSegmentParent(handles[HandleId(tx.id, s)], handles[HandleId(tx.id, par)], s, par);
        case SetParentRoot(s) => ok := tx.SetSegmentParentRoot(handles[HandleId(tx.id, s)], s);
        case SetTiming(s, start, duration) => ok := tx.SetSegmentTiming(handles[HandleId(tx.id, s)], start, duration, s);
        case EndSegment(s, via, now) =>
          var cleared;
          ok, cleared := tx.EndSegment(handles[HandleId(tx.id, s)], via, now, s);
          handles := handles - {HandleId(tx.id, s)};
      }
      r := Bool(ok);
    }

    lemma LiveHandles(tx: Transaction, s: SegId)
      requires Near(tx) && s in tx.box.open
      ensures var h := HandleId(tx.id, s); h in handles && handles[h] != NULL
    {
      hide Images, CallersOf, Imaged, Mine, Invariants.Inv;
      MineHas(heap.hs, tx.id, s);
      OwnBlocks(heap.cells, heap.own, heap.hs, HandleId(tx.id, s));
    }

    /** Calls on the transaction itself. */
    method OnTransaction(tx: Transaction, c: Call) returns (r: Ret)
      requires Near(tx) && Legal(tx.box, c)
      requires c.NoticeError? || c.AddAttribute? || c.RecordMetric? || c.RecordEvent? || c.SetTxnTiming? || c.Ignore? || c.EndTxn?
      modifies this, tx, tx.txn, heap
      ensures Near(tx) && Apply(tx.id, old(tx.box), c) == Result(tx.box, r)
      ensures OthersSame(old(heap.View()), heap.View(), tx.id) && OthersSame(old(heap.hs), heap.hs, tx.id)
    {
      hide Owned, Images, CallersOf, Imaged, Mine, Invariants.Inv, Apply;
      var ok := false;
      match c {
        case NoticeError(priority, message, class_) => tx.NoticeError(priority, message, class_);
        case AddAttribute(key, value, accepts) => ok := tx.AddAttribute(key, value, accepts);
        case RecordMetric(metric, sample, accepts) => ok := tx.RecordCustomMetric(metric, sample, accepts);
        case RecordEvent(event, record, accepts) => tx.RecordCustomEvent(event, record, accepts);
        case SetTxnTiming(start, duration) => ok := tx.SetTransactionTiming(start, duration);
        case Ignore => ok := tx.IgnoreTransaction();
        case EndTxn(ruleIgnores, sent) => ok := tx.EndTransaction(ruleIgnores, sent);
      }
      r := if c.NoticeError? || c.RecordEvent? then Void else Bool(ok);
    }

    method Dispatch(tx: Transaction, c: Call) returns (r: Ret)
      requires Near(tx) && Legal(tx.box, c)
      modifies this, tx, tx.txn, heap
      ensures Near(tx) && Apply(tx.id, old(tx.box), c) == Result(tx.box, r)
      ensures OthersSame(old(heap.View()), heap.View(), tx.id) && OthersSame(old(heap.hs), heap.hs, tx.id)
    {
      hide Owned, Images, CallersOf, Imaged, Mine, Invariants.Inv, Apply;
      match c
      case StartCustom(name, category, ok, now) => r := StartCustom(tx, name, category, ok, now);
      case StartDatastore(ds, ok, now) => r := StartDatastore(tx, ds, ok, now);
      case StartExternal(ext, ok, now) => r := StartExternal(tx, ext, ok, now);
      case SetParent(_, _) => r := ThroughHandle(tx, c);
      case SetParentRoot(_) => r := ThroughHandle(tx, c);
      case SetTiming(_, _, _) => r := ThroughHandle(tx, c);
      case EndSegment(_, _, _) => r := ThroughHandle(tx, c);
      case _ => r := OnTransaction(tx, c);
    }

    /** One call on transaction t; the other transactions do not notice. */
    method Perform(t: TxnId, c: Call) returns (r: Ret)
      requires Valid() && t in txs && Legal(txs[t].box, c)
      modifies this, heap, txs[t], txs[t].txn
      ensures Valid() && Apply(t, old(txs[t].box), c) == Result(txs[t].box, r)
    {
      hide Owned, Images, CallersOf, Imaged, Mine, Invariants.Inv, Apply;
      ghost var view, hs := heap.View(), heap.hs;
      r := Dispatch(txs[t], c);
      forall u | u in txs && u != t ensures txs[u].Valid() {
        MineOfOthers(view, heap.View(), t, u);
        MineOfOthers(hs, heap.hs, t, u);
      }
      forall h | h in handles ensures h.t in txs {
        assert h.t != t ==> Get(heap.hs, h) == Get(hs, h);
      }
    }

    /** The client uses its own buffer; addresses that are not its own are left alone. */
    method UseBuffer(q: Ptr, text: Option<string>)
      requires Valid()
      modifies this`buffers, heap`cells, heap`next, heap`own, heap`hs
      ensures Valid()
      ensures q in old(heap.Callers()) ==> heap.Callers() == Put(old(heap.Callers()), q, text)
    {
      hide Owned, Images, CallersOf, Imaged, Mine, Invariants.Inv;
      if q in buffers {
        if text.Some? {
          heap.CallerWrite(q, text.value);
        } else {
          heap.CallerFree(q);
          buffers := buffers - {q};
        }
      }
    }

    /** The live blocks are the client's buffers and the footprints of the open handles of all transactions, and no
        two of these share a block. */
    ghost predicate Conserved()
      requires Valid()
      reads this, heap, set t | t in txs :: txs[t], set t | t in txs :: txs[t].txn
    {
      var cells := heap.cells;
      && (forall h: HandleId :: h in handles <==> h.t in txs && h.s in txs[h.t].box.open)
      && (forall h :: h in handles ==> handles[h] in cells && cells[handles[h]].Wrap?)
      && (forall p :: p in cells <==> p in buffers || exists h :: h in handles && p in Footprint(cells, handles[h]))
      && (forall h, k :: h in handles && k in handles && h != k ==> Footprint(cells, handles[h]) !! Footprint(cells, handles[k]))
      && (forall h :: h in handles ==> Footprint(cells, handles[h]) !! buffers)
    }

    lemma OpenHandles(h: HandleId)
      requires Valid()
      ensures h in handles <==> h.t in txs && h.s in txs[h.t].box.open
    {
      hide Owned, Images, CallersOf, Imaged, Mine, Invariants.Inv;
      MineHas(heap.hs, h.t, h.s);
      if h.t in txs { assert txs[h.t].Valid(); }
    }

    lemma AlwaysConserved()
      requires Valid()
      ensures Conserved()
    {
      hide Owned, Images, CallersOf, Imaged, Mine, Invariants.Inv, Footprint, Transaction.Valid, Apart;
      forall h: HandleId ensures h in handles <==> h.t in txs && h.s in txs[h.t].box.open { OpenHandles(h); }
      LiveIsFootprints(heap.cells, heap.own, heap.hs);
    }

    /** Every transaction is where its own calls among the first i deeds take it. */
    ghost predicate On(ds: seq<Deed>, i: nat, b0: map<TxnId, Box>)
      requires i <= |ds|
      reads set t | t in txs :: txs[t]
    {
      forall t :: t in txs ==> t in b0 && txs[t].box == Run(t, b0[t], CallsOn(ds[..i], t))
    }

    /** Deed i. */
    method Do(ds: seq<Deed>, i: nat, ghost b0: map<TxnId, Box>) returns (r: Ret)
      requires Valid() && i < |ds| && (ds[i].Api? ==> ds[i].t in txs) && On(ds, i, b0)
      requires forall t :: t in txs ==> LegalRun(t, b0[t], CallsOn(ds, t))
      modifies this, heap, set t | t in txs :: txs[t], set t | t in txs :: txs[t].txn
      ensures Valid() && On(ds, i + 1, b0)
      ensures ds[i].Api? ==> r == Apply(ds[i].t, Run(ds[i].t, b0[ds[i].t], CallsOn(ds[..i], ds[i].t)), ds[i].c).ret
    {
      hide Owned, Images, CallersOf, Imaged, Mine, Invariants.Inv, Apply, Legal, CallsOn, LegalRun, Run, Transaction.Valid;
      forall t | t in txs ensures Follows(ds, i, t, b0[t]) { NextCall(ds, i, t, b0[t]); }
      match ds[i]
      case Api(t, c) => r := Perform(t, c);
      case Buffer(q, text) =>
        UseBuffer(q, text);
        r := Void;
    }

    /** Any mix of legal API calls on any of the transactions and of buffer use: each transaction ends where its own
        calls alone would end it, every call returns what it returns there, and memory is conserved. */
    method Execute(ds: seq<Deed>) returns (rets: seq<Ret>)
      requires Valid()
      requires forall i :: 0 <= i < |ds| && ds[i].Api? ==> ds[i].t in txs
      requires forall t :: t in txs ==> LegalRun(t, txs[t].box, CallsOn(ds, t))
      modifies this, heap, set t | t in txs :: txs[t], set t | t in txs :: txs[t].txn
      ensures Valid() && Conserved() && |rets| == |ds|
      ensures forall t :: t in txs ==> txs[t].box == Run(t, old(txs[t].box), CallsOn(ds, t))
      ensures forall i :: 0 <= i < |ds| && ds[i].Api? ==>
                rets[i] == Apply(ds[i].t, Run(ds[i].t, old(txs[ds[i].t].box), CallsOn(ds[..i], ds[i].t)), ds[i].c).ret
    {
      hide Valid, Conserved, Apply, CallsOn, LegalRun, Run, RetsRight, On;
      ghost var b0 := map t | t in txs :: txs[t].box;
      rets := [];
      NothingDone(ds, b0);
      while |rets| < |ds|
        invariant |rets| <= |ds| && Valid() && On(ds, |rets|, b0) && RetsRight(ds, rets, b0)
      {
        var r := Do(ds, |rets|, b0);
        OneMoreRet(ds, rets, b0, r);
        rets := rets + [r];
      }
      AllDone(ds, b0);
      AllRets(ds, rets, b0);
      AlwaysConserved();
    }

    lemma NothingDone(ds: seq<Deed>, b0: map<TxnId, Box>)
      requires b0 == map t | t in txs :: txs[t].box
      ensures On(ds, 0, b0) && RetsRight(ds, [], b0)
    {
      forall t | t in txs ensures txs[t].box == Run(t, b0[t], CallsOn(ds[..0], t)) { NoCalls(t, b0[t]); }
    }

    lemma AllDone(ds: seq<Deed>, b0: map<TxnId, Box>)
      requires On(ds, |ds|, b0)
      ensures forall t :: t in txs ==> t in b0 && txs[t].box == Run(t, b0[t], CallsOn(ds, t))
    {
      hide Run, CallsOn;
      assert ds[..|ds|] == ds;
    }
  }

  /** Deed i, a call, returned what it returns at its place in the run of its own transaction. */
  ghost predicate RetRight(ds: seq<Deed>, rets: seq<Ret>, b0: map<TxnId, Box>, i: nat)
    requires i < |rets| <= |ds|
  {
    ds[i].Api? && ds[i].t in b0 ==>
      rets[i] == Apply(ds[i].t, Run(ds[i].t, b0[ds[i].t], CallsOn(ds[..i], ds[i].t)), ds[i].c).ret
  }

  ghost predicate RetsRight(ds: seq<Deed>, rets: seq<Ret>, b0: map<TxnId, Box>) {
    |rets| <= |ds| && forall i: nat :: i < |rets| ==> RetRight(ds, rets, b0, i)
  }

  lemma OneMoreRet(ds: seq<Deed>, rets: seq<Ret>, b0: map<TxnId, Box>, r: Ret)
    requires RetsRight(ds, rets, b0) && |rets| < |ds|
    requires var i := |rets|;
             ds[i].Api? && ds[i].t in b0 ==> r == Apply(ds[i].t, Run(ds[i].t, b0[ds[i].t], CallsOn(ds[..i], ds[i].t)), ds[i].c).ret
    ensures RetsRight(ds, rets + [r], b0)
  {
    hide Run, CallsOn, Apply;
    forall i: nat | i < |rets| + 1 ensures RetRight(ds, rets + [r], b0, i) {
      if i < |rets| { assert RetRight(ds, rets, b0, i); }
    }
  }

  lemma AllRets(ds: seq<Deed>, rets: seq<Ret>, b0: map<TxnId, Box>)
    requires RetsRight(ds, rets, b0) && |rets| == |ds|
    ensures forall i :: 0 <= i < |ds| && ds[i].Api? && ds[i].t in b0 ==>
              rets[i] == Apply(ds[i].t, Run(ds[i].t, b0[ds[i].t], CallsOn(ds[..i], ds[i].t)), ds[i].c).ret
  {
    hide Run, CallsOn, Apply;
    forall i | 0 <= i < |ds| && ds[i].Api? && ds[i].t in b0
      ensures rets[i] == Apply(ds[i].t, Run(ds[i].t, b0[ds[i].t], CallsOn(ds[..i], ds[i].t)), ds[i].c).ret
    {
      assert RetRight(ds, rets, b0, i);
    }
  }

  lemma NoCalls(t: TxnId, b: Box)
    ensures CallsOn([], t) == [] && Run(t, b, []) == b
  {
  }

  /** What deed i adds to the run of transaction t. */
  ghost predicate Follows(ds: seq<Deed>, i: nat, t: TxnId, b: Box)
    requires i < |ds|
  {
    var before, after := Run(t, b, CallsOn(ds[..i], t)), Run(t, b, CallsOn(ds[..i + 1], t));
    if ds[i].Api? && ds[i].t == t then Legal(before, ds[i].c) && after == Apply(t, before, ds[i].c).box
    else after == before
  }

  lemma NextCall(ds: seq<Deed>, i: nat, t: TxnId, b: Box)
    requires i < |ds| && LegalRun(t, b, CallsOn(ds, t))
    ensures Follows(ds, i, t, b)
  {
    hide Legal, Apply;
    assert ds[..i + 1][..i] == ds[..i];
    CallsPrefix(ds, i + 1, t);
    var cs, all := CallsOn(ds[..i], t), CallsOn(ds, t);
    if ds[i].Api? && ds[i].t == t {
      assert (cs + [ds[i].c])[..|cs|] == cs;
      LegalAt(t, b, all, |cs|);
      assert all[..|cs|] == cs && all[|cs|] == ds[i].c;
    }
  }

  lemma {:induction false} CallsPrefix(ds: seq<Deed>, i: nat, t: TxnId)
    requires i <= |ds|
    ensures CallsOn(ds[..i], t) <= CallsOn(ds, t)
    decreases |ds|
  {
    if i < |ds| {
      var front := ds[..|ds| - 1];
      assert front[..i] == ds[..i];
      CallsPrefix(front, i, t);
    } else {
      assert ds[..i] == ds;
    }
  }

  lemma {:induction false} LegalAt(id: TxnId, b: Box, cs: seq<Call>, k: nat)
    requires LegalRun(id, b, cs) && k < |cs|
    ensures Legal(Run(id, b, cs[..k]), cs[k])
    decreases |cs|
  {
    hide Legal, Apply;
    if k < |cs| - 1 {
      LegalAt(id, b, cs[..|cs| - 1], k);
      assert cs[..|cs| - 1][..k] == cs[..k];
    }
  }
}
