/** The process's C heap as the SDK uses it: copies, field releases and wrapper blocks, all in place. */
module Memory {
  import opened Common
  import opened SegmentTree
  import opened Model
  import opened Ownership

  class Heap {
    var cells: Cells
    var next: Ptr                       // addresses are not reused, so a stale pointer is never live
    ghost var own: map<Ptr, Owner>
    ghost var hs: map<HandleId, Ptr>    // the open wrappers
    var mutex: bool                     // the global segment mutex is held

    ghost predicate Valid()
      reads this
    {
      next > NULL && (forall p :: p in cells ==> p < next) && Owned(cells, own, hs)
    }

    /** The open wrappers with their pointers followed. */
    ghost function View(): map<HandleId, Image>
      reads this
    {
      Images(cells, hs)
    }

    ghost function Callers(): map<Ptr, string>
      reads this
    {
      CallersOf(cells, own)
    }

    constructor ()
      ensures Valid() && View() == map[] && Callers() == map[] && hs == map[] && cells == map[] && !mutex
    {
      cells, next, own, hs, mutex := map[], 1, map[], map[], false;
    }

    // -- the global segment mutex --

    method LockMutex()
      requires !mutex
      modifies this`mutex
      ensures mutex
    {
      mutex := true;
    }

    method UnlockMutex()
      requires mutex
      modifies this`mutex
      ensures !mutex
    {
      mutex := false;
    }

    // -- axiom's allocator --

    method Strdup(text: string) returns (q: Ptr)
      requires next > NULL && forall p :: p in cells ==> p < next
      modifies this`cells, this`next
      ensures q != NULL && q !in old(cells) && cells == old(cells)[q := Text(text)]
      ensures next > NULL && forall p :: p in cells ==> p < next
    {
      q := next;
      cells, next := cells[q := Text(text)], next + 1;
    }

    /** nr_free: releasing a block that is not live is an error, NULL is not; the argument is cleared. */
    method Free(q: Ptr) returns (cleared: Ptr)
      requires q == NULL || q in cells
      modifies this`cells
      ensures cells == old(cells) - {q} && cleared == NULL
    {
      cells, cleared := cells - {q}, NULL;
    }

    // -- wrappers --

    method AllocWrapper(ghost s: HandleId) returns (p: Ptr)
      requires Valid() && s !in hs
      modifies this`cells, this`next, this`own, this`hs
      ensures Valid() && hs == old(hs)[s := p] && p != NULL
      ensures View() == old(View())[s := Image(0, 0, false, map[])] && Callers() == old(Callers())
    {
      hide Owned, Images, CallersOf;
      p := next;
      AllocKeeps(cells, own, hs, s, p);
      cells, next := cells[p := Wrap(Struct(0, 0, false, map[]))], next + 1;
      own, hs := own[p := Whole(s)], hs[s := p];
    }

    method SetOwner(p: Ptr, transaction: TxnId, segment: SegId, ghost s: HandleId)
      requires Valid() && s in hs && hs[s] == p
      modifies this`cells
      ensures Valid() && s in old(View()) && Callers() == old(Callers())
      ensures View() == old(View())[s := old(View())[s].(segment := segment, transaction := transaction)]
    {
      OwnBlocks(cells, own, hs, s);
      var w := cells[p].w;
      WriteKeeps(cells, own, hs, s, w.(segment := segment, transaction := transaction));
      cells := cells[p := Wrap(w.(segment := segment, transaction := transaction))];
    }

    method SetLock(p: Ptr, ghost s: HandleId)
      requires Valid() && s in hs && hs[s] == p
      modifies this`cells
      ensures Valid() && s in old(View()) && Callers() == old(Callers())
      ensures View() == old(View())[s := old(View())[s].(locked := true)]
    {
      OwnBlocks(cells, own, hs, s);
      var w := cells[p].w;
      WriteKeeps(cells, own, hs, s, w.(locked := true));
      cells := cells[p := Wrap(w.(locked := true))];
    }

    /** Stores a fresh copy of text through an empty field. */
    method CopyTo(p: Ptr, f: Field, text: string, ghost s: HandleId)
      requires Valid() && s in hs && hs[s] == p && s in View() && f !in View()[s].texts
      modifies this`cells, this`next, this`own, this`hs
      ensures Valid() && hs == old(hs) && Callers() == old(Callers())
      ensures View() == old(View())[s := old(View())[s].(texts := old(View())[s].texts[f := text])]
    {
      OwnBlocks(cells, own, hs, s);
      SlotIsText(cells, own, hs, s, f);
      ghost var before := cells;
      var q := Strdup(text);
      CopyKeeps(before, own, hs, s, f, q, text);
      var w := cells[p].w;
      cells := cells[p := Wrap(w.(slots := w.slots[f := q]))];
      own := own[q := Part(s, f)];
    }

    /** nr_free of one field, NULL or not. */
    method FreeField(p: Ptr, f: Field, ghost s: HandleId)
      requires Valid() && s in hs && hs[s] == p && s in View()
      modifies this`cells, this`next, this`own, this`hs
      ensures Valid() && hs == old(hs) && Callers() == old(Callers())
      ensures View() == old(View())[s := old(View())[s].(texts := old(View())[s].texts - {f})]
    {
      OwnBlocks(cells, own, hs, s);
      FreeKeeps(cells, own, hs, s, f);
      var w := cells[p].w;
      ghost var q := SlotOf(w, f);
      assert q != p by { assert FieldOk(cells, own, hs, s, f); }
      var cleared := Free(SlotOf(w, f));
      cells := cells[p := Wrap(w.(slots := w.slots[f := cleared]))];
      own := own - {q};
    }

    /** nr_realfree of a wrapper whose fields have been released. */
    method FreeWrapper(p: Ptr, ghost s: HandleId) returns (cleared: Ptr)
      requires Valid() && s in hs && hs[s] == p && s in View() && View()[s].texts == map[]
      modifies this`cells, this`next, this`own, this`hs
      ensures Valid() && hs == old(hs) - {s} && Callers() == old(Callers()) && View() == old(View()) - {s}
      ensures cleared == NULL
    {
      OwnBlocks(cells, own, hs, s);
      forall f | f in cells[p].w.slots ensures cells[p].w.slots[f] == NULL { SlotIsText(cells, own, hs, s, f); }
      ReleaseKeeps(cells, own, hs, s);
      cleared := Free(p);
      own, hs := own - {p}, hs - {s};
    }

    /** Reads the plain members of a live wrapper. */
    method LoadWrapper(p: Ptr, ghost s: HandleId) returns (segment: SegId, transaction: TxnId, locked: bool)
      requires Valid() && s in hs && hs[s] == p && s in View()
      ensures segment == View()[s].segment && transaction == View()[s].transaction && locked == View()[s].locked
    {
      OwnBlocks(cells, own, hs, s);
      segment, transaction, locked := cells[p].w.segment, cells[p].w.transaction, cells[p].w.locked;
    }

    /** Reads a string field of a live wrapper; NULL reads as None. */
    method Load(p: Ptr, f: Field, ghost s: HandleId) returns (text: Option<string>)
      requires Valid() && s in hs && hs[s] == p && s in View()
      ensures text == Get(View()[s].texts, f)
    {
      OwnBlocks(cells, own, hs, s);
      SlotIsText(cells, own, hs, s, f);
      var q := SlotOf(cells[p].w, f);
      if q == NULL {
        text := None;
      } else {
        text := Some(cells[q].s);
      }
    }

    // -- the caller's buffers --

    /** Reads a string argument, NULL or a buffer of the caller's. */
    method ReadArg(q: Ptr) returns (text: Option<string>)
      requires Valid() && (q == NULL || q in Callers())
      ensures text == if q == NULL then None else Some(Callers()[q])
    {
      if q == NULL {
        text := None;
      } else {
        CallerLive(cells, own, hs, q);
        text := Some(cells[q].s);
      }
    }

    method CallerNew(text: string) returns (q: Ptr)
      requires Valid()
      modifies this`cells, this`next, this`own, this`hs
      ensures Valid() && hs == old(hs) && View() == old(View())
      ensures q != NULL && q !in old(Callers()) && Callers() == old(Callers())[q := text]
    {
      ghost var before := cells;
      assert next !in own by { KeysAgree(cells, own, hs); }
      q := Strdup(text);
      CallerKeeps(before, own, hs, q, Some(text));
      own := own[q := Caller];
      assert q !in CallersOf(before, old(own));
    }

    /** Anything at all may be written over the buffer. */
    method CallerWrite(q: Ptr, text: string)
      requires Valid() && q in Callers()
      modifies this`cells, this`next, this`own, this`hs
      ensures Valid() && hs == old(hs) && View() == old(View()) && Callers() == old(Callers())[q := text]
    {
      hide Owned, Images, CallersOf;
      CallerLive(cells, own, hs, q);
      CallerKeeps(cells, own, hs, q, Some(text));
      assert own[q := Caller] == own;
      cells := cells[q := Text(text)];
    }

    method CallerFree(q: Ptr)
      requires Valid() && q in Callers()
      modifies this`cells, this`next, this`own, this`hs
      ensures Valid() && hs == old(hs) && View() == old(View()) && Callers() == old(Callers()) - {q}
    {
      CallerLive(cells, own, hs, q);
      CallerKeeps(cells, own, hs, q, None);
      var _ := Free(q);
      own := own - {q};
    }
  }

  /** Two handles are equal pointers exactly when they are the same handle. */
  lemma HandlesDiffer(cells: Cells, own: map<Ptr, Owner>, hs: map<HandleId, Ptr>, s: HandleId, s': HandleId)
    requires Owned(cells, own, hs) && s in hs && s' in hs
    ensures hs[s] == hs[s'] <==> s == s'
  {
    assert WrapperOk(cells, own, hs, s) && WrapperOk(cells, own, hs, s');
  }

  lemma CallerLive(cells: Cells, own: map<Ptr, Owner>, hs: map<HandleId, Ptr>, q: Ptr)
    requires Owned(cells, own, hs) && q in CallersOf(cells, own)
    ensures q != NULL && q in cells && q in own && own[q] == Caller && cells[q] == Text(CallersOf(cells, own)[q])
  {
    assert BlockOk(cells, own, hs, q);
  }

  /** A field is non-NULL exactly when it points to a live string. */
  lemma SlotIsText(cells: Cells, own: map<Ptr, Owner>, hs: map<HandleId, Ptr>, s: HandleId, f: Field)
    requires Owned(cells, own, hs) && s in hs && WrapperOk(cells, own, hs, s)
    ensures var w, q := cells[hs[s]].w, SlotOf(cells[hs[s]].w, f);
            && s in Images(cells, hs) && Images(cells, hs)[s] == ImageOf(cells, w)
            && (q != NULL <==> f in ImageOf(cells, w).texts)
            && (q != NULL ==> q in cells && cells[q] == Text(ImageOf(cells, w).texts[f]))
  {
    assert FieldOk(cells, own, hs, s, f);
    var q := SlotOf(cells[hs[s]].w, f);
    if q != NULL { assert BlockOk(cells, own, hs, q); }
  }
}
