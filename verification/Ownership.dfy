/**
 The C heap behind the segment handles: wrapper structures, the strings they
 point to and the caller's own buffers.  `own` says who answers for each live
 block; that it is a function is what keeps two pointers from sharing one.
 */
module Ownership {
  import opened Common
  import opened SegmentTree
  import opened Model

  type Ptr = nat
  const NULL: Ptr := 0

  /** A segment handle: the transaction and the axiom segment it wraps. */
  datatype HandleId = HandleId(t: TxnId, s: SegId)

  /** The pointer fields of the union in newrelic_segment_t; host, port and database are the
      fields of the datastore instance. */
  datatype Field = Collection | Operation | Product | Sql | Host | Port | Database | Uri | Library | Procedure

  /** newrelic_segment_t: a field missing from `slots` is zero, as nr_zalloc leaves it. */
  datatype Struct = Struct(segment: SegId, transaction: TxnId, locked: bool, slots: map<Field, Ptr>)

  datatype Block = Text(s: string) | Wrap(w: Struct)

  type Cells = map<Ptr, Block>

  datatype Owner = Caller | Whole(s: HandleId) | Part(s: HandleId, f: Field)

  function SlotOf(w: Struct, f: Field): Ptr {
    if f in w.slots then w.slots[f] else NULL
  }

  // ---------------------------------------------------------------------
  // Every live block has one owner, and every pointer its block
  // ---------------------------------------------------------------------

  predicate WrapperOk(cells: Cells, own: map<Ptr, Owner>, hs: map<HandleId, Ptr>, s: HandleId)
    requires s in hs
  {
    hs[s] in own && own[hs[s]] == Whole(s) && hs[s] in cells && cells[hs[s]].Wrap?
  }

  predicate FieldOk(cells: Cells, own: map<Ptr, Owner>, hs: map<HandleId, Ptr>, s: HandleId, f: Field)
    requires s in hs
  {
    hs[s] in cells && cells[hs[s]].Wrap? ==>
      var q := SlotOf(cells[hs[s]].w, f);
      q != NULL ==> q in own && own[q] == Part(s, f)
  }

  predicate BlockOk(cells: Cells, own: map<Ptr, Owner>, hs: map<HandleId, Ptr>, p: Ptr)
    requires p in own
  {
    && p != NULL && p in cells
    && match own[p]
       case Caller => cells[p].Text?
       case Whole(s) => s in hs && hs[s] == p
       case Part(s, f) =>
         cells[p].Text? && s in hs && hs[s] in cells && cells[hs[s]].Wrap? && SlotOf(cells[hs[s]].w, f) == p
  }

  ghost predicate Owned(cells: Cells, own: map<Ptr, Owner>, hs: map<HandleId, Ptr>) {
    && cells.Keys == own.Keys
    && (forall s :: s in hs ==> WrapperOk(cells, own, hs, s))
    && (forall s, f :: s in hs ==> FieldOk(cells, own, hs, s, f))
    && (forall p :: p in own ==> BlockOk(cells, own, hs, p))
  }

  // ---------------------------------------------------------------------
  // What the pointers mean
  // ---------------------------------------------------------------------

  /** A wrapper with its pointers followed. */
  datatype Image = Image(segment: SegId, transaction: TxnId, locked: bool, texts: map<Field, string>)

  function TextAt(cells: Cells, p: Ptr): Option<string> {
    if p != NULL && p in cells && cells[p].Text? then Some(cells[p].s) else None
  }

  function ImageOf(cells: Cells, w: Struct): Image {
    Image(w.segment, w.transaction, w.locked,
          map f | f in w.slots && TextAt(cells, w.slots[f]).Some? :: TextAt(cells, w.slots[f]).value)
  }

  function Images(cells: Cells, hs: map<HandleId, Ptr>): map<HandleId, Image> {
    map s | s in hs && hs[s] in cells && cells[hs[s]].Wrap? :: ImageOf(cells, cells[hs[s]].w)
  }

  function CallersOf(cells: Cells, own: map<Ptr, Owner>): map<Ptr, string> {
    map p | p in own && own[p] == Caller && TextAt(cells, p).Some? :: TextAt(cells, p).value
  }

  /** The blocks an open wrapper answers for: itself and the strings it points to. */
  function Footprint(cells: Cells, p: Ptr): set<Ptr>
    requires p in cells && cells[p].Wrap?
  {
    {p} + (set f | f in cells[p].w.slots && cells[p].w.slots[f] != NULL :: cells[p].w.slots[f])
  }

  lemma FootprintOwner(cells: Cells, own: map<Ptr, Owner>, hs: map<HandleId, Ptr>, s: HandleId)
    requires Owned(cells, own, hs) && s in hs && WrapperOk(cells, own, hs, s)
    ensures forall p :: p in Footprint(cells, hs[s]) ==> p in own && own[p] != Caller && own[p].s == s
  {
    forall p | p in Footprint(cells, hs[s]) ensures p in own && own[p] != Caller && own[p].s == s {
      if p != hs[s] {
        var f :| f in cells[hs[s]].w.slots && cells[hs[s]].w.slots[f] == p && p != NULL;
        assert FieldOk(cells, own, hs, s, f);
      }
    }
  }

  lemma HandleFacts(cells: Cells, own: map<Ptr, Owner>, hs: map<HandleId, Ptr>)
    requires Owned(cells, own, hs)
    ensures forall s :: s in hs ==> WrapperOk(cells, own, hs, s)
  {
  }

  /** Conservation: the live blocks are the caller's and the footprints of the open wrappers, nothing else,
      and the footprints of two wrappers and the caller's blocks share nothing. */
  lemma LiveIsFootprints(cells: Cells, own: map<Ptr, Owner>, hs: map<HandleId, Ptr>)
    requires Owned(cells, own, hs)
    ensures forall s :: s in hs ==> hs[s] in cells && cells[hs[s]].Wrap?
    ensures forall p :: p in cells <==> p in CallersOf(cells, own) || exists s :: s in hs && p in Footprint(cells, hs[s])
    ensures forall s, s' :: s in hs && s' in hs && s != s' ==> Footprint(cells, hs[s]) !! Footprint(cells, hs[s'])
    ensures forall s :: s in hs ==> Footprint(cells, hs[s]) !! CallersOf(cells, own).Keys
  {
    HandleFacts(cells, own, hs);
    assert cells.Keys == own.Keys;
    forall p | p in cells ensures p in CallersOf(cells, own) || exists s :: s in hs && p in Footprint(cells, hs[s]) {
      assert BlockOk(cells, own, hs, p);
      if own[p] != Caller { assert p in Footprint(cells, hs[own[p].s]); }
    }
    forall s | s in hs
      ensures forall p :: p in Footprint(cells, hs[s]) ==> p in own && own[p] != Caller && own[p].s == s
    {
      FootprintOwner(cells, own, hs, s);
    }
    hide Owned, Footprint, WrapperOk;
  }

  // ---------------------------------------------------------------------
  // The single heap operations
  // ---------------------------------------------------------------------

  predicate Of(o: Owner, s: HandleId) { o != Caller && o.s == s }

  /** Nothing that belongs to another handle or to the caller changed. */
  ghost predicate OnlyAt(cells: Cells, own: map<Ptr, Owner>, cells': Cells, own': map<Ptr, Owner>, s: HandleId) {
    && (forall p :: p in own && !Of(own[p], s) ==> p in own' && own'[p] == own[p] && Get(cells', p) == Get(cells, p))
    && (forall p :: p in own' && !Of(own'[p], s) ==> p in own && own[p] == own'[p])
  }

  lemma SameImage(cells: Cells, cells': Cells, w: Struct)
    requires forall f :: f in w.slots ==> TextAt(cells', w.slots[f]) == TextAt(cells, w.slots[f])
    ensures ImageOf(cells', w) == ImageOf(cells, w)
  {
    hide TextAt;
  }

  lemma OtherImage(cells: Cells, own: map<Ptr, Owner>, cells': Cells, own': map<Ptr, Owner>, hs: map<HandleId, Ptr>, s: HandleId, x: HandleId)
    requires Owned(cells, own, hs) && OnlyAt(cells, own, cells', own', s) && x in hs && x != s && WrapperOk(cells, own, hs, x)
    ensures hs[x] in cells' && cells'[hs[x]] == cells[hs[x]]
    ensures ImageOf(cells', cells[hs[x]].w) == ImageOf(cells, cells[hs[x]].w)
  {
    hide ImageOf;
    assert Get(cells', hs[x]) == Get(cells, hs[x]);
    var w := cells[hs[x]].w;
    forall f | f in w.slots ensures TextAt(cells', w.slots[f]) == TextAt(cells, w.slots[f]) {
      assert FieldOk(cells, own, hs, x, f);
      var q := w.slots[f];
      if q != NULL { assert Get(cells', q) == Get(cells, q); }
    }
    SameImage(cells, cells', w);
  }

  lemma SameCallers(cells: Cells, own: map<Ptr, Owner>, cells': Cells, own': map<Ptr, Owner>, s: HandleId)
    requires OnlyAt(cells, own, cells', own', s)
    ensures CallersOf(cells', own') == CallersOf(cells, own)
  {
    forall p ensures p in CallersOf(cells', own') <==> p in CallersOf(cells, own) {
      if p in own && own[p] == Caller { assert Get(cells', p) == Get(cells, p); }
    }
    forall p | p in CallersOf(cells, own) ensures CallersOf(cells', own')[p] == CallersOf(cells, own)[p] {
      assert Get(cells', p) == Get(cells, p);
    }
  }

  lemma OtherHandle(hs: map<HandleId, Ptr>, hs': map<HandleId, Ptr>, s: HandleId, x: HandleId)
    requires hs' - {s} == hs - {s} && x != s
    ensures x in hs' <==> x in hs
    ensures x in hs ==> hs'[x] == hs[x]
  {
    assert x in hs' - {s} <==> x in hs - {s};
    if x in hs { assert (hs' - {s})[x] == (hs - {s})[x]; }
  }

  lemma OtherOk(cells: Cells, own: map<Ptr, Owner>, cells': Cells, own': map<Ptr, Owner>,
                hs: map<HandleId, Ptr>, hs': map<HandleId, Ptr>, s: HandleId, x: HandleId)
    requires Owned(cells, own, hs) && OnlyAt(cells, own, cells', own', s) && hs' - {s} == hs - {s}
    requires x in hs' && x != s
    ensures WrapperOk(cells', own', hs', x) && forall f :: FieldOk(cells', own', hs', x, f)
  {
    OtherHandle(hs, hs', s, x);
    assert WrapperOk(cells, own, hs, x);
    assert Get(cells', hs[x]) == Get(cells, hs[x]);
    forall f ensures FieldOk(cells', own', hs', x, f) { assert FieldOk(cells, own, hs, x, f); }
  }

  lemma OtherBlock(cells: Cells, own: map<Ptr, Owner>, cells': Cells, own': map<Ptr, Owner>,
                   hs: map<HandleId, Ptr>, hs': map<HandleId, Ptr>, s: HandleId, p: Ptr)
    requires Owned(cells, own, hs) && OnlyAt(cells, own, cells', own', s) && hs' - {s} == hs - {s}
    requires p in own' && !Of(own'[p], s)
    ensures BlockOk(cells', own', hs', p)
  {
    assert Get(cells', p) == Get(cells, p) && BlockOk(cells, own, hs, p);
    if own[p] != Caller {
      var x := own[p].s;
      OtherHandle(hs, hs', s, x);
      assert WrapperOk(cells, own, hs, x);
      assert Get(cells', hs[x]) == Get(cells, hs[x]);
    }
  }

  /** An operation on the handle s: the others keep their blocks. */
  lemma OnlyAtOwned(cells: Cells, own: map<Ptr, Owner>, cells': Cells, own': map<Ptr, Owner>,
                    hs: map<HandleId, Ptr>, hs': map<HandleId, Ptr>, s: HandleId)
    requires Owned(cells, own, hs) && OnlyAt(cells, own, cells', own', s)
    requires cells'.Keys == own'.Keys && hs' - {s} == hs - {s}
    requires s in hs' ==> WrapperOk(cells', own', hs', s) && forall f :: FieldOk(cells', own', hs', s, f)
    requires forall p :: p in own' && Of(own'[p], s) ==> BlockOk(cells', own', hs', p)
    ensures Owned(cells', own', hs')
  {
    hide WrapperOk, FieldOk, BlockOk, OnlyAt;
    forall x | x in hs' && x != s ensures WrapperOk(cells', own', hs', x) && forall f :: FieldOk(cells', own', hs', x, f) {
      OtherOk(cells, own, cells', own', hs, hs', s, x);
    }
    forall p | p in own' && !Of(own'[p], s) ensures BlockOk(cells', own', hs', p) {
      OtherBlock(cells, own, cells', own', hs, hs', s, p);
    }
  }

  /** And they keep their meaning. */
  lemma OnlyAtImages(cells: Cells, own: map<Ptr, Owner>, cells': Cells, own': map<Ptr, Owner>,
                     hs: map<HandleId, Ptr>, hs': map<HandleId, Ptr>, s: HandleId)
    requires Owned(cells, own, hs) && OnlyAt(cells, own, cells', own', s) && hs' - {s} == hs - {s}
    requires s in hs' ==> WrapperOk(cells', own', hs', s)
    ensures Images(cells', hs') ==
            if s in hs' then Images(cells, hs)[s := ImageOf(cells', cells'[hs'[s]].w)] else Images(cells, hs) - {s}
  {
    hide ImageOf, OnlyAt, Owned;
    HandleFacts(cells, own, hs);
    forall x | x != s
      ensures x in hs' <==> x in hs
      ensures x in hs ==> hs'[x] == hs[x] && hs[x] in cells' && hs[x] in cells && cells'[hs[x]] == cells[hs[x]]
      ensures x in hs ==> cells[hs[x]].Wrap? && ImageOf(cells', cells[hs[x]].w) == ImageOf(cells, cells[hs[x]].w)
    {
      OtherHandle(hs, hs', s, x);
      if x in hs { OtherImage(cells, own, cells', own', hs, s, x); }
    }
  }

  /** All three at once, from what the operation did at s. */
  lemma ChangeAt(cells: Cells, own: map<Ptr, Owner>, cells': Cells, own': map<Ptr, Owner>,
                 hs: map<HandleId, Ptr>, hs': map<HandleId, Ptr>, s: HandleId)
    requires Owned(cells, own, hs) && OnlyAt(cells, own, cells', own', s)
    requires cells'.Keys == own'.Keys && hs' - {s} == hs - {s}
    requires s in hs' ==> WrapperOk(cells', own', hs', s) && forall f :: FieldOk(cells', own', hs', s, f)
    requires forall p :: p in own' && Of(own'[p], s) ==> BlockOk(cells', own', hs', p)
    ensures Owned(cells', own', hs')
    ensures CallersOf(cells', own') == CallersOf(cells, own)
    ensures Images(cells', hs') ==
            if s in hs' then Images(cells, hs)[s := ImageOf(cells', cells'[hs'[s]].w)] else Images(cells, hs) - {s}
  {
    hide Owned, OnlyAt, ImageOf, CallersOf, Images, FieldOk, BlockOk;
    SameCallers(cells, own, cells', own', s);
    OnlyAtOwned(cells, own, cells', own', hs, hs', s);
    OnlyAtImages(cells, own, cells', own', hs, hs', s);
  }

  // -- allocation and release of a wrapper --

  lemma AllocKeeps(cells: Cells, own: map<Ptr, Owner>, hs: map<HandleId, Ptr>, s: HandleId, q: Ptr)
    requires Owned(cells, own, hs) && s !in hs && q != NULL && q !in cells
    ensures var cells', own', hs' := cells[q := Wrap(Struct(0, 0, false, map[]))], own[q := Whole(s)], hs[s := q];
            && Owned(cells', own', hs')
            && Images(cells', hs') == Images(cells, hs)[s := Image(0, 0, false, map[])]
            && CallersOf(cells', own') == CallersOf(cells, own)
  {
    hide Owned, Images, CallersOf;
    var w := Struct(0, 0, false, map[]);
    var cells', own', hs' := cells[q := Wrap(w)], own[q := Whole(s)], hs[s := q];
    NothingOf(cells, own, hs, s);
    KeysAgree(cells, own, hs);
    assert hs' - {s} == hs - {s};
    ChangeAt(cells, own, cells', own', hs, hs', s);
    assert ImageOf(cells', w) == Image(0, 0, false, map[]);
  }

  /** What the handle s points to. */
  lemma OwnBlocks(cells: Cells, own: map<Ptr, Owner>, hs: map<HandleId, Ptr>, s: HandleId)
    requires Owned(cells, own, hs) && s in hs
    ensures WrapperOk(cells, own, hs, s) && hs[s] != NULL && cells.Keys == own.Keys
    ensures forall f :: FieldOk(cells, own, hs, s, f)
    ensures forall p :: p in own && Of(own[p], s) ==> BlockOk(cells, own, hs, p)
  {
    assert BlockOk(cells, own, hs, hs[s]);
  }

  predicate Emptied(w: Struct) { forall f :: f in w.slots ==> w.slots[f] == NULL }

  /** A wrapper whose fields are all released may be released itself. */
  lemma ReleaseKeeps(cells: Cells, own: map<Ptr, Owner>, hs: map<HandleId, Ptr>, s: HandleId)
    requires Owned(cells, own, hs) && s in hs && WrapperOk(cells, own, hs, s) && Emptied(cells[hs[s]].w)
    ensures var cells', own', hs' := cells - {hs[s]}, own - {hs[s]}, hs - {s};
            && Owned(cells', own', hs')
            && Images(cells', hs') == Images(cells, hs) - {s}
            && CallersOf(cells', own') == CallersOf(cells, own)
  {
    hide Owned, Images, CallersOf;
    var cells', own', hs' := cells - {hs[s]}, own - {hs[s]}, hs - {s};
    OwnBlocks(cells, own, hs, s);
    forall p | p in own && Of(own[p], s) ensures p == hs[s] { assert BlockOk(cells, own, hs, p); }
    ChangeAt(cells, own, cells', own', hs, hs', s);
  }

  /** Writing the plain members of a wrapper. */
  lemma WriteKeeps(cells: Cells, own: map<Ptr, Owner>, hs: map<HandleId, Ptr>, s: HandleId, w: Struct)
    requires Owned(cells, own, hs) && s in hs && WrapperOk(cells, own, hs, s) && w.slots == cells[hs[s]].w.slots
    ensures var cells' := cells[hs[s] := Wrap(w)];
            && Owned(cells', own, hs)
            && Images(cells', hs) == Images(cells, hs)[s :=
                 ImageOf(cells, cells[hs[s]].w).(segment := w.segment, transaction := w.transaction, locked := w.locked)]
            && CallersOf(cells', own) == CallersOf(cells, own)
  {
    hide Owned, Images, CallersOf;
    var cells' := cells[hs[s] := Wrap(w)];
    OwnBlocks(cells, own, hs, s);
    forall f ensures FieldOk(cells', own, hs, s, f) { assert FieldOk(cells, own, hs, s, f); }
    forall p | p in own && Of(own[p], s) ensures BlockOk(cells', own, hs, p) { assert BlockOk(cells, own, hs, p); }
    ChangeAt(cells, own, cells', own, hs, hs, s);
    SlotTexts(cells, own, hs, s, cells', w);
  }

  lemma SlotTexts(cells: Cells, own: map<Ptr, Owner>, hs: map<HandleId, Ptr>, s: HandleId, cells': Cells, w: Struct)
    requires Owned(cells, own, hs) && s in hs && WrapperOk(cells, own, hs, s) && w.slots == cells[hs[s]].w.slots
    requires cells' == cells[hs[s] := Wrap(w)]
    ensures ImageOf(cells', w).texts == ImageOf(cells, cells[hs[s]].w).texts
  {
    hide Owned;
    OwnBlocks(cells, own, hs, s);
    forall f | f in w.slots ensures TextAt(cells', w.slots[f]) == TextAt(cells, w.slots[f]) {
      assert FieldOk(cells, own, hs, s, f);
    }
  }

  lemma KeysAgree(cells: Cells, own: map<Ptr, Owner>, hs: map<HandleId, Ptr>)
    requires Owned(cells, own, hs)
    ensures cells.Keys == own.Keys
  {
  }

  /** A closed handle owns nothing. */
  lemma NothingOf(cells: Cells, own: map<Ptr, Owner>, hs: map<HandleId, Ptr>, s: HandleId)
    requires Owned(cells, own, hs) && s !in hs
    ensures forall p :: p in own ==> !Of(own[p], s)
  {
    forall p | p in own ensures !Of(own[p], s) { assert BlockOk(cells, own, hs, p); }
  }

  // -- string fields --

  /** nr_strdup stored through an empty field. */
  lemma CopyKeeps(cells: Cells, own: map<Ptr, Owner>, hs: map<HandleId, Ptr>, s: HandleId, f: Field, q: Ptr, text: string)
    requires Owned(cells, own, hs) && s in hs && WrapperOk(cells, own, hs, s)
    requires q != NULL && q !in cells && SlotOf(cells[hs[s]].w, f) == NULL
    ensures var w, i := cells[hs[s]].w, ImageOf(cells, cells[hs[s]].w);
            var cells' := cells[q := Text(text)][hs[s] := Wrap(w.(slots := w.slots[f := q]))];
            var own' := own[q := Part(s, f)];
            && Owned(cells', own', hs)
            && Images(cells', hs) == Images(cells, hs)[s := i.(texts := i.texts[f := text])]
            && CallersOf(cells', own') == CallersOf(cells, own)
  {
    hide Owned, Images, CallersOf, ImageOf;
    var w := cells[hs[s]].w;
    var w' := w.(slots := w.slots[f := q]);
    var cells', own' := cells[q := Text(text)][hs[s] := Wrap(w')], own[q := Part(s, f)];
    OwnBlocks(cells, own, hs, s);
    forall g ensures FieldOk(cells', own', hs, s, g) { assert FieldOk(cells, own, hs, s, g); }
    forall p | p in own' && Of(own'[p], s) ensures BlockOk(cells', own', hs, p) {
      if p != q { assert BlockOk(cells, own, hs, p); }
    }
    ChangeAt(cells, own, cells', own', hs, hs, s);
    CopyImage(cells, cells', own, hs, s, f, q, text);
  }

  lemma CopyImage(cells: Cells, cells': Cells, own: map<Ptr, Owner>, hs: map<HandleId, Ptr>, s: HandleId, f: Field, q: Ptr, text: string)
    requires Owned(cells, own, hs) && s in hs && WrapperOk(cells, own, hs, s) && q != NULL && q !in cells
    requires var w := cells[hs[s]].w; cells' == cells[q := Text(text)][hs[s] := Wrap(w.(slots := w.slots[f := q]))]
    ensures var i := ImageOf(cells, cells[hs[s]].w);
            ImageOf(cells', cells'[hs[s]].w) == i.(texts := i.texts[f := text])
  {
    hide Owned;
    var w := cells[hs[s]].w;
    OwnBlocks(cells, own, hs, s);
    forall g | g in w.slots ensures TextAt(cells', w.slots[g]) == TextAt(cells, w.slots[g]) {
      assert FieldOk(cells, own, hs, s, g);
    }
    assert TextAt(cells', q) == Some(text);
  }

  /** nr_free of a field: the block goes and the field is cleared; a field that is NULL stays so. */
  lemma FreeKeeps(cells: Cells, own: map<Ptr, Owner>, hs: map<HandleId, Ptr>, s: HandleId, f: Field)
    requires Owned(cells, own, hs) && s in hs && WrapperOk(cells, own, hs, s)
    ensures var w, i := cells[hs[s]].w, ImageOf(cells, cells[hs[s]].w);
            var q := SlotOf(w, f);
            var cells' := (cells - {q})[hs[s] := Wrap(w.(slots := w.slots[f := NULL]))];
            && (q == NULL || (q in cells && cells[q].Text?))
            && Owned(cells', own - {q}, hs)
            && Images(cells', hs) == Images(cells, hs)[s := i.(texts := i.texts - {f})]
            && CallersOf(cells', own - {q}) == CallersOf(cells, own)
  {
    hide Owned, Images, CallersOf, ImageOf;
    var w := cells[hs[s]].w;
    var q := SlotOf(w, f);
    var cells', own' := (cells - {q})[hs[s] := Wrap(w.(slots := w.slots[f := NULL]))], own - {q};
    OwnBlocks(cells, own, hs, s);
    assert FieldOk(cells, own, hs, s, f);
    if q != NULL { assert BlockOk(cells, own, hs, q); }
    NullIsDead(cells, own, hs);
    forall g ensures FieldOk(cells', own', hs, s, g) { assert FieldOk(cells, own, hs, s, g); }
    forall p | p in own' && Of(own'[p], s) ensures BlockOk(cells', own', hs, p) { assert BlockOk(cells, own, hs, p); }
    ChangeAt(cells, own, cells', own', hs, hs, s);
    FreeImage(cells, cells', own, hs, s, f);
  }

  lemma NullIsDead(cells: Cells, own: map<Ptr, Owner>, hs: map<HandleId, Ptr>)
    requires Owned(cells, own, hs)
    ensures NULL !in own && NULL !in cells
  {
    forall p | p in own ensures p != NULL { assert BlockOk(cells, own, hs, p); }
  }

  lemma FreeImage(cells: Cells, cells': Cells, own: map<Ptr, Owner>, hs: map<HandleId, Ptr>, s: HandleId, f: Field)
    requires Owned(cells, own, hs) && s in hs && WrapperOk(cells, own, hs, s)
    requires var w := cells[hs[s]].w;
             cells' == (cells - {SlotOf(w, f)})[hs[s] := Wrap(w.(slots := w.slots[f := NULL]))]
    ensures var i := ImageOf(cells, cells[hs[s]].w);
            ImageOf(cells', cells'[hs[s]].w) == i.(texts := i.texts - {f})
  {
    hide Owned, ImageOf;
    var w := cells[hs[s]].w;
    OwnBlocks(cells, own, hs, s);
    assert FieldOk(cells, own, hs, s, f);
    forall g | g in w.slots && g != f ensures TextAt(cells', w.slots[g]) == TextAt(cells, w.slots[g]) {
      assert FieldOk(cells, own, hs, s, g);
    }
    TextsWithout(cells, cells', w, f);
  }

  lemma NoTextAtNull(cells: Cells)
    ensures TextAt(cells, NULL).None?
  {
  }

  lemma TextsWithout(cells: Cells, cells': Cells, w: Struct, f: Field)
    requires forall g :: g in w.slots && g != f ==> TextAt(cells', w.slots[g]) == TextAt(cells, w.slots[g])
    ensures var i := ImageOf(cells, w);
            ImageOf(cells', w.(slots := w.slots[f := NULL])) == i.(texts := i.texts - {f})
  {
    hide TextAt;
    var w' := w.(slots := w.slots[f := NULL]);
    var a, b := ImageOf(cells', w').texts, ImageOf(cells, w).texts;
    assert TextAt(cells', NULL).None? by { NoTextAtNull(cells'); }
    assert f !in a;
    forall g | g != f ensures g in a <==> g in b { assert g in w'.slots <==> g in w.slots; }
    forall g | g in a ensures a[g] == b[g] { assert w'.slots[g] == w.slots[g]; }
    assert a == b - {f};
  }

  // -- the caller's own buffers --

  /** The caller allocates, overwrites or frees a buffer of its own: no handle means anything else. */
  lemma CallerKeeps(cells: Cells, own: map<Ptr, Owner>, hs: map<HandleId, Ptr>, q: Ptr, text: Option<string>)
    requires Owned(cells, own, hs) && q != NULL && (q in own ==> own[q] == Caller)
    ensures var block := if text.Some? then Some(Text(text.value)) else None;
            var cells', own' := Put(cells, q, block), Put(own, q, if text.Some? then Some(Caller) else None);
            && Owned(cells', own', hs)
            && Images(cells', hs) == Images(cells, hs)
            && CallersOf(cells', own') == Put(CallersOf(cells, own), q, text)
  {
    hide Owned, Images, CallersOf, ImageOf;
    var block := if text.Some? then Some(Text(text.value)) else None;
    var cells', own' := Put(cells, q, block), Put(own, q, if text.Some? then Some(Caller) else None);
    CallerOwned(cells, own, hs, q, text);
    CallerImages(cells, own, cells', hs, q);
    CallerBlocks(cells, own, cells', own', q, text);
  }

  lemma CallerOwned(cells: Cells, own: map<Ptr, Owner>, hs: map<HandleId, Ptr>, q: Ptr, text: Option<string>)
    requires Owned(cells, own, hs) && q != NULL && (q in own ==> own[q] == Caller)
    ensures Owned(Put(cells, q, if text.Some? then Some(Text(text.value)) else None),
                  Put(own, q, if text.Some? then Some(Caller) else None), hs)
  {
    var block := if text.Some? then Some(Text(text.value)) else None;
    var cells', own' := Put(cells, q, block), Put(own, q, if text.Some? then Some(Caller) else None);
    forall s | s in hs ensures WrapperOk(cells', own', hs, s) { assert WrapperOk(cells, own, hs, s); }
    forall s, f | s in hs ensures FieldOk(cells', own', hs, s, f) {
      assert WrapperOk(cells, own, hs, s) && FieldOk(cells, own, hs, s, f);
    }
    forall p | p in own' ensures BlockOk(cells', own', hs, p) {
      if p != q {
        assert BlockOk(cells, own, hs, p);
        if own[p] != Caller { assert WrapperOk(cells, own, hs, own[p].s); }
      }
    }
  }

  lemma CallerImages(cells: Cells, own: map<Ptr, Owner>, cells': Cells, hs: map<HandleId, Ptr>, q: Ptr)
    requires Owned(cells, own, hs) && (q in own ==> own[q] == Caller)
    requires forall p :: p != q ==> Get(cells', p) == Get(cells, p)
    ensures Images(cells', hs) == Images(cells, hs)
  {
    hide ImageOf;
    forall s | s in hs
      ensures hs[s] in cells && hs[s] in cells' && cells'[hs[s]] == cells[hs[s]] && cells[hs[s]].Wrap?
      ensures ImageOf(cells', cells[hs[s]].w) == ImageOf(cells, cells[hs[s]].w)
    {
      assert WrapperOk(cells, own, hs, s);
      assert Get(cells', hs[s]) == Get(cells, hs[s]);
      var w := cells[hs[s]].w;
      forall f | f in w.slots ensures TextAt(cells', w.slots[f]) == TextAt(cells, w.slots[f]) {
        assert FieldOk(cells, own, hs, s, f);
        assert w.slots[f] != q || q == NULL || q !in own;
        assert w.slots[f] != q ==> Get(cells', w.slots[f]) == Get(cells, w.slots[f]);
      }
      SameImage(cells, cells', w);
    }
  }

  lemma CallerBlocks(cells: Cells, own: map<Ptr, Owner>, cells': Cells, own': map<Ptr, Owner>, q: Ptr, text: Option<string>)
    requires q != NULL && (q in own ==> own[q] == Caller)
    requires cells' == Put(cells, q, if text.Some? then Some(Text(text.value)) else None)
    requires own' == Put(own, q, if text.Some? then Some(Caller) else None)
    ensures CallersOf(cells', own') == Put(CallersOf(cells, own), q, text)
  {
  }
}
