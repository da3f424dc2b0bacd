/** Custom events: one owner, the caller's handle, until record or discard releases them. */
module Events {
  import opened Common
  import opened Model
  import opened Ownership
  import opened Session
  import Effects

  datatype EventCall =
    | Add(key: Option<string>, value: Value, accepts: bool)   // axiom decides whether it accepts the attribute
    | Record(onTxn: bool)                                    // with a transaction, or with NULL
    | Discard

  /** The caller's handle, how often the event was released, and what transactions were handed. */
  datatype Slot = Slot(event: Option<EventRecord>, released: nat, recorded: seq<EventRecord>)

  predicate Writes(c: EventCall, k: string) { c.Add? && c.key == Some(k) && c.accepts }

  predicate Consumes(c: EventCall) { c.Discard? || (c.Record? && c.onTxn) }

  /** One call on the handle, and what it returns. */
  function Use(h: Slot, c: EventCall): (Slot, bool) {
    match c
    case Add(key, value, accepts) =>
      if h.event.None? || key.None? || !accepts then (h, false)
      else
        var e := h.event.value;
        (h.(event := Some(e.(attributes := e.attributes[key.value := value]))), true)
    case Record(onTxn) =>
      if h.event.None? || !onTxn then (h, false)
      else (Slot(None, h.released + 1, h.recorded + [h.event.value]), false)
    case Discard =>
      if h.event.None? then (h, false) else (h.(event := None, released := h.released + 1), false)
  }

  /** newrelic_create_custom_event. */
  function Created(type_: Option<string>): Slot {
    Slot(if type_.Some? then Some(EventRecord(type_.value, map[])) else None, 0, [])
  }

  function UseAll(h: Slot, cs: seq<EventCall>): Slot
    decreases |cs|
  {
    if cs == [] then h else Use(UseAll(h, cs[..|cs| - 1]), cs[|cs| - 1]).0
  }

  // ---------------------------------------------------------------------
  // Last write wins
  // ---------------------------------------------------------------------

  /** Call i is the last that writes key k. */
  ghost predicate LastWrite(cs: seq<EventCall>, k: string, i: nat) {
    i < |cs| && Writes(cs[i], k) && forall j :: i < j < |cs| ==> !Writes(cs[j], k)
  }

  /** Key k has the value of its last write, and none if it was never written. */
  ghost predicate WinsAt(cs: seq<EventCall>, attributes: map<string, Value>, k: string) {
    && (k in attributes <==> exists i: nat :: LastWrite(cs, k, i))
    && (forall i: nat :: LastWrite(cs, k, i) ==> k in attributes && attributes[k] == cs[i].value)
  }

  ghost predicate LastWriteWins(cs: seq<EventCall>, attributes: map<string, Value>) {
    forall k :: WinsAt(cs, attributes, k)
  }

  predicate NoneConsumes(cs: seq<EventCall>) { forall i :: 0 <= i < |cs| ==> !Consumes(cs[i]) }

  lemma LastWriteSnoc(cs: seq<EventCall>, c: EventCall, k: string, i: nat)
    ensures LastWrite(cs + [c], k, i) <==> if Writes(c, k) then i == |cs| else i < |cs| && LastWrite(cs, k, i)
  {
    if i < |cs| && LastWrite(cs + [c], k, i) {
      assert !Writes((cs + [c])[|cs|], k);
      forall j | i < j < |cs| ensures !Writes(cs[j], k) { assert (cs + [c])[j] == cs[j]; }
    }
  }

  function Written(a: map<string, Value>, c: EventCall): map<string, Value> {
    if c.Add? && c.key.Some? && c.accepts then a[c.key.value := c.value] else a
  }

  lemma WinsSnoc(cs: seq<EventCall>, c: EventCall, a: map<string, Value>, k: string)
    requires WinsAt(cs, a, k)
    ensures WinsAt(cs + [c], Written(a, c), k)
  {
    forall i: nat ensures LastWrite(cs + [c], k, i) <==> if Writes(c, k) then i == |cs| else i < |cs| && LastWrite(cs, k, i) {
      LastWriteSnoc(cs, c, k, i);
    }
    if !Writes(c, k) && k in a {
      var i: nat :| LastWrite(cs, k, i);
      assert LastWrite(cs + [c], k, i);
    }
    assert Writes(c, k) ==> LastWrite(cs + [c], k, |cs|);
  }

  /** While nobody consumes it, a live event holds the last-write-wins map of the adds. */
  lemma {:induction false} LiveAttributes(type_: string, cs: seq<EventCall>)
    requires NoneConsumes(cs)
    ensures var h := UseAll(Created(Some(type_)), cs);
            && h.event.Some? && h.event.value.type_ == type_ && LastWriteWins(cs, h.event.value.attributes)
            && h.released == 0 && h.recorded == []
    decreases |cs|
  {
    hide WinsAt;
    if cs == [] {
      forall k ensures WinsAt([], map[], k) { NothingWritten(k); }
    } else {
      var front, c := cs[..|cs| - 1], cs[|cs| - 1];
      assert cs == front + [c] && !Consumes(c);
      LiveAttributes(type_, front);
      var a := UseAll(Created(Some(type_)), front).event.value.attributes;
      assert UseAll(Created(Some(type_)), cs).event.value.attributes == Written(a, c);
      forall k ensures WinsAt(cs, Written(a, c), k) { WinsSnoc(front, c, a, k); }
    }
  }

  lemma NothingWritten(k: string)
    ensures WinsAt([], map[], k)
  {
  }

  // ---------------------------------------------------------------------
  // Released once, recorded at most once
  // ---------------------------------------------------------------------

  /** Call n is the first that consumes the event. */
  predicate FirstConsumer(cs: seq<EventCall>, n: nat) {
    n < |cs| && Consumes(cs[n]) && NoneConsumes(cs[..n])
  }

  lemma {:induction false} StaysConsumed(h: Slot, cs: seq<EventCall>)
    requires h.event.None?
    ensures UseAll(h, cs) == h
    decreases |cs|
  {
    if cs != [] { StaysConsumed(h, cs[..|cs| - 1]); }
  }

  lemma {:induction false} UseAllConcat(h: Slot, cs: seq<EventCall>, ds: seq<EventCall>)
    ensures UseAll(h, cs + ds) == UseAll(UseAll(h, cs), ds)
    decreases |ds|
  {
    if ds == [] {
      assert cs + ds == cs;
    } else {
      assert (cs + ds)[..|cs| + |ds| - 1] == cs + ds[..|ds| - 1];
      UseAllConcat(h, cs, ds[..|ds| - 1]);
    }
  }

  /** Any order and repetition of adds, records and discards: the event is released exactly once, by the first
      call that consumes it, and handed to a transaction exactly when that call is a record; what is handed over
      is the last-write-wins map of the adds before it. */
  lemma ReleasedOnce(type_: string, cs: seq<EventCall>, n: nat)
    requires FirstConsumer(cs, n)
    ensures var h := UseAll(Created(Some(type_)), cs);
            && h.event.None? && h.released == 1
            && (if cs[n].Record? then
                  |h.recorded| == 1 && h.recorded[0].type_ == type_ && LastWriteWins(cs[..n], h.recorded[0].attributes)
                else h.recorded == [])
  {
    var h0 := Created(Some(type_));
    LiveAttributes(type_, cs[..n]);
    assert cs[..n + 1][..n] == cs[..n];
    var h1 := UseAll(h0, cs[..n + 1]);
    assert cs == cs[..n + 1] + cs[n + 1..];
    UseAllConcat(h0, cs[..n + 1], cs[n + 1..]);
    StaysConsumed(h1, cs[n + 1..]);
  }

  /** An add succeeds exactly on a live event, with a key, when axiom accepts it. */
  lemma AddSucceedsIff(h: Slot, key: Option<string>, value: Value, accepts: bool)
    ensures Use(h, Add(key, value, accepts)).1 <==> h.event.Some? && key.Some? && accepts
  {
  }

  /** A run has a first consumer, or none and the event is still live and unreleased. */
  lemma {:induction false} ConsumedOrLive(cs: seq<EventCall>)
    ensures NoneConsumes(cs) <==> forall n: nat :: !FirstConsumer(cs, n)
    decreases |cs|
  {
    if !NoneConsumes(cs) {
      var i :| 0 <= i < |cs| && Consumes(cs[i]);
      if NoneConsumes(cs[..i]) {
        assert FirstConsumer(cs, i);
      } else {
        ConsumedOrLive(cs[..i]);
        var n: nat :| FirstConsumer(cs[..i], n);
        assert cs[..i][..n] == cs[..n];
        assert FirstConsumer(cs, n);
      }
    }
  }

  // ---------------------------------------------------------------------
  // In place
  // ---------------------------------------------------------------------

  /** newrelic_custom_event_t: live until its block is freed. */
  class CustomEvent {
    const type_: string
    var attributes: map<string, Value>
    var live: bool

    constructor (type_: string)
      ensures this.type_ == type_ && attributes == map[] && live
    {
      this.type_, attributes, live := type_, map[], true;
    }

    /** Frees the type string, the attribute hash and the block; freeing a dead event is an error. */
    method Release()
      requires live
      modifies this
      ensures !live
    {
      live := false;
    }
  }

  /** The caller's pointer variable, passed by address to record and discard. */
  class EventVar {
    var event: CustomEvent?
    ghost var slot: Slot

    ghost predicate Valid()
      reads this, event
    {
      match slot.event
      case None => event == null
      case Some(e) => event != null && event.live && event.type_ == e.type_ && event.attributes == e.attributes
    }

    constructor (type_: Option<string>)
      ensures Valid() && slot == Created(type_) && (event != null ==> fresh(event))
    {
      event := null;
      slot := Created(type_);
      new;
      if type_.Some? { event := new CustomEvent(type_.value); }
    }

    /** newrelic_custom_event_add_attribute_int, _long, _double and _string. */
    method AddAttribute(key: Option<string>, value: Value, accepts: bool) returns (ok: bool)
      requires Valid()
      modifies this`slot, event
      ensures Valid() && event == old(event) && (slot, ok) == Use(old(slot), Add(key, value, accepts))
    {
      if event == null || key.None? || !accepts {
        return false;
      }
      event.attributes := event.attributes[key.value := value];
      slot := Use(slot, Add(key, value, accepts)).0;
      ok := true;
    }

    /** newrelic_discard_custom_event. */
    method Discard()
      requires Valid()
      modifies this, event
      ensures Valid() && slot == Use(old(slot), EventCall.Discard).0 && event == null
    {
      slot := Use(slot, EventCall.Discard).0;
      if event == null {
        return;
      }
      event.Release();
      event := null;
    }

    /** newrelic_record_custom_event: a NULL transaction leaves the event live, otherwise the transaction gets it
        and it is released. */
    method Record(tx: Transaction?, accepts: bool)
      requires Valid() && (tx != null ==> tx.Valid() && !tx.box.txn.status.ended)
      modifies this, event, tx, if tx != null then {tx.txn} else {}
      ensures Valid() && slot == Use(old(slot), EventCall.Record(tx != null)).0
      ensures tx == null ==> event == old(event)
      ensures tx != null ==> tx.Valid()
      ensures tx != null && old(slot).event.None? ==> tx.box == old(tx.box)
      ensures tx != null && old(slot).event.Some? ==>
                Model.Apply(tx.id, old(tx.box), RecordEvent(0, old(slot).event.value, accepts)) == Result(tx.box, Void)
      ensures tx != null && old(event) != null && old(tx.txn.status.recording) && accepts ==>
                tx.txn.data.events == old(tx.txn.data.events) + [EventRecord(old(event).type_, old(event.attributes))]
      ensures tx != null && !(old(event) != null && old(tx.txn.status.recording) && accepts) ==>
                tx.txn.data.events == old(tx.txn.data.events)
      ensures tx != null ==> tx.txn.status.recording == old(tx.txn.status.recording) && !tx.box.txn.status.ended
    {
      hide Owned, Images, CallersOf, Imaged, Invariants.Inv, Model.Apply;
      if tx != null && event != null {
        Effects.EventEffect(tx.id, tx.box, RecordEvent(0, EventRecord(event.type_, event.attributes), accepts));
      }
      if tx == null || event == null {
        return;
      }
      ghost var after := Use(slot, EventCall.Record(true)).0;
      tx.RecordCustomEvent(0, EventRecord(event.type_, event.attributes), accepts);
      Discard();
      slot := after;
    }

    /** Any sequence of calls on the event, the records among them on tx or on NULL: what tx receives is what the
        handle has handed over, if tx records and axiom keeps it. */
    method Drive(cs: seq<EventCall>, tx: Transaction, accepts: bool)
      requires Valid() && slot.recorded == [] && tx.Valid() && !tx.box.txn.status.ended
      modifies this, event, tx, tx.txn
      ensures Valid() && slot == UseAll(old(slot), cs)
      ensures tx.Valid() && !tx.box.txn.status.ended
      ensures tx.txn.status.recording == old(tx.txn.status.recording)
      ensures tx.txn.data.events == old(tx.txn.data.events) + (if tx.txn.status.recording && accepts then slot.recorded else [])
    {
      hide Owned, Images, CallersOf, Imaged, Invariants.Inv, Model.Apply, Use;
      ghost var h0 := slot;
      var i := 0;
      assert cs[..0] == [];
      while i < |cs|
        invariant 0 <= i <= |cs| && Valid() && slot == UseAll(h0, cs[..i]) && (event == old(event) || event == null)
        invariant tx.Valid() && !tx.box.txn.status.ended && tx.txn.status.recording == old(tx.txn.status.recording)
        invariant tx.txn.data.events == old(tx.txn.data.events) + (if tx.txn.status.recording && accepts then slot.recorded else [])
      {
        assert cs[..i + 1][..i] == cs[..i];
        One(cs[i], tx, accepts);
        i := i + 1;
      }
      assert cs[..i] == cs;
    }

    /** One of them. */
    method One(c: EventCall, tx: Transaction, accepts: bool)
      requires Valid() && tx.Valid() && !tx.box.txn.status.ended
      modifies this, event, tx, tx.txn
      ensures Valid() && slot == Use(old(slot), c).0 && (event == old(event) || event == null)
      ensures tx.Valid() && !tx.box.txn.status.ended && tx.txn.status.recording == old(tx.txn.status.recording)
      ensures old(slot).recorded <= slot.recorded
      ensures tx.txn.data.events == old(tx.txn.data.events)
                + (if tx.txn.status.recording && accepts then slot.recorded[|old(slot).recorded|..] else [])
    {
      hide Owned, Images, CallersOf, Imaged, Invariants.Inv, Model.Apply;
      match c
      case Add(key, value, ok) =>
        var _ := AddAttribute(key, value, ok);
      case Discard => Discard();
      case Record(onTxn) =>
        Record(if onTxn then tx else null, accepts);
    }
  }

  /** The whole life of an event whose first consuming call is a record: the transaction receives one event, of its
      type, with the last-write-wins attributes of the adds before that call. */
  method RecordOnce(type_: string, cs: seq<EventCall>, n: nat, tx: Transaction)
    requires FirstConsumer(cs, n) && cs[n].Record?
    requires tx.Valid() && !tx.box.txn.status.ended && tx.txn.status.recording
    modifies tx, tx.txn
    ensures tx.Valid() && |tx.txn.data.events| == |old(tx.txn.data.events)| + 1
    ensures tx.txn.data.events[..|old(tx.txn.data.events)|] == old(tx.txn.data.events)
    ensures var e := tx.txn.data.events[|old(tx.txn.data.events)|];
            e.type_ == type_ && LastWriteWins(cs[..n], e.attributes)
  {
    hide Owned, Images, CallersOf, Imaged, Invariants.Inv, LastWriteWins, UseAll, FirstConsumer;
    var v := new EventVar(Some(type_));
    ReleasedOnce(type_, cs, n);
    v.Drive(cs, tx, true);
  }
}
