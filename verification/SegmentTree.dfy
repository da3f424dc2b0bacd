/**
 The segments of one transaction as values: a sequence indexed by creation
 order, each with a parent link and an ordered list of children.  Segment 0 is
 the root that newrelic_start_transaction creates and never hands out.
 */
module SegmentTree {
  import opened Common

  type SegId = nat

  const ROOT: SegId := 0

  /** The axiom segment type.  The SDK's switch statements also have a default branch. */
  datatype Kind = Custom | Datastore | External | Unknown(code: int)

  datatype Seg = Seg(
    parent: Option<SegId>,
    children: seq<SegId>,
    kind: Kind,
    name: string,
    start: nat,
    stop: nat,             // 0 until the segment is timed or ended
    ends: nat,             // how many times an end routine ran on it
    metrics: seq<string>)  // metrics added by nr_segment_add_metric

  /** The ancestor n links up; 0 links up is the segment itself. */
  function Up(ss: seq<Seg>, i: SegId, n: nat): Option<SegId>
    decreases n
  {
    if n == 0 then Some(i)
    else if i < |ss| && ss[i].parent.Some? then Up(ss, ss[i].parent.value, n - 1)
    else None
  }

  /** a is i or one of its ancestors. */
  ghost predicate Above(ss: seq<Seg>, a: SegId, i: SegId) {
    exists n: nat :: Up(ss, i, n) == Some(a)
  }

  ghost predicate NoDup(xs: seq<SegId>) {
    forall j, k :: 0 <= j < k < |xs| ==> xs[j] != xs[k]
  }

  ghost predicate LinksInRange(ss: seq<Seg>) {
    && |ss| > 0
    && ss[ROOT].parent.None?
    && forall i :: 0 < i < |ss| ==> ss[i].parent.Some? && ss[i].parent.value < |ss|
  }

  /** i lists exactly its children, each once, and is listed by its own parent. */
  ghost predicate NodeAgrees(ss: seq<Seg>, i: SegId)
    requires i < |ss|
  {
    && NoDup(ss[i].children)
    && (forall c :: c in ss[i].children ==> c < |ss| && ss[c].parent == Some(i))
    && (ss[i].parent.Some? && ss[i].parent.value < |ss| ==> i in ss[ss[i].parent.value].children)
  }

  ghost predicate ChildrenAgree(ss: seq<Seg>) {
    forall i :: 0 <= i < |ss| ==> NodeAgrees(ss, i)
  }

  ghost predicate Rooted(ss: seq<Seg>) {
    forall i :: 0 <= i < |ss| ==> Above(ss, ROOT, i)
  }

  /** One tree: a parentless root above everything, child lists agreeing with parent links. */
  ghost predicate Tree(ss: seq<Seg>) {
    LinksInRange(ss) && ChildrenAgree(ss) && Rooted(ss)
  }

  // ---------------------------------------------------------------------
  // The operations
  // ---------------------------------------------------------------------

  /** Removes the last occurrence of x. */
  function Remove(xs: seq<SegId>, x: SegId): seq<SegId>
    decreases |xs|
  {
    if xs == [] then []
    else if xs[|xs| - 1] == x then xs[..|xs| - 1]
    else Remove(xs[..|xs| - 1], x) + [xs[|xs| - 1]]
  }

  function NewSeg(parent: SegId, kind: Kind, now: nat): Seg {
    Seg(Some(parent), [], kind, "", now, 0, 0, [])
  }

  /** A new segment under `parent`, last in its child list; axiom creates it as a custom segment. */
  function Append(ss: seq<Seg>, parent: SegId, now: nat): seq<Seg>
    requires parent < |ss|
  {
    ss[parent := ss[parent].(children := ss[parent].children + [|ss|])] + [NewSeg(parent, Custom, now)]
  }

  function Unlink(ss: seq<Seg>, s: SegId): (r: seq<Seg>)
    requires s < |ss|
    ensures |r| == |ss|
  {
    if ss[s].parent.Some? && ss[s].parent.value < |ss| then
      var q := ss[s].parent.value;
      ss[q := ss[q].(children := Remove(ss[q].children, s))]
    else ss
  }

  /** Moves s under p, with no check at all. */
  function Link(ss: seq<Seg>, s: SegId, p: SegId): (r: seq<Seg>)
    requires s < |ss| && p < |ss|
    ensures |r| == |ss|
  {
    var u := Unlink(ss, s);
    var v := u[p := u[p].(children := u[p].children + [s])];
    v[s := v[s].(parent := Some(p))]
  }

  // ---------------------------------------------------------------------
  // Removing from a list without duplicates
  // ---------------------------------------------------------------------

  lemma NoDupSnoc(xs: seq<SegId>, x: SegId)
    requires NoDup(xs) && x !in xs
    ensures NoDup(xs + [x])
  {
  }

  lemma {:induction false} RemoveIsSetMinus(xs: seq<SegId>, x: SegId)
    requires NoDup(xs)
    ensures NoDup(Remove(xs, x))
    ensures forall y :: y in Remove(xs, x) <==> y in xs && y != x
    decreases |xs|
  {
    if xs != [] {
      var front, last := xs[..|xs| - 1], xs[|xs| - 1];
      assert xs == front + [last];
      RemoveIsSetMinus(front, x);
      if last != x {
        forall y ensures y in Remove(xs, x) <==> y in xs && y != x {
          assert y in xs <==> y in front || y == last;
        }
        assert last !in front;
      } else {
        assert x !in front;
      }
    }
  }

  lemma {:induction false} RemoveAbsent(xs: seq<SegId>, x: SegId)
    requires x !in xs
    ensures Remove(xs, x) == xs
    decreases |xs|
  {
    if xs != [] {
      RemoveAbsent(xs[..|xs| - 1], x);
    }
  }

  // ---------------------------------------------------------------------
  // Walking up
  // ---------------------------------------------------------------------

  lemma {:induction false} UpAdds(ss: seq<Seg>, i: SegId, m: nat, n: nat)
    requires Up(ss, i, m).Some?
    ensures Up(ss, i, m + n) == Up(ss, Up(ss, i, m).value, n)
    decreases m
  {
    if m > 0 {
      UpAdds(ss, ss[i].parent.value, m - 1, n);
    }
  }

  /** Two forests with the same parent at every segment met on the way have the same walk. */
  lemma {:induction false} SameWalk(ss: seq<Seg>, tt: seq<Seg>, i: SegId, n: nat)
    requires forall k, j :: 0 <= k < n && Up(ss, i, k) == Some(j) ==>
               ((j < |ss|) == (j < |tt|)) && (j < |ss| ==> ss[j].parent == tt[j].parent)
    ensures Up(tt, i, n) == Up(ss, i, n)
    decreases n
  {
    if n > 0 {
      assert Up(ss, i, 0) == Some(i);
      if i < |ss| && ss[i].parent.Some? {
        var p := ss[i].parent.value;
        forall k, j | 0 <= k < n - 1 && Up(ss, p, k) == Some(j)
          ensures ((j < |ss|) == (j < |tt|)) && (j < |ss| ==> ss[j].parent == tt[j].parent)
        {
          assert Up(ss, i, k + 1) == Some(j);
        }
        SameWalk(ss, tt, p, n - 1);
      }
    }
  }

  lemma {:induction false} PastRootNothing(ss: seq<Seg>, i: SegId, d: nat, n: nat)
    requires LinksInRange(ss) && Up(ss, i, d) == Some(ROOT) && n > d
    ensures Up(ss, i, n).None?
  {
    UpAdds(ss, i, d, n - d);
  }

  lemma {:induction false} LoopsForever(ss: seq<Seg>, i: SegId, n: nat, k: nat)
    requires Up(ss, i, n) == Some(i)
    ensures Up(ss, i, k * n) == Some(i)
    decreases k
  {
    if k > 0 {
      LoopsForever(ss, i, n, k - 1);
      UpAdds(ss, i, (k - 1) * n, n);
      assert (k - 1) * n + n == k * n;
    }
  }

  /** A tree has no cycle: no segment is its own proper ancestor. */
  lemma NoCycle(ss: seq<Seg>, i: SegId, n: nat)
    requires Tree(ss) && i < |ss| && n > 0
    ensures Up(ss, i, n) != Some(i)
  {
    if Up(ss, i, n) == Some(i) {
      assert Above(ss, ROOT, i);
      var d: nat :| Up(ss, i, d) == Some(ROOT);
      LoopsForever(ss, i, n, d + 1);
      assert (d + 1) * n > d by { assert (d + 1) * n >= d + 1; }
      PastRootNothing(ss, i, d, (d + 1) * n);
      assert false;
    }
  }

  lemma NothingAboveRoot(ss: seq<Seg>, s: SegId)
    requires LinksInRange(ss) && Above(ss, s, ROOT)
    ensures s == ROOT
  {
    var n: nat :| Up(ss, ROOT, n) == Some(s);
  }

  // ---------------------------------------------------------------------
  // Starting a segment keeps the tree
  // ---------------------------------------------------------------------

  lemma {:induction false} OldWalkInRange(ss: seq<Seg>, i: SegId, n: nat)
    requires LinksInRange(ss) && i < |ss| && Up(ss, i, n).Some?
    ensures Up(ss, i, n).value < |ss|
    decreases n
  {
    if n > 0 { OldWalkInRange(ss, ss[i].parent.value, n - 1); }
  }

  lemma AppendRooted(ss: seq<Seg>, parent: SegId, now: nat, i: SegId)
    requires LinksInRange(ss) && Rooted(ss) && parent < |ss| && i <= |ss|
    ensures Above(Append(ss, parent, now), ROOT, i)
  {
    var tt := Append(ss, parent, now);
    var from := if i < |ss| then i else parent;
    assert Above(ss, ROOT, from);
    var n: nat :| Up(ss, from, n) == Some(ROOT);
    forall k, j | 0 <= k < n && Up(ss, from, k) == Some(j)
      ensures j < |ss| && j < |tt| && ss[j].parent == tt[j].parent
    {
      OldWalkInRange(ss, from, k);
    }
    SameWalk(ss, tt, from, n);
    assert i == |ss| ==> Up(tt, i, n + 1) == Some(ROOT);
  }

  lemma AppendAgrees(ss: seq<Seg>, parent: SegId, now: nat, i: SegId)
    requires LinksInRange(ss) && ChildrenAgree(ss) && parent < |ss| && i <= |ss|
    ensures NodeAgrees(Append(ss, parent, now), i)
  {
    var tt := Append(ss, parent, now);
    if i < |ss| {
      assert NodeAgrees(ss, i);
      assert |ss| !in ss[i].children;
      NoDupSnoc(ss[i].children, |ss|);
      if ss[i].parent.Some? {
        assert i in ss[ss[i].parent.value].children;
      }
    }
  }

  lemma AppendKeepsTree(ss: seq<Seg>, parent: SegId, now: nat)
    requires Tree(ss) && parent < |ss|
    ensures Tree(Append(ss, parent, now))
  {
    forall i: nat | i <= |ss|
      ensures NodeAgrees(Append(ss, parent, now), i) && Above(Append(ss, parent, now), ROOT, i)
    {
      AppendAgrees(ss, parent, now, i);
      AppendRooted(ss, parent, now, i);
    }
  }

  // ---------------------------------------------------------------------
  // Moving a segment: allowed exactly when it makes no cycle
  // ---------------------------------------------------------------------

  lemma LinkParents(ss: seq<Seg>, s: SegId, p: SegId)
    requires s < |ss| && p < |ss|
    ensures var tt := Link(ss, s, p);
            forall i :: 0 <= i < |ss| ==> tt[i].parent == if i == s then Some(p) else ss[i].parent
  {
  }

  lemma UnlinkChildren(ss: seq<Seg>, s: SegId, i: SegId)
    requires LinksInRange(ss) && ChildrenAgree(ss) && 0 < s < |ss| && i < |ss|
    ensures var kids := Unlink(ss, s)[i].children;
            NoDup(kids) && forall c :: c in kids <==> c in ss[i].children && c != s
  {
    assert NodeAgrees(ss, i);
    RemoveIsSetMinus(ss[i].children, s);
  }

  lemma LinkAgrees(ss: seq<Seg>, s: SegId, p: SegId, i: SegId)
    requires LinksInRange(ss) && ChildrenAgree(ss) && 0 < s < |ss| && p < |ss| && i < |ss|
    ensures NodeAgrees(Link(ss, s, p), i)
  {
    var u, tt := Unlink(ss, s), Link(ss, s, p);
    LinkParents(ss, s, p);
    assert NodeAgrees(ss, i);
    UnlinkChildren(ss, s, i);
    NoDupSnoc(u[i].children, s);
    assert tt[i].children == if i == p then u[i].children + [s] else u[i].children;
    if i != s && ss[i].parent.Some? {
      var q := ss[i].parent.value;
      UnlinkChildren(ss, s, q);
      assert i in u[q].children;
    }
  }

  /** A walk that never meets s is the same after s was moved. */
  lemma WalkAvoiding(ss: seq<Seg>, s: SegId, p: SegId, i: SegId, n: nat)
    requires s < |ss| && p < |ss|
    requires forall k: nat :: k < n ==> Up(ss, i, k) != Some(s)
    ensures Up(Link(ss, s, p), i, n) == Up(ss, i, n)
  {
    LinkParents(ss, s, p);
    SameWalk(ss, Link(ss, s, p), i, n);
  }

  lemma {:induction false} StillRooted(ss: seq<Seg>, s: SegId, p: SegId, i: SegId, n: nat)
    requires LinksInRange(ss) && 0 < s < |ss| && p < |ss| && i < |ss|
    requires Up(ss, i, n) == Some(ROOT)
    requires Above(Link(ss, s, p), ROOT, s)
    ensures Above(Link(ss, s, p), ROOT, i)
    decreases n
  {
    var tt := Link(ss, s, p);
    if i == s {
    } else if i == ROOT {
      assert Up(tt, i, 0) == Some(ROOT);
    } else {
      var q := ss[i].parent.value;
      assert n > 0;
      StillRooted(ss, s, p, q, n - 1);
      var m: nat :| Up(tt, q, m) == Some(ROOT);
      LinkParents(ss, s, p);
      assert Up(tt, i, m + 1) == Some(ROOT);
    }
  }

  lemma LinkKeepsTree(ss: seq<Seg>, s: SegId, p: SegId)
    requires Tree(ss) && 0 < s < |ss| && p < |ss| && !Above(ss, s, p)
    ensures Tree(Link(ss, s, p))
  {
    var tt := Link(ss, s, p);
    LinkParents(ss, s, p);
    assert Above(ss, ROOT, p);
    var m: nat :| Up(ss, p, m) == Some(ROOT);
    WalkAvoiding(ss, s, p, p, m);
    assert Up(tt, s, m + 1) == Some(ROOT);
    forall i: nat | i < |tt| ensures Above(tt, ROOT, i) && NodeAgrees(tt, i) {
      assert Above(ss, ROOT, i);
      var n: nat :| Up(ss, i, n) == Some(ROOT);
      StillRooted(ss, s, p, i, n);
      LinkAgrees(ss, s, p, i);
    }
  }

  /** The first link up at which s is met. */
  lemma {:induction false} FirstMeeting(ss: seq<Seg>, s: SegId, i: SegId, n: nat) returns (m: nat)
    requires Up(ss, i, n) == Some(s)
    ensures Up(ss, i, m) == Some(s) && forall k: nat :: k < m ==> Up(ss, i, k) != Some(s)
    decreases n
  {
    if i == s {
      m := 0;
    } else {
      var q := ss[i].parent.value;
      var m' := FirstMeeting(ss, s, q, n - 1);
      m := m' + 1;
      forall k: nat | k < m ensures Up(ss, i, k) != Some(s) {
        if k > 0 { assert Up(ss, i, k) == Up(ss, q, k - 1); }
      }
    }
  }

  /** Moving s below itself always closes a cycle. */
  lemma LinkBelowItselfLoops(ss: seq<Seg>, s: SegId, p: SegId) returns (n: nat)
    requires s < |ss| && p < |ss| && Above(ss, s, p)
    ensures n > 0 && Up(Link(ss, s, p), s, n) == Some(s)
  {
    var d: nat :| Up(ss, p, d) == Some(s);
    var m := FirstMeeting(ss, s, p, d);
    WalkAvoiding(ss, s, p, p, m);
    LinkParents(ss, s, p);
    n := m + 1;
  }

  /** The ancestor test is exact: it refuses the moves that would break the tree and no others. */
  lemma LinkTreeIff(ss: seq<Seg>, s: SegId, p: SegId)
    requires Tree(ss) && 0 < s < |ss| && p < |ss|
    ensures Tree(Link(ss, s, p)) <==> !Above(ss, s, p)
  {
    if Above(ss, s, p) {
      var n := LinkBelowItselfLoops(ss, s, p);
      if Tree(Link(ss, s, p)) {
        NoCycle(Link(ss, s, p), s, n);
        assert false;
      }
    } else {
      LinkKeepsTree(ss, s, p);
    }
  }

  // ---------------------------------------------------------------------
  // Updates that leave the links alone
  // ---------------------------------------------------------------------

  ghost predicate SameLinks(ss: seq<Seg>, tt: seq<Seg>) {
    && |ss| == |tt|
    && forall i :: 0 <= i < |ss| ==> ss[i].parent == tt[i].parent && ss[i].children == tt[i].children
  }

  lemma SameLinksSameTree(ss: seq<Seg>, tt: seq<Seg>)
    requires SameLinks(ss, tt) && Tree(ss)
    ensures Tree(tt)
  {
    forall i: nat | i < |tt| ensures Above(tt, ROOT, i) && NodeAgrees(tt, i) {
      assert Above(ss, ROOT, i) && NodeAgrees(ss, i);
      var n: nat :| Up(ss, i, n) == Some(ROOT);
      SameWalk(ss, tt, i, n);
    }
  }

  /** Stored as one root segment. */
  lemma FreshTree(now: nat)
    ensures Tree([Seg(None, [], Custom, "", now, 0, 0, [])])
  {
    var ss := [Seg(None, [], Custom, "", now, 0, 0, [])];
    assert Up(ss, ROOT, 0) == Some(ROOT);
  }
}
