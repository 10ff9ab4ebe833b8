/** The bubble hierarchy as the client code reads it: a list of bubbles,
    each naming its parent by id. A parent is found with `list.find`, i.e.
    the first entry with that key; walking parent links upward from a bubble
    either leaves the list (a root, or a missing parent) or goes on forever
    (a cycle). */
module BubbleForest {
  import opened Common
  import opened Models

  /** `list.find(b => key(b) === k)`: the position of the first bubble with
      key `k` (an absent key matches a keyless bubble, as `undefined ===
      undefined` does). */
  function Lookup(bs: seq<Bubble>, k: Option<Id>): (r: Option<nat>)
    ensures r.Some? ==> r.value < |bs| && bs[r.value].key == k
    ensures r.Some? ==> forall j :: 0 <= j < r.value ==> bs[j].key != k
    ensures r.None? ==> forall j :: 0 <= j < |bs| ==> bs[j].key != k
  {
    if bs == [] then None
    else if bs[0].key == k then Some(0)
    else match Lookup(bs[1..], k)
      case None => None
      case Some(i) => Some(i + 1)
  }

  /** Some bubble of the list has key `id`. */
  predicate KeyIn(bs: seq<Bubble>, id: Id)
  {
    Lookup(bs, Some(id)).Some?
  }

  /** The parent id of the bubble found for key `k`; nothing when no bubble
      is found or the found bubble is top-level. */
  function ParentOf(bs: seq<Bubble>, k: Option<Id>): Option<Id>
  {
    match Lookup(bs, k)
    case None => None
    case Some(i) => bs[i].parent
  }

  /** The id reached from `id` after `n` parent steps; nothing once the walk
      has left the list. */
  function Up(bs: seq<Bubble>, id: Id, n: nat): Option<Id>
    decreases n
  {
    if n == 0 then Some(id)
    else match ParentOf(bs, Some(id))
      case None => None
      case Some(p) => Up(bs, p, n - 1)
  }

  /** The upward walk from `id` leaves the list after finitely many steps. */
  ghost predicate Terminates(bs: seq<Bubble>, id: Id)
  {
    exists n: nat :: Up(bs, id, n).None?
  }

  /** No parent chain goes round in a cycle. */
  ghost predicate Acyclic(bs: seq<Bubble>)
  {
    forall id: Id :: Terminates(bs, id)
  }

  /** `a` lies strictly above `id`: one or more parent steps lead from `id`
      to `a`. */
  ghost predicate Ancestor(bs: seq<Bubble>, a: Id, id: Id)
  {
    exists n: nat :: 1 <= n && Up(bs, id, n) == Some(a)
  }

  /** `a` is `id` itself or lies above it. */
  ghost predicate AncestorOrSelf(bs: seq<Bubble>, a: Id, id: Id)
  {
    exists n: nat :: Up(bs, id, n) == Some(a)
  }

  /** No two bubbles share a key (keyless entries aside). */
  predicate UniqueKeys(bs: seq<Bubble>)
  {
    forall i, j :: 0 <= i < j < |bs| && bs[i].key.Some? ==> bs[i].key != bs[j].key
  }

  /** Every parent reference names a bubble of the list. */
  predicate RefIntegrity(bs: seq<Bubble>)
  {
    forall i :: 0 <= i < |bs| && bs[i].parent.Some? ==> KeyIn(bs, bs[i].parent.value)
  }

  /** `list.filter(b => b.parentBubbleId === p)`: the bubbles whose parent
      is `p`, in list order. */
  function WithParent(bs: seq<Bubble>, p: Option<Id>): (r: seq<Bubble>)
    ensures |r| <= |bs|
    ensures forall b :: b in r <==> b in bs && b.parent == p
  {
    if bs == [] then []
    else if bs[0].parent == p then [bs[0]] + WithParent(bs[1..], p)
    else WithParent(bs[1..], p)
  }

  /** The filter keeps list order: filtering a concatenation is the
      concatenation of the filtered parts. */
  lemma {:induction false} WithParentAppend(a: seq<Bubble>, b: seq<Bubble>, p: Option<Id>)
    ensures WithParent(a + b, p) == WithParent(a, p) + WithParent(b, p)
  {
    if a == [] {
      assert a + b == b;
    } else {
      var ab := a + b;
      assert ab[0] == a[0] && ab[1..] == a[1..] + b;
      WithParentAppend(a[1..], b, p);
    }
  }

  /** One bubble is kept exactly when its parent is `p`. */
  lemma WithParentSingle(x: Bubble, p: Option<Id>)
    ensures WithParent([x], p) == if x.parent == p then [x] else []
  {
    assert [x][1..] == [];
  }

  /** The filter keeps every bubble with parent `p` as often as the list
      holds it, and no other. */
  lemma {:induction false} WithParentCounts(bs: seq<Bubble>, p: Option<Id>)
    ensures forall b :: multiset(WithParent(bs, p))[b] == if b.parent == p then multiset(bs)[b] else 0
  {
    if bs != [] {
      assert bs == [bs[0]] + bs[1..];
      WithParentCounts(bs[1..], p);
    }
  }

  // ---------------------------------------------------------------------------
  // Heights
  // ---------------------------------------------------------------------------

  ghost function LeastExit(bs: seq<Bubble>, id: Id, i: nat, n: nat): (h: nat)
    requires i <= n && Up(bs, id, n).None?
    requires forall m :: 0 <= m < i ==> Up(bs, id, m).Some?
    ensures i <= h <= n && Up(bs, id, h).None?
    ensures forall m :: 0 <= m < h ==> Up(bs, id, m).Some?
    decreases n - i
  {
    if Up(bs, id, i).None? then i else LeastExit(bs, id, i + 1, n)
  }

  /** The number of steps the upward walk from `id` takes to leave the list. */
  ghost function Height(bs: seq<Bubble>, id: Id): (h: nat)
    requires Acyclic(bs)
    ensures Up(bs, id, h).None?
    ensures forall m :: 0 <= m < h ==> Up(bs, id, m).Some?
  {
    assert Terminates(bs, id);
    var n: nat :| Up(bs, id, n).None?;
    LeastExit(bs, id, 0, n)
  }

  /** A parent is one step closer to leaving the list than its child. */
  lemma HeightStep(bs: seq<Bubble>, id: Id, p: Id)
    requires Acyclic(bs) && ParentOf(bs, Some(id)) == Some(p)
    ensures Height(bs, id) == Height(bs, p) + 1
  {
    var hp := Height(bs, p);
    assert Up(bs, id, hp + 1) == Up(bs, p, hp);
    forall m | 0 < m < hp + 1
      ensures Up(bs, id, m).Some?
    {
      assert Up(bs, id, m) == Up(bs, p, m - 1);
    }
    var hi := Height(bs, id);
    assert hi > 0;
    assert Up(bs, id, hi) == Up(bs, p, hi - 1);
  }

  /** Walking `n` steps up lowers the height by exactly `n`. */
  lemma {:induction false} UpHeight(bs: seq<Bubble>, id: Id, n: nat)
    requires Acyclic(bs) && Up(bs, id, n).Some?
    ensures Height(bs, Up(bs, id, n).value) + n == Height(bs, id)
    decreases n
  {
    if n > 0 {
      var p := ParentOf(bs, Some(id)).value;
      HeightStep(bs, id, p);
      UpHeight(bs, p, n - 1);
    }
  }

  /** In an acyclic list no walk of one or more steps returns to its start. */
  lemma NoSelfReach(bs: seq<Bubble>, id: Id, n: nat)
    requires Acyclic(bs) && n >= 1
    ensures Up(bs, id, n) != Some(id)
  {
    if Up(bs, id, n).Some? {
      UpHeight(bs, id, n);
    }
  }

  /** No bubble of an acyclic list is its own ancestor. */
  lemma NoSelfAncestor(bs: seq<Bubble>, id: Id)
    requires Acyclic(bs)
    ensures !Ancestor(bs, id, id)
  {
    forall n: nat | 1 <= n
      ensures Up(bs, id, n) != Some(id)
    {
      NoSelfReach(bs, id, n);
    }
  }

  /** A bubble other than `a` reaches `a` upward only in one step or more. */
  lemma SelfOrAbove(bs: seq<Bubble>, a: Id, p: Id)
    requires a != p
    ensures AncestorOrSelf(bs, a, p) ==> Ancestor(bs, a, p)
  {
    if AncestorOrSelf(bs, a, p) {
      var n: nat :| Up(bs, p, n) == Some(a);
      assert Up(bs, p, 0) == Some(p);
      assert 1 <= n;
    }
  }

  /** Walking `a + b` steps is walking `a` steps and then `b` more. */
  lemma {:induction false} UpAdd(bs: seq<Bubble>, id: Id, a: nat, b: nat)
    ensures Up(bs, id, a + b) == match Up(bs, id, a) case None => None case Some(x) => Up(bs, x, b)
    decreases a
  {
    if a > 0 {
      match ParentOf(bs, Some(id))
      case None =>
      case Some(p) => UpAdd(bs, p, a - 1, b);
    }
  }

  // ---------------------------------------------------------------------------
  // Changing one parent link
  // ---------------------------------------------------------------------------

  /** A walk that never meets `z` in the old list is the same walk in a list
      that differs from it only in the parent of `z`. */
  lemma {:induction false} AvoidingWalkSame(bs: seq<Bubble>, bs2: seq<Bubble>, z: Id, id: Id, n: nat)
    requires forall x: Id :: x != z ==> ParentOf(bs2, Some(x)) == ParentOf(bs, Some(x))
    requires !AncestorOrSelf(bs, z, id)
    ensures Up(bs2, id, n) == Up(bs, id, n)
    decreases n
  {
    if n > 0 {
      assert Up(bs, id, 0) == Some(id);
      match ParentOf(bs, Some(id))
      case None =>
      case Some(p) =>
        forall j: nat
          ensures Up(bs, p, j) != Some(z)
        {
          assert Up(bs, id, j + 1) == Up(bs, p, j);
        }
        AvoidingWalkSame(bs, bs2, z, p, n - 1);
    }
  }

  /** Every walk of the changed list leaves it. */
  lemma {:induction false} TerminatesAfterChange(bs: seq<Bubble>, bs2: seq<Bubble>, z: Id, id: Id)
    requires Acyclic(bs)
    requires forall x: Id :: x != z ==> ParentOf(bs2, Some(x)) == ParentOf(bs, Some(x))
    requires ParentOf(bs2, Some(z)).Some? ==> !AncestorOrSelf(bs, z, ParentOf(bs2, Some(z)).value)
    ensures Terminates(bs2, id)
    decreases Height(bs, id)
  {
    if id == z {
      match ParentOf(bs2, Some(z))
      case None =>
        assert Up(bs2, z, 1).None?;
      case Some(q) =>
        assert Terminates(bs, q);
        var n: nat :| Up(bs, q, n).None?;
        AvoidingWalkSame(bs, bs2, z, q, n);
        assert Up(bs2, z, n + 1) == Up(bs2, q, n);
    } else {
      match ParentOf(bs, Some(id))
      case None =>
        assert Up(bs2, id, 1).None?;
      case Some(p) =>
        HeightStep(bs, id, p);
        TerminatesAfterChange(bs, bs2, z, p);
        var n: nat :| Up(bs2, p, n).None?;
        assert Up(bs2, id, n + 1) == Up(bs2, p, n);
    }
  }

  /** Changing the parent of one bubble `z` keeps a list acyclic when the new
      parent is none, or neither `z` nor anything below `z`. */
  lemma AcyclicAfterChange(bs: seq<Bubble>, bs2: seq<Bubble>, z: Id)
    requires Acyclic(bs)
    requires forall x: Id :: x != z ==> ParentOf(bs2, Some(x)) == ParentOf(bs, Some(x))
    requires ParentOf(bs2, Some(z)).Some? ==> !AncestorOrSelf(bs, z, ParentOf(bs2, Some(z)).value)
    ensures Acyclic(bs2)
  {
    forall id: Id
      ensures Terminates(bs2, id)
    {
      TerminatesAfterChange(bs, bs2, z, id);
    }
  }

  // ---------------------------------------------------------------------------
  // Appending and reparenting
  // ---------------------------------------------------------------------------

  /** Appending a bubble does not change what earlier keys find. */
  lemma {:induction false} LookupAppend(bs: seq<Bubble>, b: Bubble, k: Option<Id>)
    ensures Lookup(bs + [b], k) == if Lookup(bs, k).Some? then Lookup(bs, k)
                                   else if b.key == k then Some(|bs|) else None
  {
    if bs != [] {
      assert (bs + [b])[1..] == bs[1..] + [b];
      LookupAppend(bs[1..], b, k);
    }
  }

  /** In a list with reference integrity, every id a walk from an existing
      bubble reaches is an existing bubble. */
  lemma {:induction false} ReachedIsKey(bs: seq<Bubble>, id: Id, n: nat)
    requires RefIntegrity(bs) && KeyIn(bs, id) && Up(bs, id, n).Some?
    ensures KeyIn(bs, Up(bs, id, n).value)
    decreases n
  {
    if n > 0 {
      var p := ParentOf(bs, Some(id)).value;
      ReachedIsKey(bs, p, n - 1);
    }
  }

  /** Appending a bubble with a new key whose parent is none or an existing
      bubble keeps reference integrity and acyclicity. */
  lemma AppendKeepsForest(bs: seq<Bubble>, b: Bubble)
    requires RefIntegrity(bs) && Acyclic(bs)
    requires b.key.Some? && !KeyIn(bs, b.key.value)
    requires b.parent.Some? ==> KeyIn(bs, b.parent.value)
    ensures RefIntegrity(bs + [b]) && Acyclic(bs + [b])
  {
    var bs2 := bs + [b];
    var z := b.key.value;
    forall k: Option<Id>
      ensures Lookup(bs2, k) == if Lookup(bs, k).Some? then Lookup(bs, k) else if b.key == k then Some(|bs|) else None
    {
      LookupAppend(bs, b, k);
    }
    forall i | 0 <= i < |bs2| && bs2[i].parent.Some?
      ensures KeyIn(bs2, bs2[i].parent.value)
    {
    }
    if b.parent.Some? {
      var q := b.parent.value;
      forall n: nat
        ensures Up(bs, q, n) != Some(z)
      {
        if Up(bs, q, n).Some? {
          ReachedIsKey(bs, q, n);
        }
      }
    }
    AcyclicAfterChange(bs, bs2, z);
  }

  /** The list after the bubble with key `z` has been given parent `np`
      (every entry with that key, should there be several). */
  function Reparent(bs: seq<Bubble>, z: Id, np: Option<Id>): (r: seq<Bubble>)
    ensures |r| == |bs|
    ensures forall i :: 0 <= i < |bs| ==> r[i].key == bs[i].key && r[i].title == bs[i].title && r[i].media == bs[i].media
    ensures forall i :: 0 <= i < |bs| ==> r[i].parent == if bs[i].key == Some(z) then np else bs[i].parent
  {
    seq(|bs|, i requires 0 <= i < |bs| => if bs[i].key == Some(z) then bs[i].(parent := np) else bs[i])
  }

  /** Lists with the same keys at the same positions find the same positions. */
  lemma {:induction false} LookupSameKeys(bs: seq<Bubble>, bs2: seq<Bubble>, k: Option<Id>)
    requires |bs| == |bs2| && forall i :: 0 <= i < |bs| ==> bs[i].key == bs2[i].key
    ensures Lookup(bs2, k) == Lookup(bs, k)
  {
    if bs != [] {
      LookupSameKeys(bs[1..], bs2[1..], k);
    }
  }

  /** Moving bubble `z` under `np` keeps the list acyclic when `np` is none
      or is neither `z` nor below `z`; and keeps reference integrity when
      `np` is none or an existing bubble. */
  lemma ReparentKeepsForest(bs: seq<Bubble>, z: Id, np: Option<Id>)
    requires Acyclic(bs)
    requires np.Some? ==> !AncestorOrSelf(bs, z, np.value)
    ensures Acyclic(Reparent(bs, z, np))
    ensures RefIntegrity(bs) && (np.Some? ==> KeyIn(bs, np.value)) ==> RefIntegrity(Reparent(bs, z, np))
  {
    var bs2 := Reparent(bs, z, np);
    forall k: Option<Id>
      ensures Lookup(bs2, k) == Lookup(bs, k)
    {
      LookupSameKeys(bs, bs2, k);
    }
    AcyclicAfterChange(bs, bs2, z);
  }
}
