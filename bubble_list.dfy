/** The admin tree view (components/bubbles/bubbleList.js): the leaf and
    children tests, the media and title shown for a bubble, and the
    recursive rendering of the hierarchy from its top-level bubbles. */
module BubbleList {
  import opened Common
  import opened Models
  import opened BubbleForest
  import BubbleRoute

  // ---------------------------------------------------------------------------
  // Per-bubble helpers
  // ---------------------------------------------------------------------------

  /** `bubbles.some(b => b.parentBubbleId === p)`. */
  function AnyWithParent(bs: seq<Bubble>, p: Option<Id>): (r: bool)
    ensures r <==> exists b :: b in bs && b.parent == p
  {
    if bs == [] then false
    else bs[0].parent == p || AnyWithParent(bs[1..], p)
  }

  /** `isLeafBubble(bubbleId)`: true for a list that is not an array or a
      falsy id; otherwise true when no bubble names the id as its parent. */
  function IsLeaf(bubbles: Option<seq<Bubble>>, bubbleId: Option<string>): (r: bool)
    ensures bubbles.Some? && (forall b :: b in bubbles.value ==> b.parent.None?) ==> r
  {
    if bubbles.None? || !Truthy(bubbleId) then true
    else
      var id: Id := bubbleId.value;
      !AnyWithParent(bubbles.value, Some(id))
  }

  /** A bubble is a leaf exactly when no bubble has it as parent; a falsy id
      or a missing list counts as a leaf. */
  lemma IsLeafMeaning(bubbles: Option<seq<Bubble>>, bubbleId: Option<string>)
    ensures bubbles.None? || !Truthy(bubbleId) ==> IsLeaf(bubbles, bubbleId)
    ensures bubbles.Some? && Truthy(bubbleId) ==>
      (IsLeaf(bubbles, bubbleId) <==> forall b :: b in bubbles.value ==> b.parent != Some(bubbleId.value))
  {
    if bubbles.Some? && Truthy(bubbleId) {
      var id: Id := bubbleId.value;
      assert Some(id) == Some(bubbleId.value);
    }
  }

  /** `hasChildren` is the negation of `isLeafBubble` for a valid id, and
      holds exactly when the child list rendered under the bubble is not
      empty. */
  lemma HasChildrenIsNotLeaf(bs: seq<Bubble>, id: Id)
    ensures AnyWithParent(bs, Some(id)) == !IsLeaf(Some(bs), Some(id))
    ensures AnyWithParent(bs, Some(id)) <==> WithParent(bs, Some(id)) != []
  {
    if AnyWithParent(bs, Some(id)) {
      var b :| b in bs && b.parent == Some(id);
      assert b in WithParent(bs, Some(id));
    }
  }

  /** The id a bubble's `media` field refers to, if any. */
  function MediaRefId(m: MediaRef): Option<string>
  {
    match m
    case NoMedia => None
    case MediaId(ref) => if ref == "" then None else Some(ref)
    case Populated(doc) => Some(doc.id)
  }

  /** `getBubbleMedia(bubbleId)`: nothing when either list is not an array,
      the id is falsy, or the bubble has no media; the populated document
      when it has a title; otherwise the first media entry with the
      referenced id. */
  function GetBubbleMedia(bubbles: Option<seq<Bubble>>, media: Option<seq<Media>>, bubbleId: Option<string>): (r: Option<Media>)
    ensures bubbles.None? || media.None? || !Truthy(bubbleId) ==> r.None?
    ensures r.Some? ==> bubbles.Some? && Truthy(bubbleId)
    ensures r.Some? ==> Lookup(bubbles.value, Some(bubbleId.value)).Some?
    ensures r.Some? ==>
      var b := bubbles.value[Lookup(bubbles.value, Some(bubbleId.value)).value];
      MediaRefId(b.media) == Some(r.value.id)
      && (b.media == Populated(r.value) || r.value in media.value)
  {
    if bubbles.None? || media.None? || !Truthy(bubbleId) then None
    else
      var id: Id := bubbleId.value;
      match Lookup(bubbles.value, Some(id))
      case None => None
      case Some(i) =>
        match bubbles.value[i].media
        case NoMedia => None
        case MediaId(ref) => if ref == "" then None else BubbleRoute.FindMedia(media.value, ref)
        case Populated(doc) => if doc.title != "" then Some(doc) else BubbleRoute.FindMedia(media.value, doc.id)
  }

  /** The three outcomes for a bubble that is found: a titled populated
      document is shown as it is, and a bare id shows the media entry with
      that id whenever the media list has one. */
  lemma GetBubbleMediaCases(bs: seq<Bubble>, media: seq<Media>, id: Id)
    requires Lookup(bs, Some(id)).Some?
    ensures var b := bs[Lookup(bs, Some(id)).value];
      && (b.media.NoMedia? ==> GetBubbleMedia(Some(bs), Some(media), Some(id)).None?)
      && (b.media.Populated? && b.media.doc.title != "" ==> GetBubbleMedia(Some(bs), Some(media), Some(id)) == Some(b.media.doc))
      && (b.media.MediaId? && b.media.ref != "" && (exists m :: m in media && m.id == b.media.ref) ==>
            GetBubbleMedia(Some(bs), Some(media), Some(id)).Some?)
  {
  }

  /** `getBubbleTitle()` for the delete dialog: empty when nothing is
      selected, the selected bubble's title, or `this bubble` when the
      bubble is missing or untitled. */
  function GetBubbleTitle(bs: seq<Bubble>, selected: Option<string>): (r: string)
    ensures r == "" <==> !Truthy(selected)
    ensures Truthy(selected) && Lookup(bs, Some(selected.value)).Some?
            && bs[Lookup(bs, Some(selected.value)).value].title != ""
            ==> r == bs[Lookup(bs, Some(selected.value)).value].title
    ensures Truthy(selected) && (Lookup(bs, Some(selected.value)).None?
            || bs[Lookup(bs, Some(selected.value)).value].title == "")
            ==> r == "this bubble"
  {
    if !Truthy(selected) then ""
    else
      var id: Id := selected.value;
      match Lookup(bs, Some(id))
      case Some(i) => if bs[i].title != "" then bs[i].title else "this bubble"
      case None => "this bubble"
  }

  // ---------------------------------------------------------------------------
  // Rendering
  // ---------------------------------------------------------------------------

  /** One accordion of the tree view: the bubble, its id, its media, whether
      it is a leaf, and the accordions rendered under it. A bubble with
      neither `id` nor `_id` renders as nothing. */
  datatype Card = Skipped | Card(bubble: Bubble, id: Id, media: Option<Media>, leaf: bool, children: seq<Card>)

  /** The positions of the bubbles that lie below `z`. */
  ghost function Desc(bs: seq<Bubble>, z: Id): set<nat>
  {
    set i: nat | i < |bs| && bs[i].key.Some? && Ancestor(bs, z, bs[i].key.value)
  }

  /** The measure of the rendering recursion: the top level first, then
      the number of bubbles below the parent rendered. */
  function Level(p: Option<Id>): nat
  {
    if p.None? then 1 else 0
  }

  ghost function Rank(bs: seq<Bubble>, p: Option<Id>): nat
  {
    if p.None? then 0 else |Desc(bs, p.value)|
  }

  lemma SubsetCard(a: set<nat>, b: set<nat>)
    requires a <= b
    ensures |a| <= |b|
    ensures a < b ==> |a| < |b|
  {
    var d := b - a;
    assert b == a + d;
    assert a * d == {};
    if a < b {
      var x :| x in b && x !in a;
      assert x in d;
    }
  }

  /** In a list without repeated keys, a keyed bubble is the one its key
      finds. */
  lemma LookupMember(bs: seq<Bubble>, b: Bubble)
    requires UniqueKeys(bs) && b in bs && b.key.Some?
    ensures Lookup(bs, b.key).Some? && bs[Lookup(bs, b.key).value] == b
    ensures ParentOf(bs, b.key) == b.parent
  {
    var i :| 0 <= i < |bs| && bs[i] == b;
    var j := Lookup(bs, b.key).value;
    assert bs[j].key == bs[i].key;
    assert j == i;
  }

  /** The bubbles below a child are bubbles below its parent, and the child
      itself is one of the latter but not of the former. */
  lemma ChildRankSmaller(bs: seq<Bubble>, p: Option<Id>, b: Bubble)
    requires Acyclic(bs) && UniqueKeys(bs) && b in bs && b.parent == p && b.key.Some?
    ensures p.Some? ==> Rank(bs, b.key) < Rank(bs, p)
  {
    var c := b.key.value;
    if p.Some? {
      var z := p.value;
      LookupMember(bs, b);
      assert Up(bs, c, 1) == Some(z);
      forall i | i in Desc(bs, c)
        ensures i in Desc(bs, z)
      {
        var x := bs[i].key.value;
        var n: nat :| 1 <= n && Up(bs, x, n) == Some(c);
        UpAdd(bs, x, n, 1);
        assert Up(bs, x, n + 1) == Some(z);
      }
      var j := Lookup(bs, b.key).value;
      assert j in Desc(bs, z);
      NoSelfAncestor(bs, c);
      assert j !in Desc(bs, c);
      SubsetCard(Desc(bs, c), Desc(bs, z));
    }
  }

  /** `renderBubbles(p)`: an accordion for each bubble whose parent is `p`,
      in list order. */
  function Render(bs: seq<Bubble>, media: Option<seq<Media>>, p: Option<Id>): (r: seq<Card>)
    requires Acyclic(bs) && UniqueKeys(bs)
    ensures |r| == |WithParent(bs, p)|
    ensures forall i :: 0 <= i < |r| && r[i].Card? ==> r[i].bubble in bs && r[i].bubble.parent == p
    decreases Level(p), Rank(bs, p), 2, 0
  {
    RenderList(bs, media, p, WithParent(bs, p))
  }

  /** The `.map` over the filtered bubbles. */
  function RenderList(bs: seq<Bubble>, media: Option<seq<Media>>, p: Option<Id>, items: seq<Bubble>): (r: seq<Card>)
    requires Acyclic(bs) && UniqueKeys(bs)
    requires forall b :: b in items ==> b in bs && b.parent == p
    ensures |r| == |items|
    ensures forall i :: 0 <= i < |items| ==>
      (r[i].Skipped? <==> items[i].key.None?) && (r[i].Card? ==> r[i].bubble == items[i])
    decreases Level(p), Rank(bs, p), 1, |items|
  {
    if items == [] then []
    else [RenderOne(bs, media, p, items[0])] + RenderList(bs, media, p, items[1..])
  }

  /** One bubble's accordion; the bubbles under it are rendered only when
      `hasChildren`. */
  function RenderOne(bs: seq<Bubble>, media: Option<seq<Media>>, p: Option<Id>, b: Bubble): (c: Card)
    requires Acyclic(bs) && UniqueKeys(bs) && b in bs && b.parent == p
    ensures c.Skipped? <==> b.key.None?
    ensures c.Card? ==> c.bubble == b && c.id == b.key.value
    decreases Level(p), Rank(bs, p), 0, 0
  {
    if b.key.None? then Skipped
    else
      var id := b.key.value;
      var children :=
        if AnyWithParent(bs, Some(id)) then
          ChildRankSmaller(bs, p, b);
          Render(bs, media, Some(id))
        else [];
      Card(b, id, GetBubbleMedia(Some(bs), media, Some(id)), IsLeaf(Some(bs), Some(id)), children)
  }

  /** The accordions in the order they appear, as the bubbles they show. */
  function Flatten(cs: seq<Card>): seq<Bubble>
    decreases cs
  {
    if cs == [] then [] else FlattenOne(cs[0]) + Flatten(cs[1..])
  }

  function FlattenOne(c: Card): seq<Bubble>
    decreases c
  {
    if c.Skipped? then [] else [c.bubble] + Flatten(c.children)
  }

  /** The tree view: empty for a missing or empty list, otherwise rendered
      from the top-level bubbles. */
  function Tree(bubbles: Option<seq<Bubble>>, media: Option<seq<Media>>): (r: seq<Card>)
    requires bubbles.Some? ==> Acyclic(bubbles.value) && UniqueKeys(bubbles.value)
    ensures bubbles.None? || bubbles.value == [] ==> r == []
  {
    if bubbles.None? || bubbles.value == [] then [] else Render(bubbles.value, media, None)
  }

  // ---------------------------------------------------------------------------
  // What the tree shows
  // ---------------------------------------------------------------------------

  /** Following parent links up from `x` passes through a stored top-level
      bubble. */
  ghost predicate Rooted(bs: seq<Bubble>, x: Id)
  {
    exists r :: r in bs && r.key.Some? && r.parent.None? && AncestorOrSelf(bs, r.key.value, x)
  }

  /** `x` is shown under `p`: below it, or rooted for the top level. */
  ghost predicate Below(bs: seq<Bubble>, p: Option<Id>, x: Id)
  {
    if p.Some? then Ancestor(bs, p.value, x) else Rooted(bs, x)
  }

  /** A bubble with a descendant has a child. */
  lemma DescendantMeansChild(bs: seq<Bubble>, id: Id, x: Id)
    ensures Ancestor(bs, id, x) ==> AnyWithParent(bs, Some(id))
  {
    if Ancestor(bs, id, x) {
      var n: nat :| 1 <= n && Up(bs, x, n) == Some(id);
      UpAdd(bs, x, n - 1, 1);
      var y := Up(bs, x, n - 1).value;
      var k := Lookup(bs, Some(y)).value;
      assert bs[k] in bs && bs[k].parent == Some(id);
    }
  }

  /** `z` lies above `x` exactly when one of `z`'s children is `x` or lies
      above it. */
  lemma AncestorViaChild(bs: seq<Bubble>, z: Id, x: Id)
    requires UniqueKeys(bs)
    ensures Ancestor(bs, z, x) <==>
      exists c :: c in bs && c.parent == Some(z) && c.key.Some? && AncestorOrSelf(bs, c.key.value, x)
  {
    if Ancestor(bs, z, x) {
      var n: nat :| 1 <= n && Up(bs, x, n) == Some(z);
      UpAdd(bs, x, n - 1, 1);
      var y := Up(bs, x, n - 1).value;
      var c := bs[Lookup(bs, Some(y)).value];
      assert c in bs && c.parent == Some(z) && c.key == Some(y);
      assert AncestorOrSelf(bs, y, x);
    }
    if exists c :: c in bs && c.parent == Some(z) && c.key.Some? && AncestorOrSelf(bs, c.key.value, x) {
      var c :| c in bs && c.parent == Some(z) && c.key.Some? && AncestorOrSelf(bs, c.key.value, x);
      LookupMember(bs, c);
      var m: nat :| Up(bs, x, m) == Some(c.key.value);
      UpAdd(bs, x, m, 1);
      assert Up(bs, x, m + 1) == Some(z);
    }
  }

  /** In a list without repeated keys, two stored bubbles with the same key
      are the same bubble. */
  lemma SameKeySameBubble(bs: seq<Bubble>, b: Bubble, c: Bubble)
    requires UniqueKeys(bs) && b in bs && c in bs && b.key.Some? && b.key == c.key
    ensures b == c
  {
    LookupMember(bs, b);
    LookupMember(bs, c);
  }

  /** One accordion shows its bubble and everything below it. */
  lemma RenderOneCovers(bs: seq<Bubble>, media: Option<seq<Media>>, p: Option<Id>, c: Bubble)
    requires Acyclic(bs) && UniqueKeys(bs) && c in bs && c.parent == p
    ensures forall b :: b in FlattenOne(RenderOne(bs, media, p, c)) <==>
      c.key.Some? && b in bs && b.key.Some? && AncestorOrSelf(bs, c.key.value, b.key.value)
    decreases Level(p), Rank(bs, p), 0, 0
  {
    if c.key.Some? {
      var id := c.key.value;
      var card := RenderOne(bs, media, p, c);
      if AnyWithParent(bs, Some(id)) {
        ChildRankSmaller(bs, p, c);
        RenderCovers(bs, media, Some(id));
      }
      assert Up(bs, id, 0) == Some(id);
      forall b
        ensures b in FlattenOne(card) <==> b in bs && b.key.Some? && AncestorOrSelf(bs, id, b.key.value)
      {
        assert FlattenOne(card) == [c] + Flatten(card.children);
        if b in bs && b.key.Some? {
          var x := b.key.value;
          if x == id {
            SameKeySameBubble(bs, b, c);
          } else {
            SelfOrAbove(bs, id, x);
            DescendantMeansChild(bs, id, x);
          }
        }
      }
    }
  }

  /** The accordions of a list of siblings show each sibling and everything
      below it. */
  lemma {:induction false} RenderListCovers(bs: seq<Bubble>, media: Option<seq<Media>>, p: Option<Id>, items: seq<Bubble>)
    requires Acyclic(bs) && UniqueKeys(bs)
    requires forall b :: b in items ==> b in bs && b.parent == p
    ensures forall b :: b in Flatten(RenderList(bs, media, p, items)) <==>
      exists c :: c in items && c.key.Some? && b in bs && b.key.Some? && AncestorOrSelf(bs, c.key.value, b.key.value)
    decreases Level(p), Rank(bs, p), 1, |items|
  {
    if items != [] {
      var first := RenderOne(bs, media, p, items[0]);
      var rest := RenderList(bs, media, p, items[1..]);
      RenderOneCovers(bs, media, p, items[0]);
      RenderListCovers(bs, media, p, items[1..]);
      assert ([first] + rest)[1..] == rest;
      assert Flatten(RenderList(bs, media, p, items)) == FlattenOne(first) + Flatten(rest);
      forall b
        ensures b in Flatten(RenderList(bs, media, p, items)) <==>
          exists c :: c in items && c.key.Some? && b in bs && b.key.Some? && AncestorOrSelf(bs, c.key.value, b.key.value)
      {
        if exists c :: c in items && c.key.Some? && b in bs && b.key.Some? && AncestorOrSelf(bs, c.key.value, b.key.value) {
          var c :| c in items && c.key.Some? && b in bs && b.key.Some? && AncestorOrSelf(bs, c.key.value, b.key.value);
          if c != items[0] {
            assert c in items[1..];
          }
        }
        if b in FlattenOne(first) {
          assert items[0] in items;
        }
        if b in Flatten(rest) {
          var c :| c in items[1..] && c.key.Some? && b in bs && b.key.Some? && AncestorOrSelf(bs, c.key.value, b.key.value);
          assert c in items;
        }
      }
    }
  }

  /** `renderBubbles(p)` shows exactly the stored keyed bubbles below `p`;
      from the top level, exactly those whose parent chain passes through a
      top-level bubble. */
  lemma RenderCovers(bs: seq<Bubble>, media: Option<seq<Media>>, p: Option<Id>)
    requires Acyclic(bs) && UniqueKeys(bs)
    ensures forall b :: b in Flatten(Render(bs, media, p)) <==> b in bs && b.key.Some? && Below(bs, p, b.key.value)
    decreases Level(p), Rank(bs, p), 2, 0
  {
    RenderListCovers(bs, media, p, WithParent(bs, p));
    forall b | b in bs && b.key.Some?
      ensures Below(bs, p, b.key.value) <==>
        exists c :: c in WithParent(bs, p) && c.key.Some? && AncestorOrSelf(bs, c.key.value, b.key.value)
    {
      if p.Some? {
        AncestorViaChild(bs, p.value, b.key.value);
      }
    }
  }

  /** With every parent reference pointing at a stored bubble, the tree from
      the top level shows every keyed bubble. */
  lemma RenderShowsAll(bs: seq<Bubble>, media: Option<seq<Media>>)
    requires Acyclic(bs) && UniqueKeys(bs) && RefIntegrity(bs)
    ensures forall b :: b in Flatten(Render(bs, media, None)) <==> b in bs && b.key.Some?
  {
    RenderCovers(bs, media, None);
    forall b | b in bs && b.key.Some?
      ensures Rooted(bs, b.key.value)
    {
      KeyedIsRooted(bs, b);
    }
  }

  /** Under reference integrity, every stored keyed bubble's parent chain
      ends at a top-level bubble. */
  lemma KeyedIsRooted(bs: seq<Bubble>, b: Bubble)
    requires Acyclic(bs) && UniqueKeys(bs) && RefIntegrity(bs)
    requires b in bs && b.key.Some?
    ensures Rooted(bs, b.key.value)
  {
    var x := b.key.value;
    LookupMember(bs, b);
    var h := Height(bs, x);
    assert h > 0;
    UpAdd(bs, x, h - 1, 1);
    var r := Up(bs, x, h - 1).value;
    if h - 1 > 0 {
      ReachedIsKey(bs, x, h - 1);
    }
    var k := Lookup(bs, Some(r)).value;
    assert bs[k] in bs && bs[k].key == Some(r) && bs[k].parent.None?;
    assert AncestorOrSelf(bs, r, x);
  }

  // ---------------------------------------------------------------------------
  // Each bubble is shown once
  // ---------------------------------------------------------------------------

  predicate NoDup<T(==)>(s: seq<T>)
  {
    forall i, j :: 0 <= i < j < |s| ==> s[i] != s[j]
  }

  lemma NoDupConcat<T>(a: seq<T>, b: seq<T>)
    requires NoDup(a) && NoDup(b) && forall x :: x in a ==> x !in b
    ensures NoDup(a + b)
  {
    forall i, j | 0 <= i < j < |a + b|
      ensures (a + b)[i] != (a + b)[j]
    {
      if i < |a| && j >= |a| {
        assert (a + b)[i] in a && (a + b)[j] in b;
      }
    }
  }

  /** Two points of one upward walk, at different distances, never share a
      parent in an acyclic list. */
  lemma WalkParentsDiffer(bs: seq<Bubble>, x: Id, n1: nat, n2: nat, k1: Id, k2: Id)
    requires Acyclic(bs) && n1 < n2
    ensures Up(bs, x, n1) == Some(k1) && Up(bs, x, n2) == Some(k2) ==> ParentOf(bs, Some(k1)) != ParentOf(bs, Some(k2))
  {
    if Up(bs, x, n1) == Some(k1) && Up(bs, x, n2) == Some(k2) {
      var d := n2 - n1;
      UpAdd(bs, x, n1, d);
      match ParentOf(bs, Some(k1))
      case None =>
      case Some(z) =>
        if ParentOf(bs, Some(k2)) == Some(z) {
          UpAdd(bs, k1, d, 1);
          UpAdd(bs, k1, 1, d);
          NoSelfReach(bs, z, d);
          assert false;
        }
    }
  }

  /** Two different siblings never have a bubble below both. */
  lemma SiblingsApart(bs: seq<Bubble>, p: Option<Id>, c1: Bubble, c2: Bubble, x: Id)
    requires Acyclic(bs) && UniqueKeys(bs)
    requires c1 in bs && c2 in bs && c1.parent == p && c2.parent == p
    requires c1.key.Some? && c2.key.Some? && c1.key != c2.key
    ensures !(AncestorOrSelf(bs, c1.key.value, x) && AncestorOrSelf(bs, c2.key.value, x))
  {
    var k1 := c1.key.value;
    var k2 := c2.key.value;
    if AncestorOrSelf(bs, k1, x) && AncestorOrSelf(bs, k2, x) {
      LookupMember(bs, c1);
      LookupMember(bs, c2);
      var n1: nat :| Up(bs, x, n1) == Some(k1);
      var n2: nat :| Up(bs, x, n2) == Some(k2);
      if n1 < n2 {
        WalkParentsDiffer(bs, x, n1, n2, k1, k2);
        assert false;
      } else if n2 < n1 {
        WalkParentsDiffer(bs, x, n2, n1, k2, k1);
        assert false;
      } else {
        assert false;
      }
    }
  }

  /** Filtering keeps keys distinct. */
  lemma {:induction false} WithParentUnique(bs: seq<Bubble>, p: Option<Id>)
    requires UniqueKeys(bs)
    ensures UniqueKeys(WithParent(bs, p))
  {
    if bs != [] {
      WithParentUnique(bs[1..], p);
      if bs[0].parent == p {
        var w := WithParent(bs[1..], p);
        forall k | 0 <= k < |w|
          ensures bs[0].key.Some? ==> bs[0].key != w[k].key
        {
          assert w[k] in bs[1..];
          var m :| 0 <= m < |bs[1..]| && bs[1..][m] == w[k];
          assert bs[m + 1] == w[k];
        }
        assert forall i, j :: 0 < i < j < |[bs[0]] + w| ==> ([bs[0]] + w)[i] == w[i - 1] && ([bs[0]] + w)[j] == w[j - 1];
      }
    }
  }

  /** An accordion shows no bubble twice. */
  lemma RenderOneNoDup(bs: seq<Bubble>, media: Option<seq<Media>>, p: Option<Id>, c: Bubble)
    requires Acyclic(bs) && UniqueKeys(bs) && c in bs && c.parent == p
    ensures NoDup(FlattenOne(RenderOne(bs, media, p, c)))
    decreases Level(p), Rank(bs, p), 0, 0
  {
    if c.key.Some? {
      var id := c.key.value;
      var card := RenderOne(bs, media, p, c);
      if AnyWithParent(bs, Some(id)) {
        ChildRankSmaller(bs, p, c);
        RenderNoDup(bs, media, Some(id));
        RenderCovers(bs, media, Some(id));
        NoSelfAncestor(bs, id);
      }
      NoDupConcat([c], Flatten(card.children));
    }
  }

  /** The accordions of distinct siblings show no bubble twice. */
  lemma {:induction false} RenderListNoDup(bs: seq<Bubble>, media: Option<seq<Media>>, p: Option<Id>, items: seq<Bubble>)
    requires Acyclic(bs) && UniqueKeys(bs) && UniqueKeys(items)
    requires forall b :: b in items ==> b in bs && b.parent == p
    ensures NoDup(Flatten(RenderList(bs, media, p, items)))
    decreases Level(p), Rank(bs, p), 1, |items|
  {
    if items != [] {
      var first := RenderOne(bs, media, p, items[0]);
      var rest := RenderList(bs, media, p, items[1..]);
      RenderOneNoDup(bs, media, p, items[0]);
      RenderListNoDup(bs, media, p, items[1..]);
      RenderOneCovers(bs, media, p, items[0]);
      RenderListCovers(bs, media, p, items[1..]);
      assert ([first] + rest)[1..] == rest;
      assert Flatten(RenderList(bs, media, p, items)) == FlattenOne(first) + Flatten(rest);
      forall b | b in FlattenOne(first)
        ensures b !in Flatten(rest)
      {
        var x := b.key.value;
        forall c | c in items[1..] && c.key.Some?
          ensures !AncestorOrSelf(bs, c.key.value, x)
        {
          var k :| 0 <= k < |items[1..]| && items[1..][k] == c;
          assert items[k + 1] == c;
          SiblingsApart(bs, p, items[0], c, x);
        }
      }
      NoDupConcat(FlattenOne(first), Flatten(rest));
    }
  }

  /** `renderBubbles(p)` shows no bubble twice. */
  lemma RenderNoDup(bs: seq<Bubble>, media: Option<seq<Media>>, p: Option<Id>)
    requires Acyclic(bs) && UniqueKeys(bs)
    ensures NoDup(Flatten(Render(bs, media, p)))
    decreases Level(p), Rank(bs, p), 2, 0
  {
    WithParentUnique(bs, p);
    RenderListNoDup(bs, media, p, WithParent(bs, p));
  }
}
