/** A contact that changes its place: unlinked, its buddies filed anew or dropped, and linked again. */
module BlistFloat {
  import opened BlistSeq
  import opened Options
  import opened BlistLinks
  import opened BlistModel
  import opened BlistTree
  import opened BlistSizes
  import opened BlistIndex
  import opened BlistSteps
  import opened BlistGroups

  /** The key under which buddy `b` would be filed in group `g`. */
  function KeyIn(s: State, b: Node, g: Node): Key {
    if b in s.info && s.info[b].Buddy?
    then Key(s.env.normalize(s.info[b].account, s.info[b].name), s.info[b].account, g)
    else Key("", 0, g)
  }

  // --------------------------------------------------------------- lifting off

  /** Contact `c` of group `g` is out of the sibling pointers, and nothing else. */
  function Floated(s: State, c: Node, g: Node): State
    requires Live(s.links, c) && HasHead(s.links, s.links.parent[c]) && Some(g) in s.linked
  {
    s.(links := Unlinked(s.links, c), linked := s.linked[Some(g) := Without(s.linked[Some(g)], c)])
  }

  /** What floats: contact `c` of the tree, whose buddies' keys are in transition. */
  function Adrift(s: State, c: Node): Excuse
    requires Some(c) in s.kids
  {
    NOTHING.(afloat := Some(c), unfiled := Elements(s.kids[Some(c)]))
  }

  lemma FloatedSound(s: State, c: Node, g: Node, unfiled: set<Node>)
    requires Valid(s) && Siting(s, {}, c, g) && c in s.links.parent && s.links.parent[c] == Some(g)
    ensures Live(s.links, c) && HasHead(s.links, s.links.parent[c]) && Some(g) in s.linked
    ensures Sound(Floated(s, c, g), NOTHING.(afloat := Some(c), unfiled := unfiled))
  {
    hide Linked, Placed, Sized, Indexed, Filed, Named, Prioritized, Typed, TotalPreorder, Without, Unlinked, Outside,
         SameParents;
    Soundly(s, NOTHING);
    EmptiedLinks(s, NOTHING, c, g);
    UnlinkedIsOutside(s.links, s.linked, Some(g), c);
    UnlinkedParents(s.links, c);
    var s' := Floated(s, c, g);
    SizedSame(s, s');
    SamePlaced(s.links, s.kids, s.info, {}, s'.links);
    FiledSame(s, s', NOTHING.adrift + NOTHING.unfiled, {} + unfiled);
    PrioritizedSame(s, s', {}, {});
  }

  lemma FloatedFields(s: State, c: Node, g: Node)
    requires Live(s.links, c) && HasHead(s.links, s.links.parent[c]) && Some(g) in s.linked
    ensures var s' := Floated(s, c, g);
            && s'.env == s.env && s'.info == s.info && s'.kids == s.kids && s'.keyed == s.keyed && s'.tables == s.tables
            && s'.links.parent == s.links.parent && s'.drift == s.drift && s'.connected == s.connected
            && s' == s.(links := Unlinked(s.links, c), linked := s.linked[Some(g) := Without(s.linked[Some(g)], c)])
  {
    UnlinkedParents(s.links, c);
  }

  /** The tree does not change with prev and next fields of listed nodes. */
  lemma SamePlaced(l: Links, kids: Lists, info: map<Node, Info>, adrift: set<Node>, l': Links)
    requires Placed(l, kids, info, adrift) && SameParents(l, l', kids)
    ensures Placed(l', kids, info, adrift)
  {
    forall q | q in kids ensures Siblings(l', info, adrift, q, kids[q]) {
      assert Siblings(l, info, adrift, q, kids[q]);
      forall n | n in kids[q] ensures Child(l', info, adrift, q, n) {
        ChildOf(l, kids, info, adrift, q, n);
      }
    }
    forall n | n in info ensures Standing(l', kids, info, adrift, n) {
      StandsAt(l, kids, info, adrift, n);
    }
  }

  // ------------------------------------------------------------ on the way

  /** A buddy in transition may be filed under any key that is free. */
  lemma EnteredInTransition(s: State, x: Excuse, b: Node, k: Key)
    requires Sound(s, x) && b in x.unfiled && b in s.info && s.info[b].Buddy?
    requires b !in s.keyed && k !in s.tables.buddies && k.account in s.tables.cache
    ensures Sound(Entered(s, b, k), x)
  {
    hide Linked, Placed, Indexed, Named, Typed, TotalPreorder, Spelled, Childless, Filed, Prioritized, Sized;
    Soundly(s, x);
    var s' := Entered(s, b, k);
    InsertIndexed(s.tables, s.keyed, k, b);
    EnteredFields(s, b, k);
    SizedSame(s, s');
    PrioritizedSame(s, s', x.doomed, x.doomed);
    SpelledSame(s, s', x.afloat);
    var but := x.adrift + x.unfiled;
    forall d ensures BuddyFiled(s', but, d) {
      FiledAt(s, but, d);
    }
    FiledBy(s', but);
  }

  /** Nothing is filed in group `g` under the key of buddy `b`. */
  predicate Free(s: State, b: Node, g: Node) {
    b in s.info && s.info[b].Buddy? && KeyIn(s, b, g) !in s.tables.buddies
  }

  /** The buddies of `l` whose key is free in group `g`, in order. */
  function Kept(s: State, l: seq<Node>, g: Node): seq<Node> {
    if l == [] then []
    else Kept(s, l[..|l| - 1], g) + if Free(s, l[|l| - 1], g) then [l[|l| - 1]] else []
  }

  /** The others. */
  function Lost(s: State, l: seq<Node>, g: Node): set<Node> {
    set n | n in l && !Free(s, n, g)
  }

  lemma {:induction false} KeptAre(s: State, l: seq<Node>, g: Node)
    requires NoDup(l)
    ensures forall n :: n in Kept(s, l, g) <==> n in l && Free(s, n, g)
    ensures NoDup(Kept(s, l, g)) && |Kept(s, l, g)| <= |l|
    ensures Elements(Kept(s, l, g)) == Elements(l) - Lost(s, l, g)
  {
    if l != [] {
      KeptAre(s, l[..|l| - 1], g);
    }
  }

  lemma KeptNext(s: State, l: seq<Node>, g: Node, i: nat)
    requires i < |l|
    ensures Kept(s, l[..i + 1], g) == Kept(s, l[..i], g) + if Free(s, l[i], g) then [l[i]] else []
    ensures Lost(s, l[..i + 1], g) == Lost(s, l[..i], g) + if Free(s, l[i], g) then {} else {l[i]}
  {
    assert l[..i + 1][..i] == l[..i] && l[..i + 1][i] == l[i];
    assert l[..i + 1] == l[..i] + [l[i]];
  }

  /** All buddies are kept if all keys are free. */
  lemma {:induction false} KeptAll(s: State, l: seq<Node>, g: Node)
    requires forall n :: n in l ==> Free(s, n, g)
    ensures Kept(s, l, g) == l && Lost(s, l, g) == {}
  {
    if l != [] {
      KeptAll(s, l[..|l| - 1], g);
    }
  }

  /**
   Between `s` and `s'`, the first `i` of the buddies `l` of contact `c` were looked at: those that are not free are
   gone.
  */
  ghost predicate Resettled(s: State, s': State, c: Node, l: seq<Node>, g: Node, i: nat) {
    && i <= |l|
    && s'.kids == KidsMinus(s.kids[Some(c) := Kept(s, l[..i], g) + l[i..]], Lost(s, l[..i], g))
    && s'.info == Minus(s.info, Lost(s, l[..i], g))
    && s'.links.parent == Minus(s.links.parent, Lost(s, l[..i], g))
    && s'.drift == Minus(s.drift, Lost(s, l[..i], g))
    && s'.tables.groups == s.tables.groups && s'.tables.cache.Keys == s.tables.cache.Keys
    && s'.env == s.env && s'.connected == s.connected
  }

  lemma ResettledStart(s: State, s': State, c: Node, g: Node)
    requires Some(c) in s.kids && s'.kids == s.kids && s'.info == s.info && s'.links.parent == s.links.parent
    requires s'.drift == s.drift && s'.tables == s.tables && s'.env == s.env && s'.connected == s.connected
    ensures Resettled(s, s', c, s.kids[Some(c)], g, 0)
  {
    var l := s.kids[Some(c)];
    assert l[..0] == [] && [] + l[0..] == l && s.kids[Some(c) := l] == s.kids;
    assert Lost(s, [], g) == {};
    KidsMinusNone(s.kids);
    MinusNone(s.info);
    MinusNone(s.links.parent);
    MinusNone(s.drift);
  }

  /** What one more step finds: the contact with its kept and its remaining buddies, and the next buddy. */
  lemma ResettledAt(s: State, s': State, c: Node, g0: Node, l: seq<Node>, g: Node, i: nat)
    requires Valid(s) && Siting(s, {}, c, g0) && c in s.links.parent && s.links.parent[c] == Some(g0)
    requires s.kids[Some(c)] == l
    requires Resettled(s, s', c, l, g, i)
    ensures Some(c) in s'.kids && s'.kids[Some(c)] == Kept(s, l[..i], g) + l[i..] && NoDup(s'.kids[Some(c)])
    ensures c in s'.info && s'.info[c] == s.info[c] && c in s'.links.parent && s'.links.parent[c] == Some(g0)
    ensures i < |l| ==> l[i] in s'.kids[Some(c)] && l[i] in s.info && l[i] in s'.info && s'.info[l[i]] == s.info[l[i]]
                        && s.info[l[i]].Buddy? && l[i] in s'.links.parent && s'.links.parent[l[i]] == Some(c)
    ensures i < |l| ==> Kept(s, l[..i], g) + l[i..] == Kept(s, l[..i], g) + [l[i]] + l[i + 1..]
  {
    hide Linked, Sized, Indexed, Filed, Named, Prioritized, Typed, TotalPreorder, Placed, Spelled, Minus, KidsMinus,
         Kept, Lost;
    Soundly(s, NOTHING);
    BuddyKids(s, {}, c);
    assert NoDup(l[..i]);
    KeptAre(s, l[..i], g);
    LostAre(s, l[..i], g);
    var gone := Lost(s, l[..i], g);
    assert c !in gone;
    KidsMinusUpdate(s.kids[Some(c) := Kept(s, l[..i], g) + l[i..]], gone, c, []);
    MinusAt(s.info, gone, c);
    MinusAt(s.links.parent, gone, c);
    KeptDistinct(s, l, g, i);
    if i < |l| {
      DistinctTail(l, i);
      MinusAt(s.info, gone, l[i]);
      MinusAt(s.links.parent, gone, l[i]);
      ChildOf(s.links, s.kids, s.info, {}, Some(c), l[i]);
      assert l[i..] == [l[i]] + l[i + 1..];
    }
  }

  lemma LostAre(s: State, l: seq<Node>, g: Node)
    ensures forall n :: n in Lost(s, l, g) ==> n in l
  {
  }

  lemma KeptDistinct(s: State, l: seq<Node>, g: Node, i: nat)
    requires NoDup(l) && i <= |l|
    ensures NoDup(Kept(s, l[..i], g) + l[i..])
  {
    hide Kept;
    KeptAre(s, l[..i], g);
    var t, k := Kept(s, l[..i], g) + l[i..], |Kept(s, l[..i], g)|;
    forall x, y | 0 <= x < y < |t| ensures t[x] != t[y] {
      if x < k <= y {
        assert t[x] in Kept(s, l[..i], g) && t[x] in l[..i];
        var z :| 0 <= z < i && l[z] == t[x];
        assert t[y] == l[i + (y - k)];
      }
    }
  }

  /** A buddy whose key is free stays. */
  lemma ResettledKept(s: State, s1: State, s': State, c: Node, l: seq<Node>, g: Node, i: nat)
    requires Resettled(s, s1, c, l, g, i) && i < |l| && Free(s, l[i], g)
    requires s'.kids == s1.kids && s'.info == s1.info && s'.links.parent == s1.links.parent && s'.drift == s1.drift
    requires s'.tables.groups == s1.tables.groups && s'.tables.cache.Keys == s1.tables.cache.Keys
    requires s'.env == s1.env && s'.connected == s1.connected
    ensures Resettled(s, s', c, l, g, i + 1)
  {
    hide Minus, KidsMinus, Kept, Lost;
    KeptNext(s, l, g, i);
    assert Kept(s, l[..i], g) + l[i..] == Kept(s, l[..i], g) + [l[i]] + l[i + 1..];
    assert Lost(s, l[..i], g) + {} == Lost(s, l[..i], g);
  }

  lemma PruneInside(kids: Lists, gone: set<Node>, c: Node, p: seq<Node>, b: Node, q: seq<Node>)
    requires c !in gone && NoDup(p + [b] + q)
    ensures var k := KidsMinus(kids[Some(c) := p + [b] + q], gone);
            && Some(c) in k && Without(k[Some(c)], b) == p + q
            && Less(k[Some(c) := Without(k[Some(c)], b)], Some(b)) == KidsMinus(kids[Some(c) := p + q], gone + {b})
  {
    var l := p + [b] + q;
    assert l[|p|] == b;
    WithoutAt(l, |p|);
    assert l[..|p|] + l[|p| + 1..] == p + q;
    KidsMinusUpdate(kids[Some(c) := l], gone, c, p + q);
    assert kids[Some(c) := l][Some(c) := p + q] == kids[Some(c) := p + q];
    KidsMinusLess(kids[Some(c) := p + q], gone, b);
  }

  /** A buddy whose key is taken goes. */
  lemma ResettledLost(s: State, s1: State, s': State, c: Node, g0: Node, l: seq<Node>, g: Node, i: nat)
    requires Resettled(s, s1, c, l, g, i) && i < |l| && NoDup(l) && c !in l && !Free(s, l[i], g)
    requires BuddyAt(s1, l[i], c, g0) && g0 in s1.drift && Dropped(s1, s', l[i], c, g0)
    requires NoDup(Kept(s, l[..i], g) + l[i..]) && Kept(s, l[..i], g) + l[i + 1..] != []
    ensures Resettled(s, s', c, l, g, i + 1) && Without(s1.kids[Some(c)], l[i]) != []
  {
    hide Minus, KidsMinus, Kept, Lost, Less, Without;
    var p, b, gone := Kept(s, l[..i], g), l[i], Lost(s, l[..i], g);
    KeptNext(s, l, g, i);
    LostAre(s, l[..i], g);
    assert p + l[i..] == p + [b] + l[i + 1..];
    assert c !in gone;
    PruneInside(s.kids, gone, c, p, b, l[i + 1..]);
    KidsMinusUpdate(s.kids[Some(c) := p + l[i..]], gone, c, []);
    assert p + [] == p;
    MinusLess(s.info, gone, b);
    MinusLess(s.links.parent, gone, b);
    MinusLess(s.drift, gone, b);
  }

  /** When nobody is left, all have been lost. */
  lemma ResettledNone(s: State, s1: State, c: Node, l: seq<Node>, g: Node, i: nat)
    requires Resettled(s, s1, c, l, g, i) && i < |l| && NoDup(l)
    requires Kept(s, l[..i], g) + l[i + 1..] == []
    ensures i == |l| - 1 && Pruned(s, s1, c, l, i)
    ensures !Free(s, l[i], g) ==> Kept(s, l, g) == []
  {
    hide Minus, KidsMinus;
    KeptAre(s, l[..i], g);
    KeptNext(s, l, g, i);
    assert l[..i + 1] == l;
    assert Kept(s, l[..i], g) == [];
    assert Lost(s, l[..i], g) == Elements(l[..i]);
    assert [] + l[i..] == l[i..];
  }

  // ----------------------------------------------------------------- landing

  /** The contact afloat leaves group `g0` for good and stands behind `a` in group `g`, or in front. */
  function Landed(s: State, c: Node, g0: Node, g: Node, a: Ptr): State
    requires HasSizes(s.sizes, g0) && HasSizes(s.sizes, g) && Some(g0) in s.kids && Some(g) in s.kids
    requires HasHead(s.links, Some(g)) && (a.Some? ==> Live(s.links, a.value))
  {
    var s1 := AfterChild(s, c, g0, Without(s.kids[Some(g0)], c), -1);
    var s2 := AfterChild(s1, c, g, InsertAfter(s1.kids[Some(g)], a, c), 1);
    s2.(links := Relinked(s.links, c, Some(g), a), linked := s2.kids)
  }

  lemma LandedFields(s: State, c: Node, g0: Node, g: Node, a: Ptr)
    requires HasSizes(s.sizes, g0) && HasSizes(s.sizes, g) && Some(g0) in s.kids && Some(g) in s.kids
    requires HasHead(s.links, Some(g)) && (a.Some? ==> Live(s.links, a.value))
    ensures var s', k1 := Landed(s, c, g0, g, a), s.kids[Some(g0) := Without(s.kids[Some(g0)], c)];
            && s'.env == s.env && s'.info == s.info && s'.connected == s.connected && s'.drift == s.drift
            && s'.tables == s.tables && s'.keyed == s.keyed && s'.priorities == s.priorities
            && s'.links == Relinked(s.links, c, Some(g), a)
            && s'.kids == k1[Some(g) := InsertAfter(k1[Some(g)], a, c)] && s'.linked == s'.kids
  {
  }

  lemma LandedSizes(s: State, c: Node, g0: Node, g: Node, a: Ptr)
    requires HasSizes(s.sizes, g0) && HasSizes(s.sizes, g) && Some(g0) in s.kids && Some(g) in s.kids
    requires HasHead(s.links, Some(g)) && (a.Some? ==> Live(s.links, a.value)) && c in s.info && s.info[c].Contact?
    requires c != g0
    ensures var on, now := CountsOnline(s, c), CountsCurrent(s, c);
            && HasSizes(ChildMoves(s.sizes, on, now, g0, -1), g)
            && (HasSizes(s.sizes, c) ==> HasSizes(ChildMoves(s.sizes, on, now, g0, -1), c))
            && Landed(s, c, g0, g, a).sizes == ChildMoves(ChildMoves(s.sizes, on, now, g0, -1), on, now, g, 1)
  {
    CountsStill(s, AfterChild(s, c, g0, Without(s.kids[Some(g0)], c), -1), c, g0);
  }

  /** Whether a contact counts does not depend on the sizes of groups. */
  lemma CountsStill(s: State, s': State, c: Node, g0: Node)
    requires HasSizes(s.sizes, g0) && c in s.info && s.info[c].Contact? && c != g0
    requires s'.info == s.info && s'.connected == s.connected
    requires s'.sizes == ChildMoves(s.sizes, CountsOnline(s, c), CountsCurrent(s, c), g0, -1)
    ensures CountsOnline(s', c) == CountsOnline(s, c) && CountsCurrent(s', c) == CountsCurrent(s, c)
  {
  }

  /** The links and the tree of the landing. */
  lemma LandedTree(s: State, x: Excuse, c: Node, g0: Node, g: Node, a: Ptr)
    requires Sound(s, x) && x.afloat == Some(c) && x.adrift == {} && c in s.links.parent
    requires s.links.parent[c] == Some(g0)
    requires g in s.info && s.info[g].Group? && None in s.kids && g in s.kids[None] && Some(g) in s.kids
    requires a.Some? ==> a.value in s.kids[Some(g)] && a.value != c
    ensures Some(g0) in s.kids && c in s.kids[Some(g0)] && HasHead(s.links, Some(g))
    ensures (a.Some? ==> Live(s.links, a.value))
    ensures var l', k1 := Relinked(s.links, c, Some(g), a), s.kids[Some(g0) := Without(s.kids[Some(g0)], c)];
            && s.linked == k1 && Placed(s.links, k1, s.info, {c})
            && c !in k1[Some(g)] && (a.Some? ==> a.value in k1[Some(g)])
            && Linked(l', k1[Some(g) := InsertAfter(k1[Some(g)], a, c)])
            && Placed(l', k1[Some(g) := InsertAfter(k1[Some(g)], a, c)], s.info, {})
            && l'.parent == s.links.parent[c := Some(g)]
  {
    hide Linked, Placed, Sized, Indexed, Filed, Named, Prioritized, Typed, TotalPreorder, Without, InsertAfter,
         Relinked, Outside, Loose;
    Soundly(s, x);
    AfloatParent(s, x);
    KidsDistinct(s.links, s.kids, s.info, {}, Some(g0));
    WithoutKeeps(s.kids[Some(g0)], c);
    var k1 := s.kids[Some(g0) := Without(s.kids[Some(g0)], c)];
    Departs(s.links, s.kids, s.info, {}, Some(g0), c, s.links);
    assert {} + {c} == {c} && {c} - {c} == {};
    forall q | q in k1 ensures c !in k1[q] {
      NotListed(s.links, k1, s.info, {c}, c, q);
    }
    LinkKeeps(s.links, k1, Some(g), c, a);
    LinkSameParents(s.links, k1, k1, Some(g), c, a);
    ChildOf(s.links, s.kids, s.info, {}, None, g);
    Arrives(s.links, k1, s.info, {c}, Some(g), c, a, Relinked(s.links, c, Some(g), a));
  }

  lemma LandedSized(s: State, x: Excuse, c: Node, g0: Node, g: Node, a: Ptr)
    requires Sound(s, x) && x.afloat == Some(c) && x.adrift == {} && c in s.links.parent
    requires s.links.parent[c] == Some(g0)
    requires g in s.info && s.info[g].Group? && None in s.kids && g in s.kids[None] && Some(g) in s.kids
    requires a.Some? ==> a.value in s.kids[Some(g)] && a.value != c
    ensures HasSizes(s.sizes, g0) && HasSizes(s.sizes, g) && Some(g0) in s.kids
    ensures HasHead(s.links, Some(g)) && (a.Some? ==> Live(s.links, a.value))
    ensures Sized(Landed(s, c, g0, g, a))
  {
    hide Linked, Placed, Sized, Indexed, Filed, Named, Prioritized, Typed, TotalPreorder, Without, InsertAfter,
         Relinked, Outside;
    Soundly(s, x);
    AfloatParent(s, x);
    LandedTree(s, x, c, g0, g, a);
    SizedHas(s, g0);
    SizedHas(s, g);
    ChildOutSized(s, {}, c, g0);
    var s1 := AfterChild(s, c, g0, Without(s.kids[Some(g0)], c), -1);
    SizedHas(s1, g);
    ChildInSized(s1, {c}, c, a, g);
    var s2 := AfterChild(s1, c, g, InsertAfter(s1.kids[Some(g)], a, c), 1);
    hide AfterChild;
    SizedSame(s2, Landed(s, c, g0, g, a));
  }

  lemma LandedBuddy(s: State, x: Excuse, c: Node, g: Node, s': State, b: Node)
    requires Sound(s, x) && x.afloat == Some(c) && x.adrift == {} && Some(c) in s.kids
    requires x.unfiled <= Elements(s.kids[Some(c)])
    requires forall b :: b in s.kids[Some(c)] ==>
               b in s.info && s.info[b].Buddy? && b in s.keyed && s.keyed[b] == KeyIn(s, b, g)
    requires s'.env == s.env && s'.info == s.info && s'.keyed == s.keyed
    requires s'.links.parent == s.links.parent[c := Some(g)]
    ensures BuddyFiled(s', {}, b)
  {
    hide Linked, Placed, Sized, Indexed, Filed, Named, Prioritized, Typed, TotalPreorder, Spelled, Childless, Outside;
    Soundly(s, x);
    AfloatParent(s, x);
    FiledAt(s, x.adrift + x.unfiled, b);
    if b in s.kids[Some(c)] {
      ChildOf(s.links, s.kids, s.info, {}, Some(c), b);
      assert b != c && s'.links.parent[b] == Some(c);
    } else if b in s.info && s.info[b].Buddy? && b in s.links.parent && s.links.parent[b].Some? {
      BuddyStands(s, x, b);
      assert s.links.parent[b] != Some(c);
    }
  }

  lemma LandedFiled(s: State, x: Excuse, c: Node, g: Node, s': State)
    requires Sound(s, x) && x.afloat == Some(c) && x.adrift == {} && Some(c) in s.kids
    requires x.unfiled <= Elements(s.kids[Some(c)])
    requires forall b :: b in s.kids[Some(c)] ==>
               b in s.info && s.info[b].Buddy? && b in s.keyed && s.keyed[b] == KeyIn(s, b, g)
    requires s'.env == s.env && s'.info == s.info && s'.keyed == s.keyed
    requires s'.links.parent == s.links.parent[c := Some(g)]
    ensures Filed(s', {})
  {
    hide Linked, Placed, Sized, Indexed, Filed, Named, Prioritized, Typed, TotalPreorder, Spelled, Childless;
    Soundly(s, x);
    AfloatParent(s, x);
    forall b ensures BuddyFiled(s', {}, b) {
      LandedBuddy(s, x, c, g, s', b);
    }
    FiledBy(s', {});
  }

  lemma LandedPriority(s: State, x: Excuse, c: Node, g0: Node, g: Node, a: Ptr, s': State)
    requires Sound(s, x) && x.afloat == Some(c) && x.doomed == {} && c in s.links.parent
    requires s.links.parent[c] == Some(g0)
    requires g in s.info && s.info[g].Group? && Some(g) in s.kids && Some(g0) in s.kids
    requires s'.env == s.env && s'.info == s.info && s'.connected == s.connected && s'.priorities == s.priorities
    requires var k1 := s.kids[Some(g0) := Without(s.kids[Some(g0)], c)];
             s'.kids == k1[Some(g) := InsertAfter(k1[Some(g)], a, c)]
    ensures Prioritized(s', {})
    ensures None in s.kids && None in s'.kids && s'.kids[None] == s.kids[None]
  {
    hide Linked, Placed, Sized, Indexed, Filed, Named, Prioritized, Typed, TotalPreorder, Without, InsertAfter, Outside;
    Soundly(s, x);
    AfloatParent(s, x);
    PrioritizedSame(s, s', {}, {});
  }

  lemma LandedSound(s: State, x: Excuse, c: Node, g0: Node, g: Node, a: Ptr)
    requires Sound(s, x) && x == NOTHING.(afloat := Some(c), unfiled := x.unfiled)
    requires c in s.links.parent && s.links.parent[c] == Some(g0) && Some(c) in s.kids
    requires x.unfiled <= Elements(s.kids[Some(c)])
    requires g in s.info && s.info[g].Group? && None in s.kids && g in s.kids[None] && Some(g) in s.kids
    requires a.Some? ==> a.value in s.kids[Some(g)] && a.value != c
    requires forall b :: b in s.kids[Some(c)] ==>
               b in s.info && s.info[b].Buddy? && b in s.keyed && s.keyed[b] == KeyIn(s, b, g)
    ensures HasSizes(s.sizes, g0) && HasSizes(s.sizes, g) && Some(g0) in s.kids
    ensures HasHead(s.links, Some(g)) && (a.Some? ==> Live(s.links, a.value))
    ensures Valid(Landed(s, c, g0, g, a))
  {
    hide Linked, Placed, Sized, Indexed, Filed, Named, Prioritized, Typed, TotalPreorder, Without, InsertAfter,
         Relinked, Outside, Elements;
    Soundly(s, x);
    AfloatParent(s, x);
    LandedTree(s, x, c, g0, g, a);
    LandedSized(s, x, c, g0, g, a);
    LandedFields(s, c, g0, g, a);
    var s' := Landed(s, c, g0, g, a);
    hide Landed;
    hide Childless, HasSizes, HasHead, Live, Spelled;
    LandedFiled(s, x, c, g, s');
    LandedPriority(s, x, c, g0, g, a, s');
    TypedMoved(s, c, Some(g));
    ValidBy(s');
  }

  // ------------------------------------------------- the keys on the way

  /** The keys of the buddies `l` in group `g`. */
  function KeysIn(s: State, l: seq<Node>, g: Node): set<Key> {
    set b | b in l :: KeyIn(s, b, g)
  }

  /** In group `g` nothing is filed but what was, and the keys `more`. */
  ghost predicate GainsKeys(s: State, s': State, g: Node, more: set<Key>) {
    forall k: Key {:trigger k in s'.tables.buddies} :: k.group == g ==>
             (k in s'.tables.buddies <==> k in s.tables.buddies || k in more)
  }

  /** The keys of the buddies `l`: the first `i` are filed in group `g` if they are kept, the others still in `g0`. */
  ghost predicate Filing(s: State, s': State, l: seq<Node>, g0: Node, g: Node, i: nat) {
    && i <= |l| && (forall n :: n in l ==> n in s.info && s.info[n].Buddy?)
    && (forall j {:trigger l[j]} :: 0 <= j < i && Free(s, l[j], g) ==>
        l[j] in s'.keyed && s'.keyed[l[j]] == KeyIn(s, l[j], g))
    && (forall j {:trigger l[j]} :: i <= j < |l| ==> l[j] in s'.keyed && s'.keyed[l[j]] == KeyIn(s, l[j], g0))
    && (forall j {:trigger l[j]} :: i <= j < |l| ==>
        (KeyIn(s, l[j], g) in s'.tables.buddies <==> KeyIn(s, l[j], g) in s.tables.buddies))
    && GainsKeys(s, s', g, KeysIn(s, Kept(s, l[..i], g), g))
  }

  lemma FilingStart(s: State, s': State, c: Node, g0: Node, g: Node)
    requires Valid(s) && Siting(s, {}, c, g0) && c in s.links.parent && s.links.parent[c] == Some(g0)
    requires s'.keyed == s.keyed && s'.tables == s.tables
    ensures Filing(s, s', s.kids[Some(c)], g0, g, 0)
  {
    hide Linked, Placed, Sized, Indexed, Filed, Named, Prioritized, Typed, TotalPreorder, Spelled;
    Soundly(s, NOTHING);
    var l := s.kids[Some(c)];
    BuddyKids(s, {}, c);
    forall j | 0 <= j < |l| ensures l[j] in s.keyed && s.keyed[l[j]] == KeyIn(s, l[j], g0) {
      ChildOf(s.links, s.kids, s.info, {}, Some(c), l[j]);
      BuddyStands(s, NOTHING, l[j]);
      FiledUnder(s, NOTHING, l[j], c, g0);
    }
    assert l[..0] == [];
  }

  /** No two buddies of one group have the same name on the same account. */
  lemma KeysDiffer(s: State, l: seq<Node>, g0: Node, g: Node, i: nat, j: nat)
    requires Valid(s) && NoDup(l) && i < |l| && j < |l| && i != j
    requires forall n :: n in l ==> n in s.info && s.info[n].Buddy?
    requires l[i] in s.keyed && s.keyed[l[i]] == KeyIn(s, l[i], g0) && l[j] in s.keyed
    requires s.keyed[l[j]] == KeyIn(s, l[j], g0)
    ensures KeyIn(s, l[i], g) != KeyIn(s, l[j], g)
  {
    hide Linked, Placed, Sized, Indexed, Filed, Named, Prioritized, Typed, TotalPreorder, Spelled;
    Soundly(s, NOTHING);
    OneKeyOneBuddy(s.tables, s.keyed, l[i], l[j]);
  }

  lemma FilingNext(s: State, s1: State, s': State, l: seq<Node>, g0: Node, g: Node, i: nat)
    requires Valid(s) && NoDup(l) && g != g0 && i < |l| && Filing(s, s1, l, g0, g, i) && Filing(s, s, l, g0, g, 0)
    requires KeyIn(s, l[i], g0).account in s1.tables.cache
    requires var b, k0, k := l[i], KeyIn(s, l[i], g0), KeyIn(s, l[i], g);
             if Free(s, b, g)
             then s'.keyed == (s1.keyed - {b})[b := k] && s'.tables.buddies == Less(s1.tables.buddies, k0)[k := b]
             else s'.keyed == s1.keyed - {b} - {b} && s'.tables.buddies == Less(Less(s1.tables.buddies, k0), k0)
    ensures Filing(s, s', l, g0, g, i + 1)
  {
    hide Linked, Placed, Sized, Indexed, Filed, Named, Prioritized, Typed, TotalPreorder, Sound;
    var b, k0, k := l[i], KeyIn(s, l[i], g0), KeyIn(s, l[i], g);
    forall j | 0 <= j < i + 1 && Free(s, l[j], g) ensures l[j] in s'.keyed && s'.keyed[l[j]] == KeyIn(s, l[j], g) {
      assert j < i ==> l[j] != b;
    }
    forall j | i + 1 <= j < |l|
      ensures l[j] in s'.keyed && s'.keyed[l[j]] == KeyIn(s, l[j], g0)
      ensures KeyIn(s, l[j], g) in s'.tables.buddies <==> KeyIn(s, l[j], g) in s.tables.buddies
    {
      assert l[j] != b;
      KeysDiffer(s, l, g0, g, i, j);
    }
    FilingGains(s, s1, s', l, g0, g, i);
  }

  lemma FilingGains(s: State, s1: State, s': State, l: seq<Node>, g0: Node, g: Node, i: nat)
    requires g != g0 && i < |l| && l[i] in s.info && s.info[l[i]].Buddy?
    requires GainsKeys(s, s1, g, KeysIn(s, Kept(s, l[..i], g), g))
    requires var b, k0, k := l[i], KeyIn(s, l[i], g0), KeyIn(s, l[i], g);
             s'.tables.buddies == if Free(s, b, g) then Less(s1.tables.buddies, k0)[k := b]
                 else Less(Less(s1.tables.buddies, k0), k0)
    ensures GainsKeys(s, s', g, KeysIn(s, Kept(s, l[..i + 1], g), g))
  {
    hide Kept;
    KeptNext(s, l, g, i);
    var p := Kept(s, l[..i], g);
    assert KeysIn(s, p + [l[i]], g) == KeysIn(s, p, g) + {KeyIn(s, l[i], g)};
    assert p + [] == p;
  }

  /** In the end every buddy that was kept is filed in the new group. */
  lemma FilingDone(s: State, s': State, l: seq<Node>, g0: Node, g: Node)
    requires Filing(s, s', l, g0, g, |l|) && NoDup(l) && s'.env == s.env
    requires forall n :: n in Kept(s, l, g) ==> n in s'.info && n in s.info && s'.info[n] == s.info[n]
    ensures forall b :: b in Kept(s, l, g) ==>
              b in s'.info && s'.info[b].Buddy? && b in s'.keyed && s'.keyed[b] == KeyIn(s', b, g)
  {
    KeptAre(s, l, g);
    hide Kept;
    forall b | b in Kept(s, l, g)
      ensures b in s'.info && s'.info[b].Buddy? && b in s'.keyed
              && s'.keyed[b] == KeyIn(s', b, g)
    {
      var j :| 0 <= j < |l| && l[j] == b;
    }
  }

  /** The contact has one buddy exactly if the first has no next one, and then is empty without it. */
  lemma LastOne(s: State, x: Excuse, c: Node, b: Node)
    requires Sound(s, x) && c in s.info && s.info[c].Contact? && Some(c) in s.kids && b in s.kids[Some(c)]
    ensures c in s.links.child && s.links.child[c].Some? && s.links.child[c].value in s.links.next
    ensures s.links.next[s.links.child[c].value] == None <==> Without(s.kids[Some(c)], b) == []
  {
    hide Sized, Indexed, Filed, Named, Prioritized, Typed, TotalPreorder, Placed, Spelled, Chain, Without;
    Soundly(s, x);
    HeadIsFirst(s, x, c);
    SpelledKids(s, x, c);
    ChainDup(s.links, Some(c), s.linked[Some(c)]);
    ChainAt(s.links, Some(c), s.linked[Some(c)], 0);
    WithoutKeeps(s.kids[Some(c)], b);
  }

  /** The pointers along the buddies of a contact, also while it floats. */
  lemma BuddyNext(s: State, x: Excuse, c: Node, p: seq<Node>, b: Node, q: seq<Node>)
    requires Sound(s, x) && c in s.info && s.info[c].Contact? && Some(c) in s.kids && s.kids[Some(c)] == p + [b] + q
    ensures b in s.links.next && s.links.next[b] == First(q)
  {
    hide Sized, Indexed, Filed, Named, Prioritized, Typed, TotalPreorder, Placed, Spelled, Chain;
    Soundly(s, x);
    SpelledKids(s, x, c);
    var l := s.kids[Some(c)];
    assert l[|p|] == b;
    assert q != [] ==> l[|p| + 1] == q[0];
    ChainAt(s.links, Some(c), l, |p|);
  }

  lemma UnfiledKeys(s: State, b: Node, k0: Key, k: Key)
    requires k0.account in s.tables.cache && k != k0 && Indexed(s.tables, s.keyed) && b in s.keyed && s.keyed[b] == k0
    ensures var s' := Unfiled(s, b, k0);
            && s'.tables.cache.Keys == s.tables.cache.Keys && (k in s'.tables.buddies <==> k in s.tables.buddies)
            && k0 !in s'.tables.buddies && b !in s'.keyed
  {
  }

  // ------------------------------------------------ the loop over the buddies

  /** The floating contact `c` of group `g0` after `i` of its buddies `l` have been looked at. */
  ghost predicate Refiling(s: State, s': State, c: Node, g0: Node, l: seq<Node>, g: Node, i: nat) {
    && Valid(s) && Siting(s, {}, c, g0) && c in s.links.parent && s.links.parent[c] == Some(g0) && c != g0 && g != g0
    && g0 in s.drift && s.kids[Some(c)] == l && g0 !in l
    && Filing(s, s, l, g0, g, 0) && NoDup(l)
    && (l != [] && i <= |l| ==> Kept(s, l[..i], g) + l[i..] != [])
    && Resettled(s, s', c, l, g, i) && Some(c) in s'.kids && Sound(s', Adrift(s', c)) && Filing(s, s', l, g0, g, i)
  }

  lemma RefilingStart(s: State, c: Node, g0: Node, g: Node)
    requires Valid(s) && Siting(s, {}, c, g0) && c in s.links.parent && s.links.parent[c] == Some(g0) && c != g0
    requires g != g0
    ensures Live(s.links, c) && HasHead(s.links, s.links.parent[c]) && Some(g0) in s.linked
    ensures Refiling(s, Floated(s, c, g0), c, g0, s.kids[Some(c)], g, 0)
  {
    hide Linked, Placed, Sized, Indexed, Filed, Named, Prioritized, Typed, TotalPreorder, Spelled, Without, Unlinked,
         Sound;
    FloatedSound(s, c, g0, Elements(s.kids[Some(c)]));
    UnlinkedParents(s.links, c);
    ResettledStart(s, Floated(s, c, g0), c, g0);
    FilingStart(s, Floated(s, c, g0), c, g0, g);
    FilingStart(s, s, c, g0, g);
    GroupDrift(s, NOTHING, g0);
    Soundly(s, NOTHING);
    BuddyKids(s, {}, c);
    ResettledStart(s, Floated(s, c, g0), c, g);
  }

  /** The next buddy, where it is filed, and what its next pointer says. */
  lemma RefilingAt(s: State, s': State, c: Node, g0: Node, l: seq<Node>, g: Node, i: nat)
    requires Refiling(s, s', c, g0, l, g, i) && i < |l|
    ensures var b, p := l[i], Kept(s, l[..i], g);
            && BuddyAt(s', b, c, g0) && b in s'.links.next && s'.links.next[b] == First(l[i + 1..])
            && b in s.info && s.info[b].Buddy? && s'.info[b] == s.info[b] && b in s'.kids[Some(c)]
            && b in s'.keyed && s'.keyed[b] == KeyIn(s, b, g0) && KeyIn(s', b, g) == KeyIn(s, b, g)
            && KeyIn(s', b, g0) == KeyIn(s, b, g0)
            && (KeyIn(s, b, g) in s'.tables.buddies <==> !Free(s, b, g))
            && s'.kids[Some(c)] == p + [b] + l[i + 1..] && NoDup(p + [b] + l[i + 1..]) && c !in l && NoDup(l)
            && Without(s'.kids[Some(c)], b) == p + l[i + 1..]
  {
    hide Linked, Placed, Sized, Indexed, Filed, Named, Prioritized, Typed, TotalPreorder, Spelled, Without, Sound,
         Kept, Resettled;
    ResettledAt(s, s', c, g0, l, g, i);
    ResettledEnv(s, s', c, l, g, i);
    var p := Kept(s, l[..i], g);
    var x := Adrift(s', c);
    BuddyNext(s', x, c, p, l[i], l[i + 1..]);
    BuddyStands(s', x, l[i]);
    Soundly(s, NOTHING);
    BuddyKids(s, {}, c);
    WithoutMiddle(p, l[i], l[i + 1..]);
  }

  lemma ResettledEnv(s: State, s': State, c: Node, l: seq<Node>, g: Node, i: nat)
    requires Resettled(s, s', c, l, g, i)
    ensures s'.env == s.env && s'.tables.cache.Keys == s.tables.cache.Keys && s'.tables.groups == s.tables.groups
    ensures s'.connected == s.connected
  {
  }

  lemma WithoutMiddle(p: seq<Node>, b: Node, q: seq<Node>)
    requires NoDup(p + [b] + q)
    ensures Without(p + [b] + q, b) == p + q
  {
    var l := p + [b] + q;
    assert l[|p|] == b;
    WithoutAt(l, |p|);
    assert l[..|p|] + l[|p| + 1..] == p + q;
  }

  lemma RefilingKept(s: State, s1: State, s': State, c: Node, g0: Node, l: seq<Node>, g: Node, i: nat)
    requires Refiling(s, s1, c, g0, l, g, i) && i < |l| && Free(s, l[i], g)
    requires KeyIn(s, l[i], g0).account in s1.tables.cache
    requires s' == Entered(Unfiled(s1, l[i], KeyIn(s, l[i], g0)), l[i], KeyIn(s, l[i], g)) && Sound(s', Adrift(s1, c))
    ensures Refiling(s, s', c, g0, l, g, i + 1)
  {
    hide Linked, Placed, Sized, Indexed, Filed, Named, Prioritized, Typed, TotalPreorder, Spelled, Without, Sound,
         Kept, Less;
    EnteredFields(Unfiled(s1, l[i], KeyIn(s, l[i], g0)), l[i], KeyIn(s, l[i], g));
    UnfiledFields(s1, l[i], KeyIn(s, l[i], g0));
    RefilingAt(s, s1, c, g0, l, g, i);
    FilingNext(s, s1, s', l, g0, g, i);
    hide Filing, Resettled;
    ResettledKept(s, s1, s', c, l, g, i);
    KeptNext(s, l, g, i);
  }

  lemma RefilingLost(s: State, s1: State, s': State, c: Node, g0: Node, l: seq<Node>, g: Node, i: nat)
    requires Refiling(s, s1, c, g0, l, g, i) && i < |l| && !Free(s, l[i], g)
    requires KeyIn(s, l[i], g0).account in s1.tables.cache
    requires var s2 := Unfiled(s1, l[i], KeyIn(s, l[i], g0));
             BuddyAt(s2, l[i], c, g0) && g0 in s2.drift && Dropped(s2, s', l[i], c, g0)
    requires Without(s1.kids[Some(c)], l[i]) != [] && l[i] in s.info && s.info[l[i]].Buddy?
    requires Sound(s', Adrift(s1, c).(unfiled := Adrift(s1, c).unfiled - {l[i]}))
    ensures Refiling(s, s', c, g0, l, g, i + 1)
  {
    hide Linked, Placed, Sized, Indexed, Filed, Named, Prioritized, Typed, TotalPreorder, Spelled, Without, Sound,
         Kept, Less;
    var s2 := Unfiled(s1, l[i], KeyIn(s, l[i], g0));
    UnfiledFields(s1, l[i], KeyIn(s, l[i], g0));
    RefilingAt(s, s1, c, g0, l, g, i);
    FilingNext(s, s1, s', l, g0, g, i);
    hide Filing;
    KeptNext(s, l, g, i);
    ResettledLost(s, s2, s', c, g0, l, g, i);
    LostExcuse(s, s1, s', c, g0, l, g, i);
  }

  lemma LostExcuse(s: State, s1: State, s': State, c: Node, g0: Node, l: seq<Node>, g: Node, i: nat)
    requires Refiling(s, s1, c, g0, l, g, i) && i < |l| && KeyIn(s, l[i], g0).account in s1.tables.cache
    requires var s2 := Unfiled(s1, l[i], KeyIn(s, l[i], g0));
             BuddyAt(s2, l[i], c, g0) && g0 in s2.drift && Dropped(s2, s', l[i], c, g0)
    requires Without(s1.kids[Some(c)], l[i]) != []
    ensures Some(c) in s'.kids && Adrift(s', c) == Adrift(s1, c).(unfiled := Adrift(s1, c).unfiled - {l[i]})
  {
    hide Linked, Placed, Sized, Indexed, Filed, Named, Prioritized, Typed, TotalPreorder, Spelled, Without, Sound,
         Kept, Filing, Resettled;
    RefilingAt(s, s1, c, g0, l, g, i);
    WithoutKeeps(s1.kids[Some(c)], l[i]);
  }

  lemma RefilingEmpty(s: State, s1: State, s': State, c: Node, g0: Node, l: seq<Node>, g: Node, i: nat)
    requires Refiling(s, s1, c, g0, l, g, i) && i < |l| && !Free(s, l[i], g)
    requires KeyIn(s, l[i], g0).account in s1.tables.cache
    requires var s2 := Unfiled(s1, l[i], KeyIn(s, l[i], g0));
             BuddyAt(s2, l[i], c, g0) && g0 in s2.drift && Dropped(s2, s', l[i], c, g0)
    requires Without(s1.kids[Some(c)], l[i]) == [] && Some(g0) in s.kids
    ensures Kept(s, l, g) == [] && Adrift(s1, c).unfiled - {l[i]} == {}
    ensures var gone := Elements(l) + {c};
            && s'.kids == KidsMinus(s.kids[Some(g0) := Without(s.kids[Some(g0)], c)], gone)
            && s'.info == Minus(s.info, gone)
            && s'.drift == Minus(s.drift[g0 := s.drift[g0] + 1], gone)
  {
    hide Linked, Placed, Sized, Indexed, Filed, Named, Prioritized, Typed, TotalPreorder, Spelled, Without, Sound,
         Kept, Less, Filing;
    var s2 := Unfiled(s1, l[i], KeyIn(s, l[i], g0));
    RefilingAt(s, s1, c, g0, l, g, i);
    ResettledNone(s, s2, c, l, g, i);
    var p := Kept(s, l[..i], g);
    assert p == [] && l[i + 1..] == [];
    assert [] + [l[i]] + [] == [l[i]];
    assert Elements([l[i]]) == {l[i]};
    PrunedAll(s, s2, s', c, g0, l);
  }

  lemma RefilingDone(s: State, s': State, c: Node, g0: Node, l: seq<Node>, g: Node)
    requires Refiling(s, s', c, g0, l, g, |l|)
    ensures s'.kids[Some(c)] == Kept(s, l, g)
    ensures forall b :: b in Kept(s, l, g) ==>
              b in s'.info && s'.info[b].Buddy? && b in s'.keyed && s'.keyed[b] == KeyIn(s', b, g)
    ensures c in s'.links.parent && s'.links.parent[c] == Some(g0) && c in s'.info && s'.info[c].Contact?
    ensures l != [] ==> Kept(s, l, g) != []
  {
    hide Linked, Placed, Sized, Indexed, Filed, Named, Prioritized, Typed, TotalPreorder, Spelled, Without, Sound,
         Kept, Filing;
    assert l[..|l|] == l && l[|l|..] == [];
    ResettledAt(s, s', c, g0, l, g, |l|);
    KeptAre(s, l, g);
    forall n | n in Kept(s, l, g) ensures n in s'.info && n in s.info && s'.info[n] == s.info[n] {
      MinusAt(s.info, Lost(s, l, g), n);
    }
    FilingDone(s, s', l, g0, g);
  }

  lemma RefilingFacts(s: State, s': State, c: Node, g0: Node, l: seq<Node>, g: Node, i: nat)
    requires Refiling(s, s', c, g0, l, g, i) && i < |l|
    ensures Sound(s', Adrift(s', c)) && Adrift(s', c) == NOTHING.(afloat := Some(c), unfiled := Adrift(s', c).unfiled)
    ensures l[i] in Adrift(s', c).unfiled && g != g0 && Some(g0) in s.kids && g0 in s.drift
    ensures s'.env == s.env && s'.tables.cache.Keys == s.tables.cache.Keys
  {
    hide Linked, Placed, Sized, Indexed, Filed, Named, Prioritized, Typed, TotalPreorder, Spelled, Without, Sound,
         Kept, Filing;
    RefilingAt(s, s', c, g0, l, g, i);
    ResettledEnv(s, s', c, l, g, i);
  }

  lemma RefilingHead(s: State, s': State, c: Node, g0: Node, l: seq<Node>, g: Node)
    requires Refiling(s, s', c, g0, l, g, 0)
    ensures c in s'.links.child && s'.links.child[c] == First(l[0..])
  {
    hide Linked, Placed, Sized, Indexed, Filed, Named, Prioritized, Typed, TotalPreorder, Spelled, Without, Sound,
         Filing;
    ResettledAt(s, s', c, g0, l, g, 0);
    HeadIsFirst(s', Adrift(s', c), c);
    assert [] + l[0..] == l[0..];
  }

  // ------------------------------------------- what becomes of a moved contact

  /** Contact `c` goes to another group than it is in. */
  predicate Emigrates(s: State, c: Node, g: Node) {
    c in s.links.parent && s.links.parent[c].Some? && s.links.parent[c] != Some(g) && Some(c) in s.kids
  }

  /** All its buddies are in the other group already. */
  predicate Perishes(s: State, c: Node, g: Node) {
    Emigrates(s, c, g) && s.kids[Some(c)] != [] && Kept(s, s.kids[Some(c)], g) == []
  }

  /** The nodes lost when contact `c` goes to group `g`. */
  function Casualties(s: State, c: Node, g: Node): set<Node> {
    if Perishes(s, c, g) then Elements(s.kids[Some(c)]) + {c}
    else if Emigrates(s, c, g) then Lost(s, s.kids[Some(c)], g)
    else {}
  }

  /** The drifts, with one more for the group a perishing contact leaves. */
  function Bereaved(s: State, c: Node, g: Node): map<Node, nat> {
    if Perishes(s, c, g) && s.links.parent[c].value in s.drift
    then s.drift[s.links.parent[c].value := s.drift[s.links.parent[c].value] + 1] else s.drift
  }

  /** The tree with contact `c`, less the buddies whose keys are taken in group `g`, behind `a` there, or in front. */
  function Rehomed(s: State, c: Node, g: Node, a: Ptr): Lists
    requires c in s.links.parent
  {
    var q := s.links.parent[c];
    if Perishes(s, c, g)
    then KidsMinus(if q in s.kids then s.kids[q := Without(s.kids[q], c)] else s.kids, Casualties(s, c, g))
    else if Emigrates(s, c, g) then
      Moved(KidsMinus(s.kids[Some(c) := Kept(s, s.kids[Some(c)], g)], Casualties(s, c, g)), q, c, g, a)
    else Moved(s.kids, q, c, g, a)
  }

  /** What a contact that stays in its group must be filed under already. */
  lemma FiledHere(s: State, c: Node, g: Node)
    requires Valid(s) && Siting(s, {}, c, g) && c in s.links.parent && s.links.parent[c] == Some(g)
    ensures forall b :: b in s.kids[Some(c)] ==>
              b in s.info && s.info[b].Buddy? && b in s.keyed && s.keyed[b] == KeyIn(s, b, g)
  {
    hide Linked, Placed, Sized, Indexed, Filed, Named, Prioritized, Typed, TotalPreorder;
    Soundly(s, NOTHING);
    forall b | b in s.kids[Some(c)]
      ensures b in s.info && s.info[b].Buddy? && b in s.keyed
              && s.keyed[b] == KeyIn(s, b, g)
    {
      ChildOf(s.links, s.kids, s.info, {}, Some(c), b);
      BuddyStands(s, NOTHING, b);
      FiledUnder(s, NOTHING, b, c, g);
    }
  }

  /** After the loop group `g` and its children are what they were, and the contact's buddies are filed there. */
  lemma RefilingSettled(s: State, s': State, c: Node, g0: Node, g: Node, a: Ptr)
    requires Some(c) in s.kids && Refiling(s, s', c, g0, s.kids[Some(c)], g, |s.kids[Some(c)]|) && s.info[g0].Group?
    requires g in s.info && s.info[g].Group? && None in s.kids && g in s.kids[None] && Some(g) in s.kids
    requires a.Some? ==> a.value in s.kids[Some(g)]
    ensures g in s'.info && s'.info[g].Group? && None in s'.kids && g in s'.kids[None] && Some(g) in s'.kids
    ensures s'.kids[Some(g)] == s.kids[Some(g)]
    ensures Some(c) in s'.kids && Settled(s', c, g) && Sound(s', Adrift(s', c)) && c in s'.links.parent
    ensures s'.links.parent[c] == Some(g0)
    ensures s'.kids == KidsMinus(s.kids[Some(c) := Kept(s, s.kids[Some(c)], g)], Lost(s, s.kids[Some(c)], g))
    ensures s'.info == Minus(s.info, Lost(s, s.kids[Some(c)], g))
    ensures s'.drift == Minus(s.drift, Lost(s, s.kids[Some(c)], g))
  {
    hide Linked, Placed, Sized, Indexed, Filed, Named, Prioritized, Typed, TotalPreorder, Spelled, Without, Sound,
         Kept, Filing;
    var l := s.kids[Some(c)];
    assert l[..|l|] == l && l[|l|..] == [] && Kept(s, l, g) + [] == Kept(s, l, g);
    RefilingDone(s, s', c, g0, l, g);
    KeptAre(s, l, g);
    Soundly(s, NOTHING);
    BuddyKids(s, {}, c);
  }

  /** The buddies of contact `c` are filed in group `g`. */
  ghost predicate Settled(s: State, c: Node, g: Node) {
    Some(c) in s.kids
    && forall b :: b in s.kids[Some(c)] ==>
         b in s.info && s.info[b].Buddy? && b in s.keyed && s.keyed[b] == KeyIn(s, b, g)
  }

  /** What the landing needs and what it comes to. */
  lemma Landing(s: State, x: Excuse, c: Node, g0: Node, g: Node, a: Ptr) returns (s': State)
    requires Sound(s, x) && x == NOTHING.(afloat := Some(c), unfiled := x.unfiled)
    requires c in s.links.parent && s.links.parent[c] == Some(g0) && Settled(s, c, g)
    requires x.unfiled <= Elements(s.kids[Some(c)])
    requires g in s.info && s.info[g].Group? && None in s.kids && g in s.kids[None] && Some(g) in s.kids
    requires a.Some? ==> a.value in s.kids[Some(g)] && a.value != c
    ensures HasSizes(s.sizes, g0) && HasSizes(s.sizes, g) && HasSizes(s.sizes, c) && c in s.info && s.info[c].Contact?
    ensures c != g0
    ensures Live(s.links, c) && HasHead(s.links, Some(g))
    ensures (Head(s.links, Some(g)).Some? ==> Head(s.links, Some(g)).value in s.links.prev)
    ensures a.Some? ==>
              Live(s.links, a.value) && (s.links.next[a.value].Some? ==> s.links.next[a.value].value in s.links.prev)
    ensures var on, now := CountsOnline(s, c), CountsCurrent(s, c);
            && HasSizes(ChildMoves(s.sizes, on, now, g0, -1), g) && HasSizes(ChildMoves(s.sizes, on, now, g0, -1), c)
            && s'.sizes == ChildMoves(ChildMoves(s.sizes, on, now, g0, -1), on, now, g, 1)
    ensures Valid(s') && s'.kids == Moved(s.kids, Some(g0), c, g, a) && s'.linked == s'.kids
    ensures s'.links == Relinked(s.links, c, Some(g), a) && s'.links.parent == s.links.parent[c := Some(g)]
    ensures s'.env == s.env && s'.info == s.info && s'.connected == s.connected && s'.drift == s.drift
    ensures s'.tables == s.tables && s'.keyed == s.keyed && s'.priorities == s.priorities
  {
    hide Linked, Placed, Sized, Indexed, Filed, Named, Prioritized, Typed, TotalPreorder, Without, InsertAfter,
         Relinked, Outside, Elements, ChildMoves,
         Counting, HasSizes;
    Soundly(s, x);
    AfloatParent(s, x);
    LandedTree(s, x, c, g0, g, a);
    LinksMayLink(s.links, s.linked, Some(g), a);
    ContactHasSizes(s, x, c);
    LandedSound(s, x, c, g0, g, a);
    LandedFields(s, c, g0, g, a);
    LandedSizes(s, c, g0, g, a);
    s' := Landed(s, c, g0, g, a);
  }

  /** State `s` with group `g` in the list: the new node `spare` if it is that. */
  function Hosted(s: State, g: Node, spare: Node, name: string): State
    requires None in s.kids
  {
    s.(kids := Listed(s.kids, g),
       info := if g == spare then s.info[spare := Group(name)] else s.info,
       drift := if g == spare then s.drift[spare := 0] else s.drift,
       links := if g == spare then s.links.(parent := s.links.parent[spare := None]) else s.links)
  }

  /** The fields that what becomes of a contact depends on. */
  ghost predicate SameHome(s: State, t: State) {
    && s.env == t.env && s.kids == t.kids && s.info == t.info && s.drift == t.drift && s.links.parent == t.links.parent
    && s.tables.buddies == t.tables.buddies
  }

  lemma RehomedSame(s: State, t: State, c: Node, g: Node, a: Ptr)
    requires SameHome(s, t) && c in s.links.parent
    ensures Rehomed(s, c, g, a) == Rehomed(t, c, g, a) && Casualties(s, c, g) == Casualties(t, c, g)
    ensures Bereaved(s, c, g) == Bereaved(t, c, g)
  {
    if Some(c) in s.kids {
      KeptAlike(s, t, s.kids[Some(c)], g);
    }
  }

  lemma {:induction false} KeptAlike(s: State, t: State, l: seq<Node>, g: Node)
    requires SameHome(s, t)
    ensures Kept(s, l, g) == Kept(t, l, g) && Lost(s, l, g) == Lost(t, l, g)
  {
    if l != [] {
      KeptAlike(s, t, l[..|l| - 1], g);
      assert l == l[..|l| - 1] + [l[|l| - 1]];
    }
  }

  // ------------------------------------------------------- the keys afterwards

  lemma FilingGained(s: State, s': State, l: seq<Node>, g0: Node, g: Node, i: nat)
    requires Filing(s, s', l, g0, g, i)
    ensures GainsKeys(s, s', g, KeysIn(s, Kept(s, l[..i], g), g))
  {
  }

  lemma RefilingGained(s: State, s': State, c: Node, g0: Node, l: seq<Node>, g: Node)
    requires Refiling(s, s', c, g0, l, g, |l|)
    ensures GainsKeys(s, s', g, KeysIn(s, Kept(s, l, g), g))
  {
    hide Filing, Resettled, Sound, Linked, Placed, Sized, Indexed, Filed, Named, Prioritized, Typed, TotalPreorder,
         Kept;
    assert l[..|l|] == l;
    FilingGained(s, s', l, g0, g, |l|);
  }

  lemma RefilingEmptyGains(s: State, s1: State, s': State, c: Node, g0: Node, l: seq<Node>, g: Node, i: nat)
    requires Refiling(s, s1, c, g0, l, g, i) && i < |l| && !Free(s, l[i], g)
    requires KeyIn(s, l[i], g0).account in s1.tables.cache
    requires var s2 := Unfiled(s1, l[i], KeyIn(s, l[i], g0));
             BuddyAt(s2, l[i], c, g0) && g0 in s2.drift && Dropped(s2, s', l[i], c, g0)
    requires Without(s1.kids[Some(c)], l[i]) == [] && Kept(s, l, g) == []
    ensures GainsKeys(s, s', g, KeysIn(s, Kept(s, l, g), g))
  {
    hide Filing, Resettled, Sound, Linked, Placed, Sized, Indexed, Filed, Named, Prioritized, Typed, TotalPreorder,
         Kept, Without;
    RefilingAt(s, s1, c, g0, l, g, i);
    ResettledNone(s, s1, c, l, g, i);
    FilingGained(s, s1, l, g0, g, i);
    FilingGains(s, s1, s', l, g0, g, i);
    assert l[..i + 1] == l;
  }

  /** The keys that come into group `g` with contact `c`. */
  function NewKeys(s: State, c: Node, g: Node): set<Key> {
    if Emigrates(s, c, g) then KeysIn(s, Kept(s, s.kids[Some(c)], g), g) else {}
  }
}
