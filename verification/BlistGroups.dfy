/** Groups that enter the list, move in it and leave it. */
module BlistGroups {
  import opened BlistSeq
  import opened Options
  import opened BlistLinks
  import opened BlistModel
  import opened BlistTree
  import opened BlistSizes
  import opened BlistIndex
  import opened BlistSteps
  import opened BlistMoves

  /** The key a group is indexed under. */
  function NameKey(s: State, g: Node): string {
    if g in s.info && s.info[g].Group? then s.env.collateKey(s.info[g].name) else ""
  }

  /** The group indexed under the name of group `g`. */
  function Namesake(s: State, g: Node): Ptr {
    if NameKey(s, g) in s.tables.groups then Some(s.tables.groups[NameKey(s, g)]) else None
  }

  /** The list of groups becomes `l`, spelled by `links`. */
  function Regrouped(s: State, links: Links, l: seq<Node>): State {
    s.(links := links, linked := s.linked[None := l], kids := s.kids[None := l])
  }

  /** No size, key or priority depends on the order of the groups. */
  lemma RegroupedKeeps(s: State, x: Excuse, links: Links, l: seq<Node>)
    requires Sound(s, x) && x.afloat == None && links.parent == s.links.parent
    ensures var s' := Regrouped(s, links, l);
            && Sized(s') && Filed(s', x.adrift + x.unfiled) && Prioritized(s', x.doomed) && s'.linked == s'.kids
  {
    hide Linked, Placed, Indexed, Named, Typed, TotalPreorder, Filed, Prioritized, IsBest;
    Soundly(s, x);
    var s' := Regrouped(s, links, l);
    forall c | c in s'.info && s'.info[c].Contact? ensures ContactSized(s', c) {
      assert ContactSized(s, c);
    }
    forall g | g in s'.info && s'.info[g].Group? ensures GroupSized(s', g) {
      assert GroupSized(s, g);
    }
    FiledSame(s, s', x.adrift + x.unfiled, x.adrift + x.unfiled);
    PrioritizedSame(s, s', x.doomed, x.doomed);
  }

  /** The childless group `g` is out of the list and of the name index. */
  function GroupOut(s: State, g: Node): State
    requires Live(s.links, g) && HasHead(s.links, s.links.parent[g]) && None in s.kids && g in s.info
    requires s.info[g].Group?
  {
    Regrouped(s, Unlinked(s.links, g), Without(s.kids[None], g)).(
      tables := s.tables.(groups := Less(s.tables.groups, NameKey(s, g))))
  }

  lemma GroupListed(s: State, g: Node)
    requires Valid(s) && g in s.info && s.info[g].Group?
    ensures Live(s.links, g) && s.links.parent[g] == None && None in s.kids && Some(g) in s.kids
    ensures g !in s.kids[None] ==> Loose(s.links, g) && s.kids[Some(g)] == []
    ensures g in s.kids[None] ==> NameKey(s, g) in s.tables.groups && s.tables.groups[NameKey(s, g)] == g
    ensures s.linked == s.kids
  {
    hide Linked, Sized, Indexed, Filed, Prioritized, Typed, TotalPreorder;
    Soundly(s, NOTHING);
    StandsAt(s.links, s.kids, s.info, {}, g);
    if s.links.parent[g].Some? {
      ChildOf(s.links, s.kids, s.info, {}, s.links.parent[g], g);
    }
  }

  /** The links and the tree after a listed group has been unlinked. */
  lemma GroupOutLinks(s: State, g: Node)
    requires Valid(s) && g in s.info && s.info[g].Group? && None in s.kids && g in s.kids[None]
    ensures Live(s.links, g) && s.links.parent[g] == None && HasHead(s.links, None) && s.linked == s.kids
    ensures var l', kids' := Unlinked(s.links, g), s.kids[None := Without(s.kids[None], g)];
            && Linked(l', kids') && Unlisted(kids', g) && l'.parent == s.links.parent
            && Live(l', g) && Placed(l', kids', s.info, {g}) && NoDup(kids'[None]) && NoDup(s.kids[None])
            && (forall h :: h in kids'[None] <==> h in s.kids[None] && h != g)
  {
    hide Sized, Indexed, Filed, Named, Prioritized, Typed, TotalPreorder, Without, Unlinked, SameParents, Linked,
         Placed;
    Soundly(s, NOTHING);
    UnlinkKeeps(s.links, s.linked, None, g);
    UnlinkSameParents(s.links, s.linked, s.kids, None, g);
    Departs(s.links, s.kids, s.info, {}, None, g, Unlinked(s.links, g));
    UnlinkedParents(s.links, g);
    KidsDistinct(s.links, s.kids, s.info, {}, None);
    WithoutKeeps(s.kids[None], g);
    assert {} + {g} == {g};
  }

  lemma GroupOutSound(s: State, g: Node)
    requires Valid(s) && g in s.info && s.info[g].Group? && None in s.kids && g in s.kids[None]
    requires Some(g) in s.kids && s.kids[Some(g)] == []
    ensures Live(s.links, g) && HasHead(s.links, s.links.parent[g])
    ensures Sound(GroupOut(s, g), NOTHING.(adrift := {g}))
  {
    hide Linked, Placed, Sized, Indexed, Filed, Named, Prioritized, Typed, TotalPreorder, Without, Unlinked;
    Soundly(s, NOTHING);
    GroupOutLinks(s, g);
    RegroupedKeeps(s, NOTHING, Unlinked(s.links, g), Without(s.kids[None], g));
    UnnameKeeps(s.env, s.tables.groups, s.kids[None], s.info, g);
    var s1, s' := Regrouped(s, Unlinked(s.links, g), Without(s.kids[None], g)), GroupOut(s, g);
    SizedSame(s1, s');
    FiledSame(s1, s', NOTHING.adrift + NOTHING.unfiled, {g} + {});
    PrioritizedSame(s1, s', {}, {});
    IndexedSame(s.tables, s'.tables, s.keyed);
  }

  lemma IndexedSame(t: Tables, t': Tables, keyed: map<Node, Key>)
    requires Indexed(t, keyed) && t'.buddies == t.buddies && t'.cache == t.cache
    ensures Indexed(t', keyed)
  {
  }

  /** The loose group `g` enters the list behind `a`, or in front, and the name index. */
  function GroupIn(s: State, g: Node, a: Ptr): State
    requires (a.Some? ==> Live(s.links, a.value)) && None in s.kids && g in s.info && s.info[g].Group?
  {
    Regrouped(s, Relinked(s.links, g, None, a), InsertAfter(s.kids[None], a, g)).(
      tables := s.tables.(groups := s.tables.groups[NameKey(s, g) := g]))
  }

  lemma GroupInLinks(s: State, adrift: set<Node>, g: Node, a: Ptr)
    requires Linked(s.links, s.kids) && Placed(s.links, s.kids, s.info, adrift) && Unlisted(s.kids, g)
    requires Live(s.links, g)
    requires g in adrift && g in s.info && s.info[g].Group? && (a.Some? ==> a.value in s.kids[None])
    ensures a.Some? ==> Live(s.links, a.value)
    ensures var l', kids' := Relinked(s.links, g, None, a), s.kids[None := InsertAfter(s.kids[None], a, g)];
            Linked(l', kids') && Placed(l', kids', s.info, adrift - {g}) && l'.parent == s.links.parent[g := None]
  {
    hide InsertAfter, Relinked, Linked, Placed;
    assert None in s.kids by { NoneListed(s, adrift); }
    LinkKeeps(s.links, s.kids, None, g, a);
    LinkSameParents(s.links, s.kids, s.kids, None, g, a);
    Arrives(s.links, s.kids, s.info, adrift, None, g, a, Relinked(s.links, g, None, a));
  }

  lemma NoneListed(s: State, adrift: set<Node>)
    requires Placed(s.links, s.kids, s.info, adrift)
    ensures None in s.kids
  {
  }

  lemma GroupInSound(s: State, g: Node, a: Ptr)
    requires Valid(s) && g in s.info && s.info[g].Group? && None in s.kids && g !in s.kids[None]
    requires (a.Some? ==> a.value in s.kids[None]) && NameKey(s, g) !in s.tables.groups
    ensures a.Some? ==> Live(s.links, a.value)
    ensures Valid(GroupIn(s, g, a))
  {
    hide Linked, Placed, Sized, Indexed, Filed, Named, Prioritized, Typed, TotalPreorder, InsertAfter, Relinked;
    Soundly(s, NOTHING);
    GroupListed(s, g);
    CastOff(s.links, s.kids, s.info, {}, g);
    assert {} + {g} == {g} && {g} - {g} == {};
    GroupInLinks(s, {g}, g, a);
    assert s.links.parent[g := None] == s.links.parent;
    RegroupedKeeps(s, NOTHING, Relinked(s.links, g, None, a), InsertAfter(s.kids[None], a, g));
    KidsDistinct(s.links, s.kids, s.info, {}, None);
    NameKeeps(s.env, s.tables.groups, s.kids[None], s.info, g, a);
    var s1, s' := Regrouped(s, Relinked(s.links, g, None, a), InsertAfter(s.kids[None], a, g)), GroupIn(s, g, a);
    hide Live, Loose, HasHead;
    SizedSame(s1, s');
    FiledSame(s1, s', NOTHING.adrift + NOTHING.unfiled, {});
    PrioritizedSame(s1, s', {}, {});
    IndexedSame(s.tables, s'.tables, s.keyed);
    ValidBy(s');
  }

  /** The listed group `g` stands behind `a`, or in front. */
  function GroupMoved(s: State, g: Node, a: Ptr): State
    requires Live(s.links, g) && HasHead(s.links, s.links.parent[g]) && None in s.kids
    requires a.Some? ==> Live(Unlinked(s.links, g), a.value)
  {
    Regrouped(s, Relinked(Unlinked(s.links, g), g, None, a), InsertAfter(Without(s.kids[None], g), a, g))
  }

  lemma GroupMovedSound(s: State, g: Node, a: Ptr)
    requires Valid(s) && g in s.info && s.info[g].Group? && None in s.kids && g in s.kids[None]
    requires a.Some? ==> a.value in s.kids[None] && a.value != g
    ensures Live(s.links, g) && HasHead(s.links, s.links.parent[g])
    ensures a.Some? ==> Live(Unlinked(s.links, g), a.value)
    ensures Valid(GroupMoved(s, g, a))
  {
    hide Linked, Placed, Sized, Indexed, Filed, Named, Prioritized, Typed, TotalPreorder, InsertAfter, Relinked,
         Without, Unlinked;
    Soundly(s, NOTHING);
    GroupOutLinks(s, g);
    var s1 := Regrouped(s, Unlinked(s.links, g), Without(s.kids[None], g));
    GroupInLinks(s1, {g}, g, a);
    var l := InsertAfter(Without(s.kids[None], g), a, g);
    assert s.kids[None := Without(s.kids[None], g)][None := l] == s.kids[None := l];
    assert s.links.parent[g := None] == s.links.parent;
    assert {g} - {g} == {};
    RegroupedKeeps(s, NOTHING, Relinked(Unlinked(s.links, g), g, None, a), l);
    InsertKeeps(Without(s.kids[None], g), a, g);
    NamedSame(s.env, s.tables.groups, s.kids[None], l, s.info, s.info);
  }

  // --------------------------------------------- what the pointers lead to

  /** Between calls the pointers of any sibling list spell its nodes in order. */
  lemma SiblingAt(s: State, q: Ptr, i: nat)
    requires Valid(s) && q in s.kids && i < |s.kids[q]|
    ensures var n := s.kids[q][i];
            && Live(s.links, n) && s.links.parent[n] == q && n in s.info
            && s.links.prev[n] == Before(s.kids[q], i) && s.links.next[n] == After(s.kids[q], i)
  {
    hide Sound, Before, After;
    SiblingIn(s, NOTHING, q, i);
  }

  /** So they do while no contact is afloat. */
  lemma SiblingIn(s: State, x: Excuse, q: Ptr, i: nat)
    requires Sound(s, x) && x.afloat == None && q in s.kids && i < |s.kids[q]|
    ensures var n := s.kids[q][i];
            && Live(s.links, n) && s.links.parent[n] == q && n in s.info
            && s.links.prev[n] == Before(s.kids[q], i) && s.links.next[n] == After(s.kids[q], i)
  {
    hide Sized, Indexed, Filed, Named, Prioritized, Typed, TotalPreorder, Placed, Chain;
    Soundly(s, x);
    ChainAt(s.links, q, s.linked[q], i);
    LinksDomain(s, x);
  }

  lemma HeadOf(s: State, q: Ptr)
    requires Valid(s) && q in s.kids
    ensures HasHead(s.links, q) && Head(s.links, q) == First(s.kids[q]) && NoDup(s.kids[q])
  {
    hide Sound, HasHead, Head;
    HeadIn(s, NOTHING, q);
  }

  lemma HeadIn(s: State, x: Excuse, q: Ptr)
    requires Sound(s, x) && x.afloat == None && q in s.kids
    ensures HasHead(s.links, q) && Head(s.links, q) == First(s.kids[q]) && NoDup(s.kids[q])
  {
    hide Sized, Indexed, Filed, Named, Prioritized, Typed, TotalPreorder, Placed, Chain;
    Soundly(s, x);
    ChainDup(s.links, q, s.linked[q]);
  }

  /** What linking behind `a` under `q`, or in front, reads and writes is there. */
  lemma MayLink(s: State, q: Ptr, a: Ptr)
    requires Valid(s) && q in s.kids && (a.Some? ==> a.value in s.kids[q])
    ensures HasHead(s.links, q) && (Head(s.links, q).Some? ==> Head(s.links, q).value in s.links.prev)
    ensures a.Some? ==> Live(s.links, a.value) && s.links.parent[a.value] == q
                        && (s.links.next[a.value].Some? ==> s.links.next[a.value].value in s.links.prev)
  {
    HeadOf(s, q);
    var l := s.kids[q];
    if l != [] {
      SiblingAt(s, q, 0);
    }
    if a.Some? {
      var i :| 0 <= i < |l| && l[i] == a.value;
      SiblingAt(s, q, i);
      if i + 1 < |l| {
        SiblingAt(s, q, i + 1);
      }
    }
  }

  /** The kinds and places of the children of a group. */
  lemma GroupKids(s: State, g: Node)
    requires Valid(s) && g in s.info && s.info[g].Group? && Some(g) in s.kids
    ensures forall n :: n in s.kids[Some(g)] ==> (
              && n in s.info && (s.info[n].Contact? || s.info[n].Chat?)
              && n in s.links.parent && s.links.parent[n] == Some(g) && n != g && Some(n) in s.kids)
    ensures forall n :: n in s.kids[Some(g)] && s.info[n].Chat? ==> s.kids[Some(n)] == []
    ensures HasSizes(s.sizes, g) && g in s.drift
  {
    hide Linked, Indexed, Filed, Named, Prioritized, Typed, TotalPreorder;
    Soundly(s, NOTHING);
    SizedHas(s, g);
    forall n | n in s.kids[Some(g)]
      ensures n in s.info && (s.info[n].Contact? || s.info[n].Chat?)
              && n in s.links.parent && s.links.parent[n] == Some(g) && n != g && Some(n) in s.kids
              && (s.info[n].Chat? ==> s.kids[Some(n)] == [])
    {
      ChildOf(s.links, s.kids, s.info, {}, Some(g), n);
      StandsAt(s.links, s.kids, s.info, {}, n);
    }
  }

  /** A contact or chat with a parent stands in a listed group. */
  lemma ChildStands(s: State, n: Node)
    requires Valid(s) && n in s.info && (s.info[n].Contact? || s.info[n].Chat?)
    ensures Live(s.links, n) && Some(n) in s.kids && None in s.kids && n !in s.kids[None]
    ensures s.links.parent[n].Some? ==>
              var g := s.links.parent[n].value;
              && g in s.info && s.info[g].Group? && Some(g) in s.kids && n in s.kids[Some(g)] && g != n
              && (s.kids[Some(g)] != [] ==> g in s.kids[None])
    ensures s.links.parent[n] == None ==> Loose(s.links, n) && s.kids[Some(n)] == []
    ensures s.info[n].Chat? ==> s.kids[Some(n)] == []
  {
    hide Linked, Sized, Indexed, Filed, Named, Prioritized, Typed, TotalPreorder;
    Soundly(s, NOTHING);
    StandsAt(s.links, s.kids, s.info, {}, n);
    if n in s.kids[None] {
      ChildOf(s.links, s.kids, s.info, {}, None, n);
    }
    if s.links.parent[n].Some? {
      var g := s.links.parent[n].value;
      ChildOf(s.links, s.kids, s.info, {}, Some(g), n);
      StandsAt(s.links, s.kids, s.info, {}, g);
      if s.links.parent[g].Some? {
        ChildOf(s.links, s.kids, s.info, {}, s.links.parent[g], g);
      }
    }
  }

  // ------------------------------------------------------- two groups, one key

  lemma GroupIndexed(s: State, k: string)
    requires Valid(s) && k in s.tables.groups
    ensures var g := s.tables.groups[k];
            None in s.kids && g in s.kids[None] && g in s.info && s.info[g].Group? && NameKey(s, g) == k
  {
    hide Linked, Placed, Sized, Indexed, Filed, Prioritized, Typed, TotalPreorder;
    Soundly(s, NOTHING);
  }

  lemma UnnamedInvalid(s: State, g: Node)
    requires None in s.kids && g in s.kids[None] && g in s.info && s.info[g].Group?
    requires NameKey(s, g) in s.tables.groups ==> s.tables.groups[NameKey(s, g)] != g
    ensures !Valid(s)
  {
    hide Linked, Placed, Sized, Indexed, Filed, Prioritized, Typed, TotalPreorder;
  }

  lemma ValidIs(s: State)
    ensures Valid(s) <==> Sound(s, NOTHING)
  {
  }

  lemma MayUnlink(s: State, q: Ptr, n: Node)
    requires Valid(s) && q in s.kids && n in s.kids[q]
    ensures Live(s.links, n) && s.links.parent[n] == q && HasHead(s.links, q)
    ensures s.links.prev[n].Some? ==> s.links.prev[n].value in s.links.next
    ensures s.links.next[n].Some? ==> s.links.next[n].value in s.links.prev
  {
    hide Sized, Indexed, Filed, Named, Prioritized, Typed, TotalPreorder, Placed, Chain;
    Soundly(s, NOTHING);
    Neighbours(s.links, s.linked, q, n);
  }

  /** Unlinking a group that is in no list changes nothing; so does removing a name nobody has. */
  lemma GroupLoose(s: State, s': State, g: Node)
    requires Valid(s) && g in s.info && s.info[g].Group? && None in s.kids && g !in s.kids[None]
    requires Live(s.links, g) && HasHead(s.links, s.links.parent[g])
    requires s' == GroupOut(s, g)
    ensures s'.kids == s.kids
    ensures NameKey(s, g) !in s.tables.groups ==> Sound(s', NOTHING.(adrift := {g}))
  {
    hide Linked, Placed, Sized, Indexed, Filed, Named, Prioritized, Typed, TotalPreorder, Sound;
    GroupListed(s, g);
    HeadOf(s, None);
    WithoutAbsent(s.kids[None], g);
    assert s.kids[None := s.kids[None]] == s.kids;
    if NameKey(s, g) !in s.tables.groups {
      assert Less(s.tables.groups, NameKey(s, g)) == s.tables.groups;
      assert s' == s;
      LooseIsAdrift(s, NOTHING, g);
      assert NOTHING.adrift + {g} == {g};
    }
  }

  /** If a name other groups need was removed, the list is not in order any more. */
  lemma GroupGone(s: State, s1: State, s': State, g: Node)
    requires Valid(s) && g in s.info && s.info[g].Group? && None in s.kids && None in s1.kids
    requires s1.kids[None] == s.kids[None] && g !in s.kids[None]
    requires s1.info == s.info && s1.env == s.env && s1.tables.groups == Less(s.tables.groups, NameKey(s, g))
    requires s' == Vanished(s1, g) && NameKey(s, g) in s.tables.groups
    ensures !Valid(s')
  {
    hide Linked, Placed, Sized, Indexed, Filed, Named, Prioritized, Typed, TotalPreorder, Sound;
    GroupIndexed(s, NameKey(s, g));
    var h := s.tables.groups[NameKey(s, g)];
    UnnamedInvalid(s', h);
  }

  /** The store as purple_blist_add_group finds it before it links the group. */
  function Loosened(s: State, g: Node): Links
    requires Live(s.links, g) && HasHead(s.links, s.links.parent[g]) && g in s.info && s.info[g].Group?
  {
    if NameKey(s, g) in s.tables.groups then Unlinked(s.links, g) else s.links
  }

  /** Its pointer surgery is on live nodes. */
  lemma GroupPlaces(s: State, g: Node, a: Ptr)
    requires Valid(s) && g in s.info && s.info[g].Group? && None in s.kids
    requires a.Some? ==> a.value in s.kids[None] && a.value != g
    ensures Live(s.links, g) && HasHead(s.links, s.links.parent[g])
    ensures s.links.prev[g].Some? ==> s.links.prev[g].value in s.links.next
    ensures s.links.next[g].Some? ==> s.links.next[g].value in s.links.prev
    ensures var l := Loosened(s, g);
            && Live(l, g) && HasHead(l, None) && (Head(l, None).Some? ==> Head(l, None).value in l.prev)
            && (a.Some? ==> Live(l, a.value) && (l.next[a.value].Some? ==> l.next[a.value].value in l.prev))
    ensures g !in s.kids[None] ==> Loosened(s, g) == s.links
  {
    hide Linked, Placed, Sized, Indexed, Filed, Named, Prioritized, Typed, TotalPreorder, Sound, Unlinked, Valid;
    GroupListed(s, g);
    MayLink(s, None, a);
    HeadOf(s, None);
    if g in s.kids[None] {
      MayUnlink(s, None, g);
      GroupOutLinks(s, g);
      hide Without;
      LinksMayLink(Unlinked(s.links, g), s.kids[None := Without(s.kids[None], g)], None, a);
    } else {
      LooseUnlinked(s.links, g);
    }
  }

  lemma LooseUnlinked(l: Links, g: Node)
    requires Loose(l, g) && l.root != Some(g)
    ensures Unlinked(l, g) == l
  {
  }

  lemma LinksMayLink(l: Links, lists: Lists, q: Ptr, a: Ptr)
    requires Linked(l, lists) && q in lists && (a.Some? ==> a.value in lists[q])
    ensures HasHead(l, q) && (Head(l, q).Some? ==> Head(l, q).value in l.prev)
    ensures a.Some? ==> Live(l, a.value) && (l.next[a.value].Some? ==> l.next[a.value].value in l.prev)
  {
    hide Chain;
    var s := lists[q];
    ChainDup(l, q, s);
    if s != [] {
      ChainAt(l, q, s, 0);
    }
    if a.Some? {
      Neighbours(l, lists, q, a.value);
    }
  }

  /** What purple_blist_add_group makes of the list. */
  function WithGroup(s: State, g: Node, a: Ptr): State
    requires g in s.info && s.info[g].Group? && None in s.kids
    requires Live(s.links, g) && HasHead(s.links, s.links.parent[g]) && (a.Some? ==> Live(Loosened(s, g), a.value))
  {
    Regrouped(s, Relinked(Loosened(s, g), g, None, a), InsertAfter(Without(s.kids[None], g), a, g)).(
      tables := if NameKey(s, g) in s.tables.groups then s.tables
                else s.tables.(groups := s.tables.groups[NameKey(s, g) := g]))
  }

  lemma WithGroupFields(s: State, g: Node, a: Ptr)
    requires g in s.info && s.info[g].Group? && None in s.kids
    requires Live(s.links, g) && HasHead(s.links, s.links.parent[g]) && (a.Some? ==> Live(Loosened(s, g), a.value))
    ensures var s', l, k := WithGroup(s, g, a), InsertAfter(Without(s.kids[None], g), a, g), NameKey(s, g);
            && s'.env == s.env && s'.info == s.info && s'.connected == s.connected && s'.drift == s.drift
            && s'.keyed == s.keyed && s'.priorities == s.priorities && s'.sizes == s.sizes
            && s'.links == Relinked(Loosened(s, g), g, None, a)
            && s'.kids == s.kids[None := l] && s'.linked == s.linked[None := l]
            && s'.tables == (if k in s.tables.groups then s.tables else s.tables.(groups := s.tables.groups[k := g]))
  {
  }

  lemma GroupAdded(s: State, g: Node, a: Ptr)
    requires Valid(s) && g in s.info && s.info[g].Group? && None in s.kids
    requires a.Some? ==> a.value in s.kids[None] && a.value != g
    requires Live(s.links, g) && HasHead(s.links, s.links.parent[g]) && (a.Some? ==> Live(Loosened(s, g), a.value))
    ensures var s' := WithGroup(s, g, a); s'.links.parent == s.links.parent
    ensures Valid(WithGroup(s, g, a)) <==> Namesake(s, g) == None || Namesake(s, g) == Some(g)
    ensures var s' := WithGroup(s, g, a); Valid(s') ==> s'.tables.groups == s.tables.groups[NameKey(s, g) := g]
  {
    hide Linked, Placed, Sized, Indexed, Filed, Named, Prioritized, Typed, TotalPreorder, Sound, Unlinked, Valid,
         InsertAfter, Relinked, Without;
    GroupListed(s, g);
    MayLink(s, None, a);
    AddedParents(s, g, a);
    HeadOf(s, None);
    var s' := WithGroup(s, g, a);
    var k := NameKey(s, g);
    if g in s.kids[None] {
      GroupMovedSound(s, g, a);
      assert s.tables.groups[k := g] == s.tables.groups;
      assert s' == GroupMoved(s, g, a);
    } else {
      WithoutAbsent(s.kids[None], g);
      if k !in s.tables.groups {
        GroupInSound(s, g, a);
        assert s' == GroupIn(s, g, a);
      } else {
        GroupIndexed(s, k);
        InsertKeeps(s.kids[None], a, g);
        UnnamedInvalid(s', g);
      }
    }
  }

  lemma AddedParents(s: State, g: Node, a: Ptr)
    requires Live(s.links, g) && s.links.parent[g] == None && g in s.info && s.info[g].Group? && HasHead(s.links, None)
    requires a.Some? ==> Live(Loosened(s, g), a.value) && s.links.parent[a.value] == None
    ensures Relinked(Loosened(s, g), g, None, a).parent == s.links.parent
  {
    UnlinkedParents(s.links, g);
    hide Unlinked;
    assert s.links.parent[g := None] == s.links.parent;
  }

  /** What linking reads and writes is there, also while nodes are adrift. */
  lemma MayLinkIn(s: State, x: Excuse, q: Ptr, a: Ptr)
    requires Sound(s, x) && x.afloat == None && q in s.kids && (a.Some? ==> a.value in s.kids[q])
    ensures HasHead(s.links, q) && (Head(s.links, q).Some? ==> Head(s.links, q).value in s.links.prev)
    ensures a.Some? ==>
              Live(s.links, a.value) && (s.links.next[a.value].Some? ==> s.links.next[a.value].value in s.links.prev)
  {
    hide Linked, Sized, Indexed, Filed, Named, Prioritized, Typed, TotalPreorder, Placed;
    Soundly(s, x);
    LinksMayLink(s.links, s.kids, q, a);
  }

  // ------------------------------------------------------------ new places

  /** The tree with group `g` appended to the groups if it is not among them. */
  function Listed(kids: Lists, g: Node): Lists
    requires None in kids
  {
    if g in kids[None] then kids else kids[Some(g) := []][None := kids[None] + [g]]
  }

  /** The tree with node `n`, which was under `q` if anywhere, behind `a` under group `g`, or in front. */
  function Moved(kids: Lists, q: Ptr, n: Node, g: Node, a: Ptr): Lists {
    var k1 := if q.Some? && q in kids then kids[q := Without(kids[q], n)] else kids;
    k1[Some(g) := InsertAfter(if Some(g) in k1 then k1[Some(g)] else [], a, n)]
  }

  lemma ListedAfter(s: State, g: Node)
    requires Valid(s) && g in s.info && s.info[g].Group? && None in s.kids && Namesake(s, g) == None
    ensures g !in s.kids[None] && NoDup(s.kids[None]) && Some(g) in s.kids
    ensures s.kids[None := InsertAfter(Without(s.kids[None], g), Last(s.kids[None]), g)] == Listed(s.kids, g)
    ensures Last(s.kids[None]).Some? ==> Last(s.kids[None]).value in s.kids[None] && Last(s.kids[None]).value in s.info
                                         && s.info[Last(s.kids[None]).value].Group?
  {
    hide Linked, Placed, Sized, Indexed, Filed, Named, Prioritized, Typed, TotalPreorder, Sound, Valid;
    GroupListed(s, g);
    HeadOf(s, None);
    WithoutAbsent(s.kids[None], g);
    InsertLast(s.kids[None], g);
    assert s.kids[Some(g) := []] == s.kids;
    if s.kids[None] != [] {
      TopIsGroup(s, Last(s.kids[None]).value);
    }
  }

  lemma TopIsGroup(s: State, g: Node)
    requires Valid(s) && None in s.kids && g in s.kids[None]
    ensures g in s.info && s.info[g].Group? && Some(g) in s.kids && Namesake(s, g) == Some(g)
  {
    hide Linked, Sized, Indexed, Filed, Prioritized, Typed, TotalPreorder;
    Soundly(s, NOTHING);
    ChildOf(s.links, s.kids, s.info, {}, None, g);
    StandsAt(s.links, s.kids, s.info, {}, g);
  }

  /** A new group has no namesake and is appended as if it had been there all along. */
  lemma GroupMade(s: State, n: Node, name: string)
    requires Valid(s) && n !in s.info && name != "" && None in s.kids
    ensures s.env.collateKey(name) in s.tables.groups ==> s.tables.groups[s.env.collateKey(name)] in s.info
                                                          && s.info[s.tables.groups[s.env.collateKey(name)]].Group?
    ensures n !in s.kids[None]
    ensures var s' := Appeared(s, n, Group(name));
            && Valid(s') && s'.info == s.info[n := Group(name)] && s'.drift == s.drift[n := 0] && s'.tables == s.tables
            && s'.links.parent == s.links.parent[n := None] && s'.kids == s.kids[Some(n) := []]
            && None in s'.kids && s'.kids[None] == s.kids[None]
            && Listed(s'.kids, n) == Listed(s.kids, n)
            && (s.env.collateKey(name) !in s.tables.groups ==> Namesake(s', n) == None)
  {
    hide Linked, Placed, Sized, Indexed, Filed, Named, Prioritized, Typed, TotalPreorder, Sound, Valid;
    AppearedSound(s, n, Group(name));
    AppearedFields(s, n, Group(name));
    BornFields(s, n, Group(name));
    if s.env.collateKey(name) in s.tables.groups {
      GroupIndexed(s, s.env.collateKey(name));
    }
    assert s.kids[Some(n) := []][Some(n) := []] == s.kids[Some(n) := []];
  }

  /** A node adrift is live and in no list. */
  lemma Adrifts(s: State, x: Excuse, n: Node, q: Ptr)
    requires Sound(s, x) && n in x.adrift && n in s.info && q in s.kids
    ensures Live(s.links, n) && n !in s.kids[q]
  {
    hide Linked, Sized, Indexed, Filed, Named, Prioritized, Typed, TotalPreorder;
    Soundly(s, x);
    StandsAt(s.links, s.kids, s.info, x.adrift, n);
    NotListed(s.links, s.kids, s.info, x.adrift, n, q);
  }

  lemma TypedNames(s: State)
    requires Valid(s)
    ensures s.env.buddiesGroup != "" && s.env.chatsGroup != "" && None in s.kids
  {
    hide Linked, Sized, Indexed, Filed, Named, Prioritized, Placed, TotalPreorder;
    Soundly(s, NOTHING);
  }

  lemma ContactHasSizes(s: State, x: Excuse, n: Node)
    requires Sound(s, x) && n in s.info
    ensures s.info[n].Contact? || s.info[n].Group? ==> HasSizes(s.sizes, n)
  {
    hide Linked, Placed, Indexed, Filed, Named, Prioritized, Typed, TotalPreorder;
    Soundly(s, x);
    if s.info[n].Contact? || s.info[n].Group? {
      SizedHas(s, n);
    }
  }

  lemma ListedIs(s: State, g: Node)
    requires None in s.kids
    ensures g in s.kids[None] ==> Listed(s.kids, g) == s.kids
  {
  }
}
