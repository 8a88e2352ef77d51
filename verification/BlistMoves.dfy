/** Nodes that enter the tree, contacts and chats that leave it, and contacts that change group. */
module BlistMoves {
  import opened BlistSeq
  import opened Options
  import opened BlistLinks
  import opened BlistModel
  import opened BlistTree
  import opened BlistSizes
  import opened BlistIndex
  import opened BlistPriority
  import opened BlistSteps

  // ------------------------------------------------- a buddy joins a contact

  /** The adrift buddy stands behind `a` in contact `c`, or in front; the contact's priority is to be recomputed. */
  function Joined(s: State, b: Node, a: Ptr, c: Node, g: Node): State
    requires HasHead(s.links, Some(c)) && (a.Some? ==> Live(s.links, a.value)) && Some(c) in s.linked
    requires Some(c) in s.kids
    requires HasSizes(s.sizes, c) && HasSizes(s.sizes, g)
  {
    AfterBuddyIn(s, b, a, c, g).(
      links := Relinked(s.links, b, Some(c), a),
      linked := s.linked[Some(c) := InsertAfter(s.linked[Some(c)], a, b)],
      priorities := s.priorities.(valid := s.priorities.valid[c := false]))
  }

  lemma JoinedFields(s: State, b: Node, a: Ptr, c: Node, g: Node)
    requires HasHead(s.links, Some(c)) && (a.Some? ==> Live(s.links, a.value)) && Some(c) in s.linked
    requires Some(c) in s.kids
    requires HasSizes(s.sizes, c) && HasSizes(s.sizes, g)
    ensures var s', t := Joined(s, b, a, c, g), AfterBuddyIn(s, b, a, c, g);
            && s'.env == s.env && s'.info == s.info && s'.connected == s.connected && s'.drift == s.drift
            && s'.tables == s.tables && s'.keyed == s.keyed && s'.links == Relinked(s.links, b, Some(c), a)
            && s'.linked == s.linked[Some(c) := InsertAfter(s.linked[Some(c)], a, b)]
            && s'.kids == s.kids[Some(c) := InsertAfter(s.kids[Some(c)], a, b)]
            && s'.priorities == s.priorities.(valid := s.priorities.valid[c := false])
            && s'.sizes == t.sizes && s'.kids == t.kids && t.info == s.info && t.connected == s.connected
            && t.env == s.env && t.drift == s.drift
  {
  }

  lemma JoinedLinks(s: State, x: Excuse, b: Node, a: Ptr, c: Node)
    requires Sound(s, x) && x.afloat == None && b in x.adrift && b in s.info && Some(c) in s.kids
    requires a.Some? ==> a.value in s.kids[Some(c)]
    ensures HasHead(s.links, Some(c)) && (a.Some? ==> Live(s.links, a.value)) && Some(c) in s.linked && Live(s.links, b)
    ensures var l' := Relinked(s.links, b, Some(c), a);
            && Linked(l', s.linked[Some(c) := InsertAfter(s.linked[Some(c)], a, b)])
            && l'.parent == s.links.parent[b := Some(c)]
            && l'.child.Keys == s.links.child.Keys && l'.prev.Keys == s.links.prev.Keys
            && l'.next.Keys == s.links.next.Keys
            && forall m :: Loose(s.links, m) && m != b && m !in s.kids[None] ==> Loose(l', m)
  {
    hide Linked, Placed, Sized, Indexed, Filed, Named, Prioritized, Typed, TotalPreorder, InsertAfter, Relinked, Loose,
         Childless;
    Soundly(s, x);
    StandsAt(s.links, s.kids, s.info, x.adrift, b);
    VanishedUnlisted(s, x, b);
    LinkKeeps(s.links, s.linked, Some(c), b, a);
    LinkSameParents(s.links, s.linked, s.kids, Some(c), b, a);
  }

  /** The tree and the childless rest after an adrift node has arrived under `q`. */
  lemma ArrivesAt(s: State, x: Excuse, q: Ptr, n: Node, a: Ptr)
    requires Sound(s, x) && x.afloat == None && n in x.adrift && q.Some? && q in s.kids && Fits(s.info, q, n)
    requires q.value in s.links.parent && s.links.parent[q.value] in s.kids
    requires q.value in s.kids[s.links.parent[q.value]]
    requires a.Some? ==> a.value in s.kids[q]
    ensures HasHead(s.links, q) && (a.Some? ==> Live(s.links, a.value))
    ensures Placed(Relinked(s.links, n, q, a), s.kids[q := InsertAfter(s.kids[q], a, n)], s.info, x.adrift - {n})
    ensures Childless(s.kids[q := InsertAfter(s.kids[q], a, n)], x.adrift - {n})
    ensures n != q.value
  {
    hide Linked, Placed, Sized, Indexed, Filed, Named, Prioritized, Typed, TotalPreorder, InsertAfter, Relinked, Loose,
         Spelled;
    Soundly(s, x);
    StandsAt(s.links, s.kids, s.info, x.adrift, n);
    ChildlessAt(s.kids, x.adrift, n);
    JoinedLinks(s, x, n, a, q.value);
    ChildOf(s.links, s.kids, s.info, x.adrift, s.links.parent[q.value], q.value);
    Arrives(s.links, s.kids, s.info, x.adrift, q, n, a, Relinked(s.links, n, q, a));
  }

  lemma JoinedFiled(s: State, x: Excuse, b: Node, c: Node, s': State)
    requires Sound(s, x) && b in x.adrift && b in s.info && s.info[b].Buddy? && c in s.info && s.info[c].Contact?
    requires s'.env == s.env && s'.info == s.info && s'.keyed == s.keyed
    requires s'.links.parent == s.links.parent[b := Some(c)]
    ensures Filed(s', (x.adrift - {b}) + (x.unfiled + {b}))
  {
    hide Linked, Placed, Sized, Indexed, Filed, Named, Prioritized, Typed, TotalPreorder, Childless, Spelled;
    Soundly(s, x);
    var but' := (x.adrift - {b}) + (x.unfiled + {b});
    forall d ensures BuddyFiled(s', but', d) {
      FiledAt(s, x.adrift + x.unfiled, d);
      if d !in but' && d in s.info && s.info[d].Buddy? && d in s.links.parent && s.links.parent[d].Some? {
        BuddyStands(s, x, d);
      }
    }
    FiledBy(s', but');
  }

  lemma JoinedPriority(s: State, s': State, but: set<Node>, c: Node)
    requires Prioritized(s, but) && c in s.info && s.info[c].Contact? && c !in but
    requires s'.env == s.env && s'.info == s.info && s'.connected == s.connected
    requires s'.priorities == s.priorities.(valid := s.priorities.valid[c := false])
    requires Some(c) in s.kids && Some(c) in s'.kids && s'.kids == s.kids[Some(c) := s'.kids[Some(c)]]
    ensures Prioritized(s', but)
  {
    hide IsBest;
    forall d | d in s'.info && s'.info[d].Contact? && d !in but ensures ContactPrioritized(s', d) {
      assert ContactPrioritized(s, d);
    }
  }

  lemma JoinedSound(s: State, x: Excuse, b: Node, a: Ptr, c: Node, g: Node)
    requires Sound(s, x) && x.afloat == None && b in x.adrift && b in s.info && s.info[b].Buddy?
    requires Siting(s, x.adrift, c, g) && c in s.links.parent && s.links.parent[c] == Some(g) && c !in x.adrift
    requires c !in x.doomed
    requires a.Some? ==> a.value in s.kids[Some(c)]
    ensures HasHead(s.links, Some(c)) && (a.Some? ==> Live(s.links, a.value)) && Some(c) in s.linked
    ensures HasSizes(s.sizes, c) && HasSizes(s.sizes, g)
    ensures Sound(Joined(s, b, a, c, g), x.(adrift := x.adrift - {b}, unfiled := x.unfiled + {b}))
  {
    hide Linked, Placed, Sized, Indexed, Filed, Named, Prioritized, Typed, TotalPreorder, InsertAfter, Relinked,
         AfterBuddyIn, Loose;
    Soundly(s, x);
    JoinedLinks(s, x, b, a, c);
    SizedHas(s, c);
    SizedHas(s, g);
    NotListed(s.links, s.kids, s.info, x.adrift, b, Some(c));
    BuddyInSized(s, x.adrift, b, a, c, g);
    JoinedFields(s, b, a, c, g);
    hide Joined, Childless;
    var s' := Joined(s, b, a, c, g);
    SizedSame(AfterBuddyIn(s, b, a, c, g), s');
    ArrivesAt(s, x, Some(c), b, a);
    JoinedFiled(s, x, b, c, s');
    JoinedPriority(s, s', x.doomed, c);
    TypedMoved(s, b, Some(c));
  }

  // ------------------------------------------- childless contacts and chats

  /** The contact or chat `n` is out of group `g`. */
  function ChildLeft(s: State, n: Node, g: Node): State
    requires Live(s.links, n) && HasHead(s.links, s.links.parent[n]) && Some(g) in s.linked && Some(g) in s.kids
    requires HasSizes(s.sizes, g)
  {
    AfterChild(s, n, g, Without(s.kids[Some(g)], n), -1).(
      links := Unlinked(s.links, n), linked := s.linked[Some(g) := Without(s.linked[Some(g)], n)])
  }

  lemma ChildLeftFields(s: State, n: Node, g: Node)
    requires Live(s.links, n) && HasHead(s.links, s.links.parent[n]) && Some(g) in s.linked && Some(g) in s.kids
    requires HasSizes(s.sizes, g)
    ensures var s', t := ChildLeft(s, n, g), AfterChild(s, n, g, Without(s.kids[Some(g)], n), -1);
            && s'.env == s.env && s'.info == s.info && s'.connected == s.connected && s'.drift == s.drift
            && s'.tables == s.tables && s'.keyed == s.keyed && s'.priorities == s.priorities
            && s'.links == Unlinked(s.links, n) && s'.linked == s.linked[Some(g) := Without(s.linked[Some(g)], n)]
            && s'.kids == s.kids[Some(g) := Without(s.kids[Some(g)], n)]
            && s'.sizes == t.sizes && s'.kids == t.kids && t.info == s.info && t.connected == s.connected
            && t.env == s.env && t.drift == s.drift
  {
  }

  lemma ChildLeftSound(s: State, x: Excuse, n: Node, g: Node)
    requires Sound(s, x) && x.afloat == None && g in s.info && s.info[g].Group? && Some(g) in s.kids
    requires n in s.kids[Some(g)]
    requires Some(n) in s.kids ==> s.kids[Some(n)] == []
    ensures Live(s.links, n) && s.links.parent[n] == Some(g) && HasHead(s.links, Some(g)) && Some(g) in s.linked
    ensures HasSizes(s.sizes, g)
    ensures Sound(ChildLeft(s, n, g), x.(adrift := x.adrift + {n}))
  {
    hide Linked, Placed, Sized, Indexed, Filed, Named, Prioritized, Typed, TotalPreorder, Without, Unlinked,
         SameParents;
    Soundly(s, x);
    SizedHas(s, g);
    UnlinkKeeps(s.links, s.linked, Some(g), n);
    UnlinkSameParents(s.links, s.linked, s.kids, Some(g), n);
    ChildOutSized(s, x.adrift, n, g);
    var s' := ChildLeft(s, n, g);
    ChildLeftFields(s, n, g);
    hide ChildLeft, AfterChild;
    SizedSame(AfterChild(s, n, g, Without(s.kids[Some(g)], n), -1), s');
    Departs(s.links, s.kids, s.info, x.adrift, Some(g), n, Unlinked(s.links, n));
    UnlinkedParents(s.links, n);
    FiledSame(s, s', x.adrift + x.unfiled, (x.adrift + {n}) + x.unfiled);
    PrioritizedSame(s, s', x.doomed, x.doomed);
    assert Without([], n) == [] by { WithoutAbsent([], n); }
  }

  /** The contact or chat `n` stands behind `a` in group `g`, or in front. */
  function ChildJoined(s: State, n: Node, a: Ptr, g: Node): State
    requires HasHead(s.links, Some(g)) && (a.Some? ==> Live(s.links, a.value)) && Some(g) in s.linked
    requires Some(g) in s.kids
    requires HasSizes(s.sizes, g)
  {
    AfterChild(s, n, g, InsertAfter(s.kids[Some(g)], a, n), 1).(
      links := Relinked(s.links, n, Some(g), a), linked := s.linked[Some(g) := InsertAfter(s.linked[Some(g)], a, n)])
  }

  lemma ChildJoinedFields(s: State, n: Node, a: Ptr, g: Node)
    requires HasHead(s.links, Some(g)) && (a.Some? ==> Live(s.links, a.value)) && Some(g) in s.linked
    requires Some(g) in s.kids
    requires HasSizes(s.sizes, g)
    ensures var s', t := ChildJoined(s, n, a, g), AfterChild(s, n, g, InsertAfter(s.kids[Some(g)], a, n), 1);
            && s'.env == s.env && s'.info == s.info && s'.connected == s.connected && s'.drift == s.drift
            && s'.tables == s.tables && s'.keyed == s.keyed && s'.priorities == s.priorities
            && s'.links == Relinked(s.links, n, Some(g), a)
            && s'.linked == s.linked[Some(g) := InsertAfter(s.linked[Some(g)], a, n)]
            && s'.kids == s.kids[Some(g) := InsertAfter(s.kids[Some(g)], a, n)]
            && s'.sizes == t.sizes && s'.kids == t.kids && t.info == s.info && t.connected == s.connected
            && t.env == s.env && t.drift == s.drift
  {
  }

  lemma ChildJoinedFiled(s: State, x: Excuse, n: Node, g: Node, s': State)
    requires Sound(s, x) && n in x.adrift && n in s.info && (s.info[n].Contact? || s.info[n].Chat?)
    requires s'.env == s.env && s'.info == s.info && s'.keyed == s.keyed
    requires s'.links.parent == s.links.parent[n := Some(g)]
    ensures Filed(s', (x.adrift - {n}) + x.unfiled)
  {
    hide Sound, Filed, BuddyFiled;
    var but' := (x.adrift - {n}) + x.unfiled;
    forall d ensures BuddyFiled(s', but', d) {
      BuddyStays(s, x, n, g, s', d);
    }
    FiledBy(s', but');
  }

  /** A child that joins a group is no buddy's contact yet, so no buddy's key changes. */
  lemma BuddyStays(s: State, x: Excuse, n: Node, g: Node, s': State, d: Node)
    requires Sound(s, x) && n in x.adrift && n in s.info && (s.info[n].Contact? || s.info[n].Chat?)
    requires s'.env == s.env && s'.info == s.info && s'.keyed == s.keyed
    requires s'.links.parent == s.links.parent[n := Some(g)]
    ensures BuddyFiled(s', (x.adrift - {n}) + x.unfiled, d)
  {
    hide Linked, Placed, Sized, Indexed, Filed, Named, Prioritized, Typed, TotalPreorder, Childless, Spelled;
    Soundly(s, x);
    StandsAt(s.links, s.kids, s.info, x.adrift, n);
    ChildlessAt(s.kids, x.adrift, n);
    FiledAt(s, x.adrift + x.unfiled, d);
    if d !in (x.adrift - {n}) + x.unfiled && d in s.info && s.info[d].Buddy? && d in s.links.parent
       && s.links.parent[d].Some? {
      BuddyStands(s, x, d);
    }
  }

  lemma ChildJoinedSound(s: State, x: Excuse, n: Node, a: Ptr, g: Node)
    requires Sound(s, x) && x.afloat == None && n in x.adrift && n in s.info && (s.info[n].Contact? || s.info[n].Chat?)
    requires g in s.info && s.info[g].Group? && g in s.kids[None] && Some(g) in s.kids
    requires (a.Some? ==> a.value in s.kids[Some(g)])
    ensures HasHead(s.links, Some(g)) && (a.Some? ==> Live(s.links, a.value)) && Some(g) in s.linked
    ensures HasSizes(s.sizes, g)
    ensures Sound(ChildJoined(s, n, a, g), x.(adrift := x.adrift - {n}))
  {
    hide Linked, Placed, Sized, Indexed, Filed, Named, Prioritized, Typed, TotalPreorder, InsertAfter, Relinked, Loose;
    Soundly(s, x);
    JoinedLinks(s, x, n, a, g);
    SizedHas(s, g);
    NotListed(s.links, s.kids, s.info, x.adrift, n, Some(g));
    ChildInSized(s, x.adrift, n, a, g);
    var s' := ChildJoined(s, n, a, g);
    ChildJoinedFields(s, n, a, g);
    hide ChildJoined, AfterChild, Childless;
    ChildOf(s.links, s.kids, s.info, x.adrift, None, g);
    SizedSame(AfterChild(s, n, g, InsertAfter(s.kids[Some(g)], a, n), 1), s');
    ArrivesAt(s, x, Some(g), n, a);
    ChildJoinedFiled(s, x, n, g, s');
    TypedMoved(s, n, Some(g));
    PrioritizedSame(s, s', x.doomed, x.doomed);
  }

  /** A loose node is adrift. */
  lemma LooseIsAdrift(s: State, x: Excuse, n: Node)
    requires Sound(s, x) && n in s.info && Loose(s.links, n) && n !in s.kids[None] && x.afloat == None
    ensures Sound(s, x.(adrift := x.adrift + {n}))
  {
    hide Linked, Placed, Sized, Indexed, Filed, Named, Prioritized, Typed, TotalPreorder;
    Soundly(s, x);
    CastOff(s.links, s.kids, s.info, x.adrift, n);
    FiledSame(s, s, x.adrift + x.unfiled, (x.adrift + {n}) + x.unfiled);
  }

  // -------------------------------------------------------------- creation

  /** A new node is allocated; a new contact has no priority buddy yet. */
  function Appeared(s: State, n: Node, x: Info): State {
    Born(s, n, x).(
      links := Allocated(s.links, n), linked := s.linked[Some(n) := []],
      priorities := if x.Contact? then Priorities(s.priorities.buddy[n := None], s.priorities.valid[n := false])
          else s.priorities)
  }

  lemma AppearedFields(s: State, n: Node, x: Info)
    ensures var s', t := Appeared(s, n, x), Born(s, n, x);
            && s'.env == s.env && s'.info == s.info[n := x] && s'.connected == s.connected
            && s'.tables == s.tables && s'.keyed == s.keyed
            && s'.links == Allocated(s.links, n) && s'.linked == s.linked[Some(n) := []]
            && s'.kids == s.kids[Some(n) := []] && s'.links.parent == s.links.parent[n := None]
            && s'.sizes == t.sizes && s'.kids == t.kids && t.info == s'.info && t.connected == s.connected
            && t.env == s.env && t.drift == s'.drift
  {
  }

  lemma BornFields(s: State, n: Node, x: Info)
    ensures var s' := Appeared(s, n, x);
            && s'.drift == (if x.Group? then s.drift[n := 0] else s.drift)
            && s'.sizes == (if x.Group? || x.Contact?
                            then Sizes(s.sizes.total[n := 0], s.sizes.current[n := 0], s.sizes.online[n := 0])
                                else s.sizes)
            && s'.priorities
                 == (if x.Contact? then Priorities(s.priorities.buddy[n := None], s.priorities.valid[n := false])
                                 else s.priorities)
  {
  }

  /** What purple_*_new take care of. */
  predicate WellBorn(s: State, x: Info) {
    match x
    case Group(name) => name != ""
    case Contact => true
    case Chat(_) => true
    case Buddy(account, name, presence) => name != "" && account in s.tables.cache && presence == s.env.offline
  }

  lemma AppearedFiled(s: State, n: Node, x: Info)
    requires Sound(s, NOTHING) && n !in s.info
    ensures Filed(Appeared(s, n, x), {})
  {
    hide Linked, Placed, Sized, Indexed, Filed, Named, Prioritized, Typed, TotalPreorder, Spelled, Born, Allocated;
    Soundly(s, NOTHING);
    AppearedFields(s, n, x);
    var s' := Appeared(s, n, x);
    hide Appeared;
    forall b ensures BuddyFiled(s', {}, b) {
      FiledAt(s, NOTHING.adrift + NOTHING.unfiled, b);
      if b != n && b in s.info && s.info[b].Buddy? && b in s.links.parent && s.links.parent[b].Some? {
        BuddyStands(s, NOTHING, b);
      }
    }
    FiledBy(s', {});
  }

  lemma AppearedPriority(s: State, n: Node, x: Info)
    requires Sound(s, NOTHING) && n !in s.info
    ensures Prioritized(Appeared(s, n, x), {})
  {
    hide Linked, Sized, Indexed, Named, Filed, Typed, TotalPreorder, Placed, Spelled, IsBest;
    Soundly(s, NOTHING);
    var s' := Appeared(s, n, x);
    forall c | c in s'.info && s'.info[c].Contact? && c !in {} ensures ContactPrioritized(s', c) {
      if c != n {
        assert ContactPrioritized(s, c);
        BuddyKids(s, {}, c);
        if s'.priorities.valid[c] {
          BestSame(s.env, s.info, s'.info, s.connected, s.connected, s.kids[Some(c)], s.priorities.buddy[c]);
        }
      }
    }
  }

  lemma AppearedSound(s: State, n: Node, x: Info)
    requires Valid(s) && n !in s.info && WellBorn(s, x)
    ensures Valid(Appeared(s, n, x)) && Loose(Appeared(s, n, x).links, n) && n !in s.kids[None] && n !in s.links.prev
  {
    hide Linked, Placed, Sized, Indexed, Filed, Named, Prioritized, TotalPreorder, Loose, Allocated, Born;
    Soundly(s, NOTHING);
    AppearedFields(s, n, x);
    AppearSized(s, n, x);
    Appears(s.links, s.kids, s.info, n, x);
    LinksDomain(s, NOTHING);
    AllocateKeeps(s.links, s.linked, n);
    AppearedFiled(s, n, x);
    AppearedPriority(s, n, x);
    SizedSame(Born(s, n, x), Appeared(s, n, x));
    assert NOTHING.adrift + NOTHING.unfiled == {};
    NamedSame(s.env, s.tables.groups, s.kids[None], s.kids[None], s.info, s.info[n := x]);
    hide Appeared;
  }

  lemma LinksDomain(s: State, x: Excuse)
    requires Sound(s, x)
    ensures s.info.Keys == s.links.child.Keys == s.links.prev.Keys
  {
    hide Sized, Indexed, Filed, Named, Prioritized, Typed, TotalPreorder, Spelled;
    Soundly(s, x);
  }
}
