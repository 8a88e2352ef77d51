/** The steps the list's operations are made of, and that each keeps what it must. */
module BlistSteps {
  import opened BlistSeq
  import opened Options
  import opened BlistLinks
  import opened BlistModel
  import opened BlistTree
  import opened BlistSizes
  import opened BlistIndex
  import opened BlistPriority

  // ------------------------------------------------------- facts about states

  lemma SameFields(s: State, t: State)
    requires s.env == t.env && s.links == t.links && s.kids == t.kids && s.linked == t.linked && s.info == t.info
    requires s.sizes == t.sizes && s.drift == t.drift && s.priorities == t.priorities && s.tables == t.tables
    requires s.keyed == t.keyed && s.connected == t.connected
    ensures s == t
  {
  }

  /** A buddy in the tree: its contact `c` and group `g`. */
  ghost predicate BuddyAt(s: State, b: Node, c: Node, g: Node) {
    && b in s.info && s.info[b].Buddy? && b in s.links.parent && s.links.parent[b] == Some(c)
    && c in s.info && s.info[c].Contact? && c in s.links.parent && s.links.parent[c] == Some(g)
    && g in s.info && s.info[g].Group? && Some(c) in s.kids && Some(g) in s.kids
    && b in s.kids[Some(c)] && c in s.kids[Some(g)]
    && b != c && c != g && b != g
  }

  lemma Soundly(s: State, x: Excuse)
    requires Sound(s, x)
    ensures Linked(s.links, s.linked) && Spelled(s, x.afloat) && Placed(s.links, s.kids, s.info, x.adrift)
    ensures Childless(s.kids, x.adrift) && Sized(s) && Indexed(s.tables, s.keyed) && Filed(s, x.adrift + x.unfiled)
    ensures None in s.kids && Named(s.env, s.tables.groups, s.kids[None], s.info) && Prioritized(s, x.doomed)
    ensures Typed(s.env, s.info, s.links.parent, s.tables.cache, s.connected) && TotalPreorder(s.env)
  {
  }

  lemma ValidBy(s: State)
    requires Linked(s.links, s.linked) && s.linked == s.kids && Placed(s.links, s.kids, s.info, {})
    requires Sized(s) && Indexed(s.tables, s.keyed) && Filed(s, {})
    requires None in s.kids && Named(s.env, s.tables.groups, s.kids[None], s.info) && Prioritized(s, {})
    requires Typed(s.env, s.info, s.links.parent, s.tables.cache, s.connected) && TotalPreorder(s.env)
    ensures Valid(s)
  {
    hide Linked, Placed, Sized, Indexed, Filed, Named, Prioritized, Typed, TotalPreorder;
    assert NOTHING.adrift + NOTHING.unfiled == {};
  }

  /** A contact with buddies, and any contact listed, stands in a group. */
  lemma ContactStands(s: State, x: Excuse, c: Node)
    requires Sound(s, x) && c in s.info && s.info[c].Contact? && c in s.links.parent
    requires s.links.parent[c].Some? && c !in x.adrift
    ensures var g := s.links.parent[c].value; Siting(s, x.adrift, c, g) && c != g && Live(s.links, c)
  {
    hide Linked, Sized, Indexed, Filed, Named, Prioritized, Typed, TotalPreorder, Spelled, Childless;
    Soundly(s, x);
    StandsAt(s.links, s.kids, s.info, x.adrift, c);
    var g := s.links.parent[c].value;
    ChildOf(s.links, s.kids, s.info, x.adrift, Some(g), c);
    StandsAt(s.links, s.kids, s.info, x.adrift, g);
  }

  lemma BuddyStands(s: State, x: Excuse, b: Node)
    requires Sound(s, x) && b in s.info && s.info[b].Buddy? && b in s.links.parent
    requires s.links.parent[b].Some? && b !in x.adrift
    ensures var c := s.links.parent[b].value;
            && c in s.links.parent && c !in x.adrift && s.links.parent[c].Some?
            && BuddyAt(s, b, c, s.links.parent[c].value)
            && Live(s.links, b) && Some(b) in s.kids && s.kids[Some(b)] == []
  {
    hide Linked, Sized, Indexed, Filed, Named, Prioritized, Typed, TotalPreorder, Spelled;
    Soundly(s, x);
    StandsAt(s.links, s.kids, s.info, x.adrift, b);
    var c := s.links.parent[b].value;
    ChildOf(s.links, s.kids, s.info, x.adrift, Some(c), b);
    StandsAt(s.links, s.kids, s.info, x.adrift, c);
    assert c !in x.adrift;
    var g := s.links.parent[c].value;
    ChildOf(s.links, s.kids, s.info, x.adrift, Some(g), c);
    StandsAt(s.links, s.kids, s.info, x.adrift, g);
  }

  // ---------------------------------------------------- a buddy leaves its contact

  /** The buddy is out of its contact's list; `keep` says whether a valid priority stays valid. */
  function Departed(s: State, b: Node, c: Node, g: Node, keep: bool): State
    requires Live(s.links, b) && HasHead(s.links, s.links.parent[b]) && Some(c) in s.linked && Some(c) in s.kids
    requires HasSizes(s.sizes, c) && HasSizes(s.sizes, g)
  {
    AfterBuddyOut(s, b, c, g).(
      links := Unlinked(s.links, b),
      linked := s.linked[Some(c) := Without(s.linked[Some(c)], b)],
      priorities := if keep then s.priorities else s.priorities.(valid := s.priorities.valid[c := false]))
  }

  /** The excuse for contact `c` if its priority was left valid although it may not be. */
  function Doomed(s: State, x: Excuse, b: Node, c: Node, keep: bool): Excuse {
    x.(adrift := x.adrift + {b},
       doomed := x.doomed + if keep && c in s.priorities.buddy && s.priorities.buddy[c] == Some(b) then {c} else {})
  }

  lemma DepartedLinks(s: State, x: Excuse, b: Node, c: Node, g: Node)
    requires Sound(s, x) && BuddyAt(s, b, c, g) && b !in x.adrift
    ensures Live(s.links, b) && HasHead(s.links, s.links.parent[b]) && Some(c) in s.linked
    ensures Linked(Unlinked(s.links, b), s.linked[Some(c) := Without(s.linked[Some(c)], b)])
    ensures SameParents(s.links, Unlinked(s.links, b), s.kids)
    ensures s.linked[Some(c)] == s.kids[Some(c)]
  {
    hide Placed, Sized, Indexed, Filed, Named, Prioritized, Typed, TotalPreorder, Childless, Without;
    Soundly(s, x);
    SpelledKids(s, x, c);
    hide Linked;
    UnlinkKeeps(s.links, s.linked, Some(c), b);
    UnlinkSameParents(s.links, s.linked, s.kids, Some(c), b);
  }

  /** The sibling pointers spell the buddies of a contact in any case. */
  lemma SpelledKids(s: State, x: Excuse, c: Node)
    requires Sound(s, x) && c in s.info && s.info[c].Contact? && Some(c) in s.kids
    ensures Some(c) in s.linked && s.linked[Some(c)] == s.kids[Some(c)]
    ensures None in s.linked && s.linked[None] == s.kids[None]
  {
    hide Linked, Sized, Indexed, Filed, Named, Prioritized, Typed, TotalPreorder, Childless, Without;
    Soundly(s, x);
    if x.afloat.Some? {
      var f := x.afloat.value;
      ChildOf(s.links, s.kids, s.info, x.adrift, s.links.parent[f], f);
      assert s.links.parent[f] != Some(c) && s.links.parent[f] != None;
    }
  }

  lemma FiledAt(s: State, but: set<Node>, b: Node)
    requires Filed(s, but)
    ensures BuddyFiled(s, but, b)
  {
    assert BuddyFiled(s, but, b);
  }

  lemma FiledSame(s: State, s': State, but: set<Node>, but': set<Node>)
    requires Filed(s, but) && but <= but'
    requires s'.env == s.env && s'.info == s.info && s'.links.parent == s.links.parent && s'.keyed == s.keyed
    ensures Filed(s', but')
  {
    forall b ensures BuddyFiled(s', but', b) {
      assert BuddyFiled(s, but, b);
    }
  }

  lemma DepartedPriority(s: State, x: Excuse, b: Node, c: Node, g: Node, keep: bool)
    requires Sound(s, x) && BuddyAt(s, b, c, g) && HasSizes(s.sizes, c) && HasSizes(s.sizes, g)
    requires Live(s.links, b) && HasHead(s.links, s.links.parent[b]) && Some(c) in s.linked
    ensures Prioritized(Departed(s, b, c, g, keep), Doomed(s, x, b, c, keep).doomed)
  {
    hide Linked, Sized, Indexed, Filed, Named, Typed, TotalPreorder, Spelled, Childless, Without, Unlinked, BuddyOut,
         IsBest;
    Soundly(s, x);
    BuddyKids(s, x.adrift, c);
    var s' := Departed(s, b, c, g, keep);
    forall d | d in s'.info && s'.info[d].Contact? && d !in Doomed(s, x, b, c, keep).doomed
      ensures ContactPrioritized(s', d)
    {
      assert ContactPrioritized(s, d);
      if d == c && s'.priorities.valid[c] {
        BestWithout(s.env, s.info, s.connected, s.kids[Some(c)], b, s.priorities.buddy[c]);
      }
    }
  }

  lemma DepartedSound(s: State, x: Excuse, b: Node, c: Node, g: Node, keep: bool)
    requires Sound(s, x) && BuddyAt(s, b, c, g) && b !in x.adrift
    ensures HasSizes(s.sizes, c) && HasSizes(s.sizes, g)
    ensures Live(s.links, b) && HasHead(s.links, s.links.parent[b]) && Some(c) in s.linked
    ensures Sound(Departed(s, b, c, g, keep), Doomed(s, x, b, c, keep))
  {
    hide Linked, Placed, Sized, Indexed, Filed, Named, Prioritized, Typed, TotalPreorder, Without, Unlinked,
         AfterBuddyOut;
    Soundly(s, x);
    DepartedLinks(s, x, b, c, g);
    SizedHas(s, c);
    SizedHas(s, g);
    var s', x' := Departed(s, b, c, g, keep), Doomed(s, x, b, c, keep);
    BuddyOutSized(s, x.adrift, b, c, g);
    DepartedFields(s, b, c, g, keep);
    SizedSame(AfterBuddyOut(s, b, c, g), s');
    Departs(s.links, s.kids, s.info, x.adrift, Some(c), b, Unlinked(s.links, b));
    FiledSame(s, s', x.adrift + x.unfiled, x'.adrift + x'.unfiled);
    DepartedPriority(s, x, b, c, g, keep);
    DepartedSpelled(s, x, b, c, g, keep);
  }

  lemma DepartedFields(s: State, b: Node, c: Node, g: Node, keep: bool)
    requires Live(s.links, b) && HasHead(s.links, s.links.parent[b]) && Some(c) in s.linked && Some(c) in s.kids
    requires HasSizes(s.sizes, c) && HasSizes(s.sizes, g)
    ensures var s' := Departed(s, b, c, g, keep);
            && s'.env == s.env && s'.info == s.info && s'.connected == s.connected && s'.drift == s.drift
            && s'.tables == s.tables && s'.keyed == s.keyed
            && s'.links == Unlinked(s.links, b) && s'.linked == s.linked[Some(c) := Without(s.linked[Some(c)], b)]
            && s'.kids == s.kids[Some(c) := Without(s.kids[Some(c)], b)]
            && s'.sizes == AfterBuddyOut(s, b, c, g).sizes && s'.kids == AfterBuddyOut(s, b, c, g).kids
            && AfterBuddyOut(s, b, c, g).info == s.info && AfterBuddyOut(s, b, c, g).connected == s.connected
            && AfterBuddyOut(s, b, c, g).env == s.env && AfterBuddyOut(s, b, c, g).drift == s.drift
  {
  }

  lemma SizedSame(s: State, s': State)
    requires Sized(s)
    requires s'.env == s.env && s'.info == s.info && s'.connected == s.connected && s'.drift == s.drift
    requires s'.kids == s.kids && s'.sizes == s.sizes
    ensures Sized(s')
  {
    forall c | c in s'.info && s'.info[c].Contact? ensures ContactSized(s', c) {
      assert ContactSized(s, c);
    }
    forall g | g in s'.info && s'.info[g].Group? ensures GroupSized(s', g) {
      assert GroupSized(s, g);
    }
  }

  /** The contact afloat and the group its parent field names. */
  lemma AfloatParent(s: State, x: Excuse)
    requires Sound(s, x) && x.afloat.Some?
    ensures var f := x.afloat.value;
            && f in s.info && s.info[f].Contact? && Live(s.links, f) && f !in x.adrift
            && s.links.parent[f].Some? && s.links.parent[f].value in s.info && s.info[s.links.parent[f].value].Group?
            && s.links.parent[f] in s.kids && f in s.kids[s.links.parent[f]]
            && s.linked == s.kids[s.links.parent[f] := Without(s.kids[s.links.parent[f]], f)] && Outside(s.links, f)
  {
    hide Linked, Sized, Indexed, Filed, Named, Prioritized, Typed, TotalPreorder, Childless, Without, Outside;
    Soundly(s, x);
    var f := x.afloat.value;
    ChildOf(s.links, s.kids, s.info, x.adrift, s.links.parent[f], f);
  }

  lemma DepartedSpelled(s: State, x: Excuse, b: Node, c: Node, g: Node, keep: bool)
    requires Sound(s, x) && BuddyAt(s, b, c, g) && b !in x.adrift && HasSizes(s.sizes, c) && HasSizes(s.sizes, g)
    requires Live(s.links, b) && HasHead(s.links, s.links.parent[b]) && Some(c) in s.linked
    ensures Spelled(Departed(s, b, c, g, keep), x.afloat)
    ensures Childless(Departed(s, b, c, g, keep).kids, x.adrift + {b})
  {
    hide Linked, Placed, Sized, Indexed, Filed, Named, Prioritized, Typed, TotalPreorder, Without, Unlinked, Outside;
    Soundly(s, x);
    BuddyStands(s, x, b);
    SpelledKids(s, x, c);
    DepartedFields(s, b, c, g, keep);
    hide Departed;
    assert Without([], b) == [] by { WithoutAbsent([], b); }
    if x.afloat.Some? {
      AfloatParent(s, x);
      var f := x.afloat.value;
      assert Some(c) != s.links.parent[f];
      UnlinkedParents(s.links, b);
      OutsideStays(s, x, b, c, f);
    }
  }

  lemma UnlinkedParents(l: Links, n: Node)
    requires Live(l, n) && HasHead(l, l.parent[n])
    ensures Unlinked(l, n).parent == l.parent
    ensures forall m :: Live(l, m) ==> Live(Unlinked(l, n), m)
  {
  }

  /** Unlinking a buddy does not reach the neighbours of the contact afloat. */
  lemma OutsideStays(s: State, x: Excuse, b: Node, c: Node, f: Node)
    requires Sound(s, x) && x.afloat == Some(f) && b in s.info && s.info[b].Buddy? && Some(c) in s.linked
    requires c in s.info && s.info[c].Contact? && b in s.linked[Some(c)]
    ensures Live(s.links, b) && HasHead(s.links, s.links.parent[b]) && Live(s.links, f)
    ensures Live(Unlinked(s.links, b), f) && Outside(Unlinked(s.links, b), f)
  {
    hide Placed, Sized, Indexed, Filed, Named, Prioritized, Typed, TotalPreorder, Without, Chain, Childless, Unlinked;
    Soundly(s, x);
    AfloatParent(s, x);
    Neighbours(s.links, s.linked, Some(c), b);
    var l := s.links;
    UnlinkedFields(l, b, f, l.parent[f]);
    if l.prev[f].Some? {
      UnlinkedFields(l, b, l.prev[f].value, l.parent[f]);
    }
    if l.next[f].Some? {
      UnlinkedFields(l, b, l.next[f].value, l.parent[f]);
    }
  }

  // ------------------------------------------------------- table entries

  /** Both buddy tables lose the entry under `k`, which was `b`'s if it had one. */
  function Unfiled(s: State, b: Node, k: Key): State
    requires k.account in s.tables.cache
  {
    s.(tables := Remove(s.tables, k), keyed := s.keyed - {b})
  }

  /** `k` is where `b` is filed; or `b` is not filed and nobody is filed there. */
  ghost predicate Files(s: State, b: Node, k: Key) {
    k.account in s.tables.cache && (if b in s.keyed then s.keyed[b] == k else k !in s.tables.buddies)
  }

  lemma UnfiledSound(s: State, x: Excuse, b: Node, k: Key)
    requires Sound(s, x) && b in x.adrift + x.unfiled && Files(s, b, k)
    ensures Sound(Unfiled(s, b, k), x)
  {
    hide Linked, Placed, Indexed, Named, Typed, TotalPreorder, Without, IsBest, Spelled, Childless, Filed, Prioritized,
         Sized;
    Soundly(s, x);
    var s' := Unfiled(s, b, k);
    if b in s.keyed {
      RemoveIndexed(s.tables, s.keyed, b);
    } else {
      RemoveAbsent(s.tables, s.keyed, k);
      assert s.keyed - {b} == s.keyed;
    }
    UnfiledFields(s, b, k);
    SizedSame(s, s');
    UnfiledFiled(s, x.adrift + x.unfiled, b, k);
    PrioritizedSame(s, s', x.doomed, x.doomed);
    SpelledSame(s, s', x.afloat);
  }

  lemma UnfiledFiled(s: State, but: set<Node>, b: Node, k: Key)
    requires Filed(s, but) && b in but && k.account in s.tables.cache
    ensures Filed(Unfiled(s, b, k), but)
  {
    forall d ensures BuddyFiled(Unfiled(s, b, k), but, d) {
      assert BuddyFiled(s, but, d);
    }
  }

  lemma UnfiledFields(s: State, b: Node, k: Key)
    requires k.account in s.tables.cache
    ensures var s' := Unfiled(s, b, k);
            s'.tables.groups == s.tables.groups && s'.tables.cache.Keys == s.tables.cache.Keys
    ensures Typed(s.env, s.info, s.links.parent, s.tables.cache, s.connected) ==>
              Typed(s.env, s.info, s.links.parent, Remove(s.tables, k).cache, s.connected)
  {
  }

  lemma PrioritizedSame(s: State, s': State, but: set<Node>, but': set<Node>)
    requires Prioritized(s, but) && but <= but'
    requires s'.env == s.env && s'.info == s.info && s'.connected == s.connected && s'.priorities == s.priorities
    requires forall c :: c in s.info && s.info[c].Contact? && Some(c) in s.kids ==>
               Some(c) in s'.kids && s'.kids[Some(c)] == s.kids[Some(c)]
    ensures Prioritized(s', but')
  {
    hide IsBest;
    forall c | c in s'.info && s'.info[c].Contact? && c !in but' ensures ContactPrioritized(s', c) {
      assert ContactPrioritized(s, c);
    }
  }

  lemma SpelledSame(s: State, s': State, afloat: Ptr)
    requires Spelled(s, afloat)
    requires s'.links == s.links && s'.kids == s.kids && s'.linked == s.linked && s'.info == s.info
    ensures Spelled(s', afloat)
  {
  }

  /** `b` is filed under its key in both buddy tables. */
  function Entered(s: State, b: Node, k: Key): State
    requires k.account in s.tables.cache
  {
    s.(tables := Insert(s.tables, k, b), keyed := s.keyed[b := k])
  }

  lemma EnteredSound(s: State, x: Excuse, b: Node)
    requires Sound(s, x) && b in s.info && s.info[b].Buddy? && b !in x.adrift && b in s.links.parent
    requires s.links.parent[b].Some?
    requires Attached(s.links, s.info, b) && KeyOf(s.env, s.links, s.info, b).account in s.tables.cache
    requires var k := KeyOf(s.env, s.links, s.info, b); if b in s.keyed then s.keyed[b] == k else k !in s.tables.buddies
    ensures var k := KeyOf(s.env, s.links, s.info, b);
            Sound(Entered(s, b, k), x.(unfiled := x.unfiled - {b}))
  {
    hide Linked, Placed, Indexed, Named, Typed, TotalPreorder, Without, IsBest, Spelled, Childless, Filed, Prioritized,
         Sized;
    Soundly(s, x);
    var k := KeyOf(s.env, s.links, s.info, b);
    var s' := Entered(s, b, k);
    if b in s.keyed {
      InsertPresent(s.tables, s.keyed, k, b);
      assert s.keyed[b := k] == s.keyed;
    } else {
      InsertIndexed(s.tables, s.keyed, k, b);
    }
    EnteredFields(s, b, k);
    SizedSame(s, s');
    EnteredFiled(s, x, b);
    PrioritizedSame(s, s', x.doomed, x.doomed);
    SpelledSame(s, s', x.afloat);
  }

  lemma InsertPresent(t: Tables, keyed: map<Node, Key>, k: Key, b: Node)
    requires Indexed(t, keyed) && b in keyed && keyed[b] == k
    ensures k.account in t.cache && Insert(t, k, b) == t
  {
    assert t.buddies[k := b] == t.buddies;
    assert t.cache[k.account] == OfAccount(t.buddies, k.account);
    assert t.cache[k.account][k := b] == t.cache[k.account];
    assert t.cache[k.account := t.cache[k.account]] == t.cache;
  }

  lemma EnteredFiled(s: State, x: Excuse, b: Node)
    requires Filed(s, x.adrift + x.unfiled) && b !in x.adrift && Attached(s.links, s.info, b)
    requires KeyOf(s.env, s.links, s.info, b).account in s.tables.cache
    ensures Filed(Entered(s, b, KeyOf(s.env, s.links, s.info, b)), x.adrift + (x.unfiled - {b}))
  {
    forall d ensures BuddyFiled(Entered(s, b, KeyOf(s.env, s.links, s.info, b)), x.adrift + (x.unfiled - {b}), d) {
      assert BuddyFiled(s, x.adrift + x.unfiled, d);
    }
  }

  lemma EnteredFields(s: State, b: Node, k: Key)
    requires k.account in s.tables.cache
    ensures var s' := Entered(s, b, k);
            s'.tables.groups == s.tables.groups && s'.tables.cache.Keys == s.tables.cache.Keys
    ensures Typed(s.env, s.info, s.links.parent, s.tables.cache, s.connected) ==>
              Typed(s.env, s.info, s.links.parent, Insert(s.tables, k, b).cache, s.connected)
  {
  }

  // ---------------------------------------------------- nodes are freed

  /** `n` is not the contact afloat nor has its parent. */
  ghost predicate NotBeside(s: State, x: Excuse, n: Node) {
    x.afloat.Some? ==> n in s.links.parent && x.afloat.value in s.links.parent
                       && n != x.afloat.value && s.links.parent[n] != s.links.parent[x.afloat.value]
  }

  /** The store forgets node `n`. */
  function Vanished(s: State, n: Node): State {
    s.(links := Freed(s.links, n), kids := Less(s.kids, Some(n)), linked := Less(s.linked, Some(n)),
       info := Less(s.info, n),
       sizes := Forgotten(s.sizes, n), drift := Less(s.drift, n),
       priorities := Priorities(Less(s.priorities.buddy, n), Less(s.priorities.valid, n)))
  }

  lemma VanishedSound(s: State, x: Excuse, n: Node)
    requires Sound(s, x) && n in x.adrift && n in s.info && n !in s.keyed && NotBeside(s, x, n)
    ensures Sound(Vanished(s, n), x.(adrift := x.adrift - {n}, doomed := x.doomed - {n}))
  {
    hide Linked, Placed, Indexed, Named, Typed, TotalPreorder, Without, IsBest, Spelled, Filed, Prioritized, Sized;
    Soundly(s, x);
    var s' := Vanished(s, n);
    StandsAt(s.links, s.kids, s.info, x.adrift, n);
    NotListed(s.links, s.kids, s.info, x.adrift, n, None);
    VanishedUnlisted(s, x, n);
    FreeKeeps(s.links, s.linked, n);
    Vanishes(s.links, s.kids, s.info, x.adrift, n);
    VanishSized(s, x.adrift, n);
    SizedSame(s.(info := s.info - {n}, kids := s.kids - {Some(n)}, sizes := Forgotten(s.sizes, n),
                 drift := s.drift - {n}), s');
    VanishedSpelled(s, x, n);
    VanishedFiled(s, x, n);
    VanishedPriority(s, x, n);
    NamedSame(s.env, s.tables.groups, s.kids[None], s.kids[None], s.info, s'.info);
    TypedLess(s.env, s.info, s.links.parent, n, s.tables.cache, s.connected);
  }

  lemma TypedLess(env: Env, info: map<Node, Info>, parent: map<Node, Ptr>, n: Node, cache: map<Account, map<Key, Node>>,
                  connected: set<Account>)
    requires Typed(env, info, parent, cache, connected)
    ensures Typed(env, info - {n}, parent - {n}, cache, connected)
  {
  }

  lemma VanishedUnlisted(s: State, x: Excuse, n: Node)
    requires Sound(s, x) && n in x.adrift
    ensures Unlisted(s.linked, n)
  {
    hide Linked, Sized, Indexed, Filed, Named, Prioritized, Typed, TotalPreorder, Childless, Without;
    Soundly(s, x);
    forall q | q in s.linked ensures n !in s.linked[q] {
      if x.afloat.Some? {
        AfloatParent(s, x);
        var p := s.links.parent[x.afloat.value];
        KidsDistinct(s.links, s.kids, s.info, x.adrift, p);
        WithoutKeeps(s.kids[p], x.afloat.value);
      }
      NotListed(s.links, s.kids, s.info, x.adrift, n, q);
    }
  }

  lemma VanishedFields(s: State, n: Node)
    ensures var s' := Vanished(s, n);
            && s'.links == Freed(s.links, n) && s'.kids == s.kids - {Some(n)} && s'.linked == s.linked - {Some(n)}
            && s'.info == s.info - {n} && s'.env == s.env && s'.keyed == s.keyed && s'.connected == s.connected
            && s'.tables == s.tables && s'.sizes == Forgotten(s.sizes, n) && s'.drift == s.drift - {n}
            && s'.priorities == Priorities(s.priorities.buddy - {n}, s.priorities.valid - {n})
  {
  }

  lemma UpdateLess<K, V>(m: map<K, V>, k: K, v: V, gone: K)
    requires k in m && k != gone
    ensures m[k := v] - {gone} == (m - {gone})[k := v]
  {
  }

  lemma VanishedSpelled(s: State, x: Excuse, n: Node)
    requires Sound(s, x) && n in x.adrift && n in s.info && NotBeside(s, x, n)
    ensures Spelled(Vanished(s, n), x.afloat)
  {
    hide Linked, Placed, Sized, Indexed, Filed, Named, Prioritized, Typed, TotalPreorder, Without, Outside, Vanished;
    Soundly(s, x);
    VanishedFields(s, n);
    if x.afloat.Some? {
      AfloatParent(s, x);
      var f := x.afloat.value;
      OutsideFree(s, x, n, f);
      var p := s.links.parent[f];
      StandsAt(s.links, s.kids, s.info, x.adrift, n);
      assert p != Some(n);
      UpdateLess(s.kids, p, Without(s.kids[p], f), Some(n));
    }
  }

  lemma OutsideFree(s: State, x: Excuse, n: Node, f: Node)
    requires Sound(s, x) && n in x.adrift && n in s.info && x.afloat == Some(f) && NotBeside(s, x, n)
    ensures Live(s.links, f) && Live(Freed(s.links, n), f) && Outside(Freed(s.links, n), f)
  {
    hide Linked, Placed, Sized, Indexed, Filed, Named, Prioritized, Typed, TotalPreorder, Without, Outside;
    Soundly(s, x);
    AfloatParent(s, x);
    StandsAt(s.links, s.kids, s.info, x.adrift, n);
    assert s.links.parent[f] != Some(n);
    FreedOutside(s.links, n, f);
  }

  lemma FreedOutside(l: Links, n: Node, f: Node)
    requires Live(l, n) && Live(l, f) && Outside(l, f) && n != f && l.parent[n] != l.parent[f] && l.parent[f] != Some(n)
    ensures Live(Freed(l, n), f) && Outside(Freed(l, n), f)
  {
  }

  lemma VanishedKey(env: Env, l: Links, info: map<Node, Info>, n: Node, b: Node, c: Node, g: Node)
    requires b in info && info[b].Buddy? && b in l.parent && l.parent[b] == Some(c) && c in l.parent
    requires l.parent[c] == Some(g)
    requires n != b && n != c
    ensures Attached(l, info, b) && Attached(Freed(l, n), info - {n}, b)
    ensures KeyOf(env, Freed(l, n), info - {n}, b) == KeyOf(env, l, info, b)
  {
  }

  lemma VanishedBuddy(s: State, x: Excuse, n: Node, b: Node)
    requires Sound(s, x) && n in x.adrift && n in s.info && n !in s.keyed
    ensures BuddyFiled(Vanished(s, n), (x.adrift - {n}) + x.unfiled, b)
  {
    hide Linked, Placed, Sized, Indexed, Filed, Named, Prioritized, Typed, TotalPreorder, Without, Spelled, Vanished,
         Childless;
    Soundly(s, x);
    VanishedFields(s, n);
    FiledAt(s, x.adrift + x.unfiled, b);
    if b != n && b in s.info && s.info[b].Buddy? && b !in x.adrift && b in s.links.parent && s.links.parent[b].Some? {
      hide Freed, Attached, KeyOf;
      BuddyStands(s, x, b);
      StandsAt(s.links, s.kids, s.info, x.adrift, n);
      ChildlessAt(s.kids, x.adrift, n);
      var c := s.links.parent[b].value;
      assert c != n;
      VanishedKey(s.env, s.links, s.info, n, b, c, s.links.parent[c].value);
    } else {
      hide KeyOf;
    }
  }

  lemma ChildlessAt(kids: Lists, adrift: set<Node>, n: Node)
    requires Childless(kids, adrift) && n in adrift && Some(n) in kids
    ensures kids[Some(n)] == []
  {
  }

  lemma VanishedFiled(s: State, x: Excuse, n: Node)
    requires Sound(s, x) && n in x.adrift && n in s.info && n !in s.keyed
    ensures Filed(Vanished(s, n), (x.adrift - {n}) + x.unfiled)
  {
    hide Sound, BuddyFiled, Vanished;
    forall b ensures BuddyFiled(Vanished(s, n), (x.adrift - {n}) + x.unfiled, b) {
      VanishedBuddy(s, x, n, b);
    }
  }

  lemma FiledBy(s: State, but: set<Node>)
    requires forall b :: BuddyFiled(s, but, b)
    ensures Filed(s, but)
  {
  }

  lemma VanishedPriority(s: State, x: Excuse, n: Node)
    requires Sound(s, x) && n in x.adrift && n in s.info
    ensures Prioritized(Vanished(s, n), x.doomed - {n})
  {
    hide Linked, Sized, Indexed, Named, Filed, Typed, TotalPreorder, Without, Placed, Spelled, IsBest;
    Soundly(s, x);
    var s' := Vanished(s, n);
    forall c | c in s'.info && s'.info[c].Contact? && c !in x.doomed - {n} ensures ContactPrioritized(s', c) {
      assert ContactPrioritized(s, c);
      NotListed(s.links, s.kids, s.info, x.adrift, n, Some(c));
      BuddyKids(s, x.adrift, c);
      if s'.priorities.valid[c] {
        BestSame(s.env, s.info, s'.info, s.connected, s.connected, s.kids[Some(c)], s.priorities.buddy[c]);
      }
    }
  }

  // ------------------------------------------------ an emptied contact goes

  /** The childless contact `c` is out of its group's list; the group's total does not follow. */
  function Emptied(s: State, c: Node, g: Node): State
    requires Live(s.links, c) && HasHead(s.links, s.links.parent[c]) && Some(g) in s.linked && Some(g) in s.kids
    requires g in s.drift
  {
    s.(links := Unlinked(s.links, c),
       linked := s.linked[Some(g) := Without(s.linked[Some(g)], c)],
       kids := s.kids[Some(g) := Without(s.kids[Some(g)], c)],
       drift := s.drift[g := s.drift[g] + 1])
  }

  lemma EmptiedLinks(s: State, x: Excuse, c: Node, g: Node)
    requires Sound(s, x) && Siting(s, x.adrift, c, g) && c in s.links.parent && s.links.parent[c] == Some(g)
    requires x.afloat == None || x.afloat == Some(c)
    ensures Live(s.links, c) && HasHead(s.links, Some(g)) && Some(g) in s.linked
    ensures var l', linked' := Unlinked(s.links, c), s.linked[Some(g) := Without(s.linked[Some(g)], c)];
            && Linked(l', linked') && SameParents(s.links, l', s.kids)
            && linked' == s.kids[Some(g) := Without(s.kids[Some(g)], c)]
  {
    hide Linked, Sized, Indexed, Filed, Named, Prioritized, Typed, TotalPreorder, Childless, Without, Placed, Outside;
    Soundly(s, x);
    if x.afloat == None {
      UnlinkKeeps(s.links, s.linked, Some(g), c);
      UnlinkSameParents(s.links, s.linked, s.kids, Some(g), c);
    } else {
      AfloatParent(s, x);
      UnlinkTwice(s.links, c);
      KidsDistinct(s.links, s.kids, s.info, x.adrift, Some(g));
      WithoutKeeps(s.kids[Some(g)], c);
      WithoutAbsent(s.linked[Some(g)], c);
      assert s.linked[Some(g) := s.linked[Some(g)]] == s.linked;
    }
  }

  lemma EmptiedSound(s: State, x: Excuse, c: Node, g: Node)
    requires Sound(s, x) && Siting(s, x.adrift, c, g) && c in s.links.parent && s.links.parent[c] == Some(g)
    requires (x.afloat == None || x.afloat == Some(c)) && s.kids[Some(c)] == [] && c !in x.adrift
    ensures Live(s.links, c) && HasHead(s.links, Some(g)) && Some(g) in s.linked && g in s.drift
    ensures Sound(Emptied(s, c, g), x.(adrift := x.adrift + {c}, afloat := None))
  {
    hide Linked, Sized, Indexed, Filed, Named, Prioritized, Typed, TotalPreorder, Without, Placed, Outside, IsBest,
         Unlinked, SameParents;
    Soundly(s, x);
    EmptiedLinks(s, x, c, g);
    EmptyOutSized(s, x.adrift, c, g);
    var s', x' := Emptied(s, c, g), x.(adrift := x.adrift + {c}, afloat := None);
    SizedSame(s.(kids := s.kids[Some(g) := Without(s.kids[Some(g)], c)], drift := s.drift[g := s.drift[g] + 1]), s');
    Departs(s.links, s.kids, s.info, x.adrift, Some(g), c, Unlinked(s.links, c));
    UnlinkedParents(s.links, c);
    FiledSame(s, s', x.adrift + x.unfiled, x'.adrift + x'.unfiled);
    PrioritizedSame(s, s', x.doomed, x'.doomed);
    assert Without([], c) == [] by { WithoutAbsent([], c); }
  }

  // ------------------------------------------------ what the pointers lead to

  /** The child pointer of a contact or group names the first of its children. */
  lemma HeadIsFirst(s: State, x: Excuse, c: Node)
    requires Sound(s, x) && c in s.info && s.info[c].Contact? && Some(c) in s.kids
    ensures c in s.links.child && s.links.child[c] == First(s.kids[Some(c)])
  {
    hide Sized, Indexed, Filed, Named, Prioritized, Typed, TotalPreorder, Placed, Spelled, Chain;
    Soundly(s, x);
    SpelledKids(s, x, c);
    ChainDup(s.links, Some(c), s.linked[Some(c)]);
  }

  /** Unlinking a listed node writes to live nodes only. */
  lemma BuddyNeighbours(s: State, x: Excuse, b: Node, c: Node)
    requires Sound(s, x) && c in s.info && s.info[c].Contact? && Some(c) in s.kids && b in s.kids[Some(c)]
    ensures Live(s.links, b) && s.links.parent[b] == Some(c) && HasHead(s.links, Some(c))
    ensures s.links.prev[b].Some? ==> s.links.prev[b].value in s.links.next
    ensures s.links.next[b].Some? ==> s.links.next[b].value in s.links.prev
  {
    hide Sized, Indexed, Filed, Named, Prioritized, Typed, TotalPreorder, Placed, Spelled, Chain;
    Soundly(s, x);
    SpelledKids(s, x, c);
    Neighbours(s.links, s.linked, Some(c), b);
  }

  lemma ContactNeighbours(s: State, x: Excuse, c: Node, g: Node)
    requires Sound(s, x) && Siting(s, x.adrift, c, g) && c in s.links.parent && s.links.parent[c] == Some(g)
    requires x.afloat == None || x.afloat == Some(c)
    ensures Live(s.links, c) && HasHead(s.links, Some(g)) && Some(g) in s.linked
    ensures s.links.prev[c].Some? ==> s.links.prev[c].value in s.links.next
    ensures s.links.next[c].Some? ==> s.links.next[c].value in s.links.prev
  {
    hide Sized, Indexed, Filed, Named, Prioritized, Typed, TotalPreorder, Placed, Chain, Linked;
    Soundly(s, x);
    EmptiedLinks(s, x, c, g);
    if x.afloat == None {
      Neighbours(s.links, s.linked, Some(g), c);
    }
  }

  // ------------------------------------------------------ a buddy is removed

  /** The children lists after buddy `b` of contact `c` of group `g` is gone, and with it a contact it leaves empty. */
  function KidsDropped(kids: Lists, b: Node, c: Node, g: Node): Lists
    requires Some(c) in kids && Some(g) in kids && b != g && c != g
  {
    var rest := Without(kids[Some(c)], b);
    var kids1 := Less(kids[Some(c) := rest], Some(b));
    if rest == [] then Less(kids1[Some(g) := Without(kids1[Some(g)], c)], Some(c)) else kids1
  }

  /** Only buddies are filed. */
  lemma NotFiled(s: State, x: Excuse, n: Node)
    requires Sound(s, x) && n in s.info && !s.info[n].Buddy?
    ensures n !in s.keyed
  {
    hide Sized, Indexed, Filed, Named, Prioritized, Typed, TotalPreorder, Placed, Spelled, Linked;
    Soundly(s, x);
    FiledAt(s, x.adrift + x.unfiled, n);
  }

  lemma ContactHasPriority(s: State, x: Excuse, c: Node)
    requires Sound(s, x) && c in s.info && s.info[c].Contact? && c !in x.doomed
    ensures c in s.priorities.buddy && c in s.priorities.valid
  {
    hide Sized, Indexed, Filed, Named, Typed, TotalPreorder, Placed, Spelled, Linked, IsBest;
    Soundly(s, x);
    assert ContactPrioritized(s, c);
  }

  /** After the unlinking the child pointer tells whether the contact is empty. */
  lemma TakenHead(s: State, x: Excuse, b: Node, c: Node, g: Node)
    requires Sound(s, x) && BuddyAt(s, b, c, g) && b !in x.adrift
    ensures Live(s.links, b) && HasHead(s.links, s.links.parent[b])
    ensures c in Unlinked(s.links, b).child && Unlinked(s.links, b).child[c] == First(Without(s.kids[Some(c)], b))
  {
    hide Sized, Indexed, Filed, Named, Prioritized, Typed, TotalPreorder, Placed, Spelled, Linked, Without, Unlinked,
         Sound;
    DepartedSound(s, x, b, c, g, true);
    DepartedFields(s, b, c, g, true);
    var s' := Departed(s, b, c, g, true);
    hide Departed;
    HeadIsFirst(s', Doomed(s, x, b, c, true), c);
  }

  lemma StillNothing(b: Node)
    ensures NOTHING.(unfiled := NOTHING.unfiled - {b}) == NOTHING
    ensures NOTHING.(unfiled := NOTHING.unfiled - {b}, afloat := None) == NOTHING
  {
    assert {} - {b} == {};
  }

  /** A buddy that is not in transition is filed under its key. */
  lemma FiledUnder(s: State, x: Excuse, b: Node, c: Node, g: Node)
    requires Sound(s, x) && BuddyAt(s, b, c, g) && b !in x.adrift
    ensures s.info[b].account in s.tables.cache
    ensures b !in x.unfiled ==>
              Files(s, b, Key(s.env.normalize(s.info[b].account, s.info[b].name), s.info[b].account, g)) && b in s.keyed
  {
    hide Sized, Indexed, Filed, Named, Prioritized, TotalPreorder, Placed, Spelled, Linked;
    Soundly(s, x);
    FiledAt(s, x.adrift + x.unfiled, b);
    TypedAt(s, x, b);
  }

  lemma TypedMoved(s: State, n: Node, q: Ptr)
    requires Typed(s.env, s.info, s.links.parent, s.tables.cache, s.connected) && q.Some?
    ensures Typed(s.env, s.info, s.links.parent[n := q], s.tables.cache, s.connected)
  {
  }

  lemma TypedAt(s: State, x: Excuse, n: Node)
    requires Sound(s, x) && n in s.info
    ensures s.info[n].Buddy? ==> s.info[n].name != "" && s.info[n].account in s.tables.cache
    ensures s.info[n].Buddy? && s.env.isOnline(s.info[n].presence) ==> s.info[n].account in s.connected
    ensures s.info[n].Group? ==> s.info[n].name != ""
  {
    hide Sized, Indexed, Filed, Named, Prioritized, TotalPreorder, Placed, Spelled, Linked;
    Soundly(s, x);
  }

  lemma GroupDrift(s: State, x: Excuse, g: Node)
    requires Sound(s, x) && g in s.info && s.info[g].Group?
    ensures g in s.drift && HasSizes(s.sizes, g) && Some(g) in s.kids
  {
    hide Indexed, Filed, Named, Prioritized, TotalPreorder, Placed, Spelled, Linked;
    Soundly(s, x);
    SizedHas(s, g);
  }

  /** Between `s` and `s'` buddy `b` of contact `c` of group `g` was removed, the contact left even if empty. */
  ghost predicate Plucked(s: State, s': State, b: Node, c: Node, g: Node)
    requires BuddyAt(s, b, c, g)
  {
    && s'.kids == Less(s.kids[Some(c) := Without(s.kids[Some(c)], b)], Some(b))
    && s'.info == Less(s.info, b) && s'.links.parent == Less(s.links.parent, b) && s'.drift == Less(s.drift, b)
    && s'.tables.buddies
         == Less(s.tables.buddies, Key(s.env.normalize(s.info[b].account, s.info[b].name), s.info[b].account, g))
    && s'.tables.groups == s.tables.groups && s'.tables.cache.Keys == s.tables.cache.Keys
    && s'.keyed == s.keyed - {b}
    && s'.connected == s.connected && s'.env == s.env
  }

  /**
   Between `s` and `s'` buddy `b` of contact `c` of group `g` was removed, and the contact with it if it was the last.
  */
  ghost predicate Dropped(s: State, s': State, b: Node, c: Node, g: Node)
    requires BuddyAt(s, b, c, g) && g in s.drift
  {
    var last := Without(s.kids[Some(c)], b) == [];
    && s'.kids == KidsDropped(s.kids, b, c, g)
    && s'.info == (if last then Less(Less(s.info, b), c) else Less(s.info, b))
    && s'.links.parent == (if last then Less(Less(s.links.parent, b), c) else Less(s.links.parent, b))
    && s'.drift == (if last then Less(Less(s.drift, b)[g := s.drift[g] + 1], c) else Less(s.drift, b))
    && s'.tables.buddies
         == Less(s.tables.buddies, Key(s.env.normalize(s.info[b].account, s.info[b].name), s.info[b].account, g))
    && s'.tables.groups == s.tables.groups && s'.tables.cache.Keys == s.tables.cache.Keys
    && s'.keyed == s.keyed - {b}
    && s'.connected == s.connected && s'.env == s.env
  }

  /** What is left of the contact's surroundings once the buddy is plucked. */
  lemma PluckedRest(s: State, s': State, b: Node, c: Node, g: Node)
    requires BuddyAt(s, b, c, g) && Plucked(s, s', b, c, g) && g in s.drift
    ensures Some(c) in s'.kids && s'.kids[Some(c)] == Without(s.kids[Some(c)], b) && Some(g) in s'.kids
    ensures c in s'.info && s'.info[c].Contact? && c in s'.links.parent && s'.links.parent[c] == Some(g)
    ensures g in s'.drift && s'.drift[g] == s.drift[g]
    ensures Without(s.kids[Some(c)], b) != [] ==> Dropped(s, s', b, c, g)
  {
  }

  /** The contact goes too. */
  lemma PluckedLast(s: State, s1: State, s': State, b: Node, c: Node, g: Node)
    requires BuddyAt(s, b, c, g) && Plucked(s, s1, b, c, g) && g in s.drift && Without(s.kids[Some(c)], b) == []
    requires Some(g) in s1.kids && g in s1.drift
    requires s'.kids == Less(s1.kids[Some(g) := Without(s1.kids[Some(g)], c)], Some(c))
    requires s'.drift == Less(s1.drift[g := s1.drift[g] + 1], c)
    requires s'.info == Less(s1.info, c) && s'.links.parent == Less(s1.links.parent, c)
    requires s'.tables == s1.tables && s'.keyed == s1.keyed && s'.connected == s1.connected && s'.env == s1.env
    ensures Dropped(s, s', b, c, g)
  {
    PluckedRest(s, s1, b, c, g);
    hide Without, Less;
  }

  /** Excusing more is always right. */
  lemma LooserExcuse(s: State, x: Excuse, b: Node, doomed: set<Node>)
    requires Sound(s, x) && x.doomed <= doomed && x.adrift == {} && b !in s.keyed && b !in s.info
    ensures Sound(s, x.(doomed := doomed, unfiled := x.unfiled - {b}))
  {
    hide Sized, Indexed, Filed, Named, Typed, TotalPreorder, Placed, Spelled, Linked;
    Soundly(s, x);
    var but := x.adrift + (x.unfiled - {b});
    forall d ensures BuddyFiled(s, but, d) {
      FiledAt(s, x.adrift + x.unfiled, d);
    }
    FiledBy(s, but);
    forall c | c in s.info && s.info[c].Contact? && c !in doomed ensures ContactPrioritized(s, c) {
    }
  }

  // ---------------------------------------------------- many nodes removed

  /** The store without the nodes `gone`. */
  function Minus<V>(m: map<Node, V>, gone: set<Node>): map<Node, V> {
    m - gone
  }

  function KidsMinus(kids: Lists, gone: set<Node>): Lists {
    kids - (set n | n in gone :: Some(n))
  }

  function Elements(s: seq<Node>): set<Node> {
    set n | n in s
  }

  lemma MinusLess<V>(m: map<Node, V>, gone: set<Node>, n: Node)
    ensures Less(Minus(m, gone), n) == Minus(m, gone + {n})
  {
  }

  lemma MinusNone<V>(m: map<Node, V>)
    ensures Minus(m, {}) == m
  {
    assert m - {} == m;
  }

  lemma KidsMinusNone(kids: Lists)
    ensures KidsMinus(kids, {}) == kids
  {
    var none: set<Node> := {};
    assert (set n | n in none :: Some(n)) == {};
    assert kids - {} == kids;
  }

  lemma KidsMinusLess(kids: Lists, gone: set<Node>, n: Node)
    ensures Less(KidsMinus(kids, gone), Some(n)) == KidsMinus(kids, gone + {n})
  {
    assert (set m | m in gone + {n} :: Some(m)) == (set m | m in gone :: Some(m)) + {Some(n)};
  }

  lemma KidsMinusUpdate(kids: Lists, gone: set<Node>, c: Node, l: seq<Node>)
    requires c !in gone
    ensures KidsMinus(kids, gone)[Some(c) := l] == KidsMinus(kids[Some(c) := l], gone)
    ensures Some(c) in kids ==> Some(c) in KidsMinus(kids, gone) && KidsMinus(kids, gone)[Some(c)] == kids[Some(c)]
  {
  }

  /** After the first buddies of contact `c` are gone, one more goes. */
  lemma PruneMore(kids: Lists, gone: set<Node>, c: Node, l: seq<Node>)
    requires c !in gone && l != []
    ensures var k := KidsMinus(kids[Some(c) := l], gone);
            && Some(c) in k && k[Some(c)] == l
            && Less(k[Some(c) := Without(l, l[0])], Some(l[0])) == KidsMinus(kids[Some(c) := l[1..]], gone + {l[0]})
  {
    KidsMinusUpdate(kids[Some(c) := l], gone, c, l[1..]);
    assert kids[Some(c) := l][Some(c) := l[1..]] == kids[Some(c) := l[1..]];
    KidsMinusLess(kids[Some(c) := l[1..]], gone, l[0]);
  }

  /** The last buddy goes, and the contact with it. */
  lemma PruneLast(kids: Lists, gone: set<Node>, c: Node, g: Node, b: Node)
    requires c !in gone && g !in gone && g != c && b != g && b != c && Some(g) in kids
    ensures var k := KidsMinus(kids[Some(c) := [b]], gone);
            && Some(c) in k && Some(g) in k && k[Some(c)] == [b]
            && KidsDropped(k, b, c, g) == KidsMinus(kids[Some(g) := Without(kids[Some(g)], c)], gone + {b, c})
  {
    var k := KidsMinus(kids[Some(c) := [b]], gone);
    KidsMinusUpdate(kids[Some(c) := [b]], gone, c, []);
    KidsMinusUpdate(kids[Some(c) := [b]], gone, g, []);
    assert Without([b], b) == [];
    var k1 := Less(k[Some(c) := []], Some(b));
    assert k1[Some(g)] == kids[Some(g)];
    var l := Without(kids[Some(g)], c);
    hide Without;
    assert Less(k1[Some(g) := l], Some(c)) == KidsMinus(kids[Some(g) := l], gone + {b, c});
  }

  lemma OneGone<V, W>(kids: Lists, m: map<Node, V>, m': map<Node, W>, c: Node)
    ensures Less(kids, Some(c)) == KidsMinus(kids, {c}) && Less(m, c) == Minus(m, {c}) && Less(m', c) == Minus(m', {c})
  {
    KidsMinusNone(kids);
    KidsMinusLess(kids, {}, c);
    MinusNone(m);
    MinusLess(m, {}, c);
    MinusNone(m');
    MinusLess(m', {}, c);
    assert {} + {c} == {c};
  }

  /** A buddy without a parent is loose and not filed. */
  lemma LooseOutside(s: State, x: Excuse, b: Node)
    requires Sound(s, x) && b in s.info && s.info[b].Buddy? && b in s.links.parent && s.links.parent[b] == None
    requires b !in x.adrift && b !in x.unfiled
    ensures Loose(s.links, b) && None in s.kids && b !in s.kids[None] && b !in s.keyed
  {
    hide Sized, Indexed, Filed, Named, Typed, TotalPreorder, Placed, Spelled, Linked, Prioritized;
    Soundly(s, x);
    StandsAt(s.links, s.kids, s.info, x.adrift, b);
    FiledAt(s, x.adrift + x.unfiled, b);
    if b in s.kids[None] {
      ChildOf(s.links, s.kids, s.info, x.adrift, None, b);
    }
  }

  // ------------------------------------------- a contact's buddies, one by one

  /** Between `s` and `s'` the first `i` buddies `l` of contact `c` were removed. */
  ghost predicate Pruned(s: State, s': State, c: Node, l: seq<Node>, i: nat) {
    && i <= |l|
    && s'.kids == KidsMinus(s.kids[Some(c) := l[i..]], Elements(l[..i]))
    && s'.info == Minus(s.info, Elements(l[..i]))
    && s'.links.parent == Minus(s.links.parent, Elements(l[..i]))
    && s'.drift == Minus(s.drift, Elements(l[..i]))
    && s'.env == s.env && s'.connected == s.connected
  }

  lemma PrunedStart(s: State, c: Node)
    requires Some(c) in s.kids
    ensures Pruned(s, s, c, s.kids[Some(c)], 0)
  {
    var l := s.kids[Some(c)];
    assert l[0..] == l && l[..0] == [] && s.kids[Some(c) := l] == s.kids;
    assert Elements(l[..0]) == {};
    KidsMinusNone(s.kids);
    MinusNone(s.info);
    MinusNone(s.links.parent);
    MinusNone(s.drift);
  }

  lemma NextIs(s: State, c: Node, i: nat)
    requires Valid(s) && c in s.info && s.info[c].Contact? && Some(c) in s.kids && i < |s.kids[Some(c)]|
    ensures s.kids[Some(c)][i] in s.links.next && s.links.next[s.kids[Some(c)][i]] == After(s.kids[Some(c)], i)
  {
    hide Sized, Indexed, Filed, Named, Prioritized, Typed, TotalPreorder, Placed, Spelled, Chain;
    Soundly(s, NOTHING);
    SpelledKids(s, NOTHING, c);
    ChainAt(s.links, Some(c), s.linked[Some(c)], i);
  }

  lemma InElements(l: seq<Node>, n: Node)
    ensures n in Elements(l) <==> n in l
  {
  }

  lemma MinusAt<V>(m: map<Node, V>, gone: set<Node>, n: Node)
    ensures n in Minus(m, gone) <==> n in m && n !in gone
    ensures n in m && n !in gone ==> Minus(m, gone)[n] == m[n]
  {
  }

  lemma DistinctTail(l: seq<Node>, i: nat)
    requires NoDup(l) && i < |l|
    ensures l[i] !in l[..i] && l[i..][0] == l[i] && l[i..][1..] == l[i + 1..]
    ensures Elements(l[..i]) + {l[i]} == Elements(l[..i + 1])
  {
    assert l[..i + 1] == l[..i] + [l[i]];
  }

  /** The contact in the middle of it: it holds the rest of its buddies, and still stands in its group. */
  lemma PrunedStep(s: State, s': State, c: Node, g: Node, l: seq<Node>, i: nat)
    requires Valid(s) && Siting(s, {}, c, g) && c in s.links.parent && s.links.parent[c] == Some(g)
    requires s.kids[Some(c)] == l
    requires Valid(s') && Pruned(s, s', c, l, i) && i < |l|
    ensures Some(c) in s'.kids && s'.kids[Some(c)] == l[i..] && l[i] == l[i..][0]
    ensures c in s'.info && s'.info[c].Contact? && c in s'.links.parent && s'.links.parent[c] == Some(g)
    ensures l[i] in s'.info && s'.info[l[i]].Buddy? && l[i] in s'.links.parent && s'.links.parent[l[i]] == Some(c)
  {
    hide Sized, Indexed, Filed, Named, Prioritized, Typed, TotalPreorder, Placed, Spelled, Linked, Minus, KidsMinus,
         Elements;
    Soundly(s, NOTHING);
    BuddyKids(s, {}, c);
    DistinctTail(l, i);
    InElements(l[..i], c);
    InElements(l[..i], l[i]);
    assert c !in l[..i];
    KidsMinusUpdate(s.kids[Some(c) := l[i..]], Elements(l[..i]), c, []);
    MinusAt(s.info, Elements(l[..i]), c);
    MinusAt(s.info, Elements(l[..i]), l[i]);
    MinusAt(s.links.parent, Elements(l[..i]), c);
    MinusAt(s.links.parent, Elements(l[..i]), l[i]);
    ChildOf(s.links, s.kids, s.info, {}, Some(c), l[i]);
  }

  lemma PrunedNext(s: State, s1: State, s': State, c: Node, g: Node, l: seq<Node>, i: nat)
    requires Pruned(s, s1, c, l, i) && i + 1 < |l| && NoDup(l) && c !in l && g !in l
    requires BuddyAt(s1, l[i], c, g) && g in s1.drift && Dropped(s1, s', l[i], c, g)
    ensures Pruned(s, s', c, l, i + 1)
  {
    hide Minus, KidsMinus, Elements, Less, Without;
    DistinctTail(l, i);
    InElements(l[..i], c);
    PruneMore(s.kids, Elements(l[..i]), c, l[i..]);
    FirstOut(l[i..]);
    MinusLess(s.info, Elements(l[..i]), l[i]);
    MinusLess(s.links.parent, Elements(l[..i]), l[i]);
    MinusLess(s.drift, Elements(l[..i]), l[i]);
  }

  lemma FirstOut(l: seq<Node>)
    requires l != []
    ensures Without(l, l[0]) == l[1..]
  {
  }

  lemma PrunedAll(s: State, s1: State, s': State, c: Node, g: Node, l: seq<Node>)
    requires l != [] && Pruned(s, s1, c, l, |l| - 1) && NoDup(l) && c !in l && g !in l && c != g && Some(g) in s.kids
    requires g in s.drift
    requires BuddyAt(s1, l[|l| - 1], c, g) && g in s1.drift && Dropped(s1, s', l[|l| - 1], c, g)
    ensures var gone := Elements(l) + {c};
            && s'.kids == KidsMinus(s.kids[Some(g) := Without(s.kids[Some(g)], c)], gone)
            && s'.info == Minus(s.info, gone)
            && s'.drift == Minus(s.drift[g := s.drift[g] + 1], gone)
  {
    hide Minus, KidsMinus, Elements, Less, Without;
    var i := |l| - 1;
    var b, done := l[i], Elements(l[..i]);
    DistinctTail(l, i);
    InElements(l[..i], c);
    InElements(l[..i], g);
    assert l[i..] == [b] && l[..i + 1] == l;
    assert done + {b, c} == Elements(l) + {c};
    assert (done + {b}) + {c} == done + {b, c};
    PruneLast(s.kids, done, c, g, b);
    FirstOut([b]);
    MinusLess(s.info, done, b);
    MinusLess(s.info, done + {b}, c);
    DriftLast(s.drift, done, b, c, g);
  }

  lemma DriftLast(drift: map<Node, nat>, done: set<Node>, b: Node, c: Node, g: Node)
    requires g in drift && g !in done && g != b && g != c
    ensures g in Minus(drift, done) && Minus(drift, done)[g] == drift[g]
    ensures Less(Less(Minus(drift, done), b)[g := drift[g] + 1], c) == Minus(drift[g := drift[g] + 1], done + {b, c})
  {
  }
}
