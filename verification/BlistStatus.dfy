/** A buddy whose name or presence changes where it is. */
module BlistStatus {
  import opened BlistSeq
  import opened Options
  import opened BlistLinks
  import opened BlistModel
  import opened BlistTree
  import opened BlistSizes
  import opened BlistIndex
  import opened BlistSteps
  import opened BlistGroups
  import opened BlistFloat

  /** The same nodes of the same kinds, groups and chats unchanged, buddies on the same accounts. */
  ghost predicate SameKinds(info: map<Node, Info>, info': map<Node, Info>) {
    && info'.Keys == info.Keys
    && (forall n :: n in info && !info[n].Buddy? ==> info'[n] == info[n])
    && (forall n :: n in info && info[n].Buddy? ==> info'[n].Buddy? && info'[n].account == info[n].account)
  }

  lemma PlacedKinds(l: Links, kids: Lists, info: map<Node, Info>, info': map<Node, Info>)
    requires Placed(l, kids, info, {}) && SameKinds(info, info')
    ensures Placed(l, kids, info', {})
  {
    forall q | q in kids ensures Siblings(l, info', {}, q, kids[q]) {
      forall n | n in kids[q] ensures Child(l, info', {}, q, n) {
        ChildOf(l, kids, info, {}, q, n);
      }
      KidsDistinct(l, kids, info, {}, q);
      assert Siblings(l, info, {}, q, kids[q]);
    }
    forall n | n in info' ensures Standing(l, kids, info', {}, n) {
      StandsAt(l, kids, info, {}, n);
    }
  }

  lemma NamedKinds(env: Env, groups: map<string, Node>, list: seq<Node>, info: map<Node, Info>, info': map<Node, Info>)
    requires Named(env, groups, list, info) && SameKinds(info, info')
    ensures Named(env, groups, list, info')
  {
    NamedSame(env, groups, list, list, info, info');
  }

  /** Everything but names, presences, sizes and the tables is as it was. */
  ghost predicate SameFrame(s: State, s': State) {
    && s'.env == s.env && s'.links == s.links && s'.kids == s.kids && s'.linked == s.linked && s'.drift == s.drift
    && s'.connected == s.connected && SameKinds(s.info, s'.info)
    && s'.tables.groups == s.tables.groups && s'.tables.cache.Keys == s.tables.cache.Keys
  }

  lemma FrameKept(s: State, s': State)
    requires Valid(s) && SameFrame(s, s')
    ensures Linked(s'.links, s'.linked) && s'.linked == s'.kids && Placed(s'.links, s'.kids, s'.info, {})
    ensures None in s'.kids && Named(s'.env, s'.tables.groups, s'.kids[None], s'.info) && TotalPreorder(s'.env)
  {
    hide Linked, Placed, Sized, Indexed, Filed, Prioritized, Typed, TotalPreorder, Named;
    Soundly(s, NOTHING);
    PlacedKinds(s.links, s.kids, s.info, s'.info);
    NamedKinds(s.env, s.tables.groups, s.kids[None], s.info, s'.info);
  }

  // -------------------------------------------------------------- a new name

  /** Buddy `b` is called `name`, and filed under key `k` instead of `k0`. */
  function Renamed(s: State, b: Node, name: string, k0: Key, k: Key): State
    requires b in s.info && s.info[b].Buddy? && k0.account in s.tables.cache && k.account in s.tables.cache
  {
    s.(info := s.info[b := s.info[b].(name := name)],
       tables := Insert(Remove(s.tables, k0), k, b), keyed := (s.keyed - {b})[b := k])
  }

  lemma SizedRenamed(s: State, s': State)
    requires Sized(s) && s'.env == s.env && s'.kids == s.kids && s'.sizes == s.sizes && s'.drift == s.drift
    requires s'.connected == s.connected
    requires SameKinds(s.info, s'.info)
    requires forall n :: n in s.info && s.info[n].Buddy? ==> s'.info[n].presence == s.info[n].presence
    ensures Sized(s')
  {
    assert OnlineNodes(s.env, s'.info, s.connected) == OnlineNodes(s.env, s.info, s.connected);
    SizedKinds(s, s');
  }

  /** Sizes do not depend on names. */
  lemma SizedKinds(s: State, s': State)
    requires Sized(s) && s'.env == s.env && s'.kids == s.kids && s'.sizes == s.sizes && s'.drift == s.drift
    requires s'.connected == s.connected
    requires SameKinds(s.info, s'.info)
    requires OnlineNodes(s.env, s'.info, s.connected) == OnlineNodes(s.env, s.info, s.connected)
    ensures Sized(s')
  {
    assert ConnectedNodes(s'.info, s.connected) == ConnectedNodes(s.info, s.connected);
    assert Counting(s'.info, s.connected, s.sizes.current) == Counting(s.info, s.connected, s.sizes.current);
    assert Counting(s'.info, s.connected, s.sizes.online) == Counting(s.info, s.connected, s.sizes.online);
    hide ConnectedNodes, OnlineNodes, Counting;
    forall c | c in s'.info && s'.info[c].Contact? ensures ContactSized(s', c) {
      assert ContactSized(s, c);
    }
    forall g | g in s'.info && s'.info[g].Group? ensures GroupSized(s', g) {
      assert GroupSized(s, g);
    }
  }

  /** The specification of a priority buddy reads accounts and presences only. */
  lemma BestAlike(env: Env, info: map<Node, Info>, info': map<Node, Info>, connected: set<Account>, s: seq<Node>,
                  p: Ptr)
    requires IsBest(env, info, connected, s, p) && SameKinds(info, info')
    requires forall n :: n in s && n in info && info[n].Buddy? ==>
               n in info' && info'[n].Buddy? && info'[n].presence == info[n].presence
    ensures IsBest(env, info', connected, s, p)
  {
    if s != [] {
      var i :| 0 <= i < |s| && s[i] == p.value && BestAt(env, info, connected, s, i);
      forall j | 0 <= j < |s|
        ensures IsConnected(info, connected, s[j]) <==> IsConnected(info', connected, s[j])
        ensures Preferred(env, info, connected, s, i, j) <==> Preferred(env, info', connected, s, i, j)
      {
      }
      assert BestAt(env, info', connected, s, i);
    }
  }

  lemma PrioritizedAlike(s: State, s': State)
    requires Prioritized(s, {}) && s'.env == s.env && s'.kids == s.kids && s'.connected == s.connected
    requires s'.priorities.buddy == s.priorities.buddy && s'.priorities.valid.Keys == s.priorities.valid.Keys
    requires SameKinds(s.info, s'.info)
    requires forall c {:trigger s'.priorities.valid[c]} ::
               c in s.info && s.info[c].Contact? && c in s'.priorities.valid && s'.priorities.valid[c] ==>
               && s.priorities.valid[c]
               && forall n :: Some(c) in s.kids && n in s.kids[Some(c)] && n in s.info && s.info[n].Buddy? ==>
                    s'.info[n].presence == s.info[n].presence
    ensures Prioritized(s', {})
  {
    hide IsBest;
    forall c | c in s'.info && s'.info[c].Contact? && c !in {} ensures ContactPrioritized(s', c) {
      assert ContactPrioritized(s, c);
      if s'.priorities.valid[c] {
        BestAlike(s.env, s.info, s'.info, s.connected, s.kids[Some(c)], s.priorities.buddy[c]);
      }
    }
  }

  lemma RenamedIndexed(t: Tables, keyed: map<Node, Key>, b: Node, k: Key)
    requires Indexed(t, keyed) && b in keyed && k.account == keyed[b].account
    requires k in t.buddies ==> t.buddies[k] == b
    ensures k.account in t.cache && Indexed(Insert(Remove(t, keyed[b]), k, b), (keyed - {b})[b := k])
  {
    RemoveIndexed(t, keyed, b);
    hide Indexed;
    var t1 := Remove(t, keyed[b]);
    assert k !in t1.buddies by { RemovedNot(t, keyed, b, k); }
    InsertIndexed(t1, keyed - {b}, k, b);
  }

  lemma RemovedNot(t: Tables, keyed: map<Node, Key>, b: Node, k: Key)
    requires Indexed(t, keyed) && b in keyed && (k in t.buddies ==> t.buddies[k] == b)
    ensures keyed[b].account in t.cache && k !in Remove(t, keyed[b]).buddies
  {
  }

  lemma RenamedFiled(s: State, b: Node, name: string, k: Key)
    requires Filed(s, {}) && b in s.keyed && s.keyed[b].account in s.tables.cache && k.account in s.tables.cache
    requires b in s.info && s.info[b].Buddy? && Attached(s.links, s.info, b)
    requires k == Key(s.env.normalize(s.info[b].account, name), s.info[b].account,
                      s.links.parent[s.links.parent[b].value].value)
    ensures Filed(Renamed(s, b, name, s.keyed[b], k), {})
  {
    var s' := Renamed(s, b, name, s.keyed[b], k);
    forall d ensures BuddyFiled(s', {}, d) {
      FiledAt(s, {}, d);
    }
  }

  /** A buddy's new key: where it will be filed in its group. */
  function NewKey(s: State, b: Node, name: string, g: Node): Key {
    KeyIn(if b in s.info && s.info[b].Buddy? then s.(info := s.info[b := s.info[b].(name := name)]) else s, b, g)
  }

  lemma RenamedValid(s: State, b: Node, c: Node, g: Node, name: string) returns (s': State)
    requires Valid(s) && BuddyAt(s, b, c, g) && name != ""
    ensures b in s.keyed && s.keyed[b] == KeyIn(s, b, g) && s.info[b].account in s.tables.cache
    ensures KeyIn(s, b, g).account in s.tables.cache && NewKey(s, b, name, g).account in s.tables.cache
    ensures s' == Renamed(s, b, name, KeyIn(s, b, g), NewKey(s, b, name, g))
    ensures var k := NewKey(s, b, name, g); Valid(s') <==> (k in s.tables.buddies ==> s.tables.buddies[k] == b)
  {
    hide Linked, Placed, Sized, Indexed, Filed, Named, Prioritized, Typed, TotalPreorder, Valid, Insert, Remove;
    ValidIs(s);
    Soundly(s, NOTHING);
    FiledUnder(s, NOTHING, b, c, g);
    TypedAt(s, NOTHING, b);
    var k0, k := KeyIn(s, b, g), NewKey(s, b, name, g);
    s' := Renamed(s, b, name, k0, k);
    RenamedFields(s, b, name, k0, k);
    if k in s.tables.buddies ==> s.tables.buddies[k] == b {
      RenamedIndexed(s.tables, s.keyed, b, k);
      assert NOTHING.adrift + NOTHING.unfiled == {};
      RenamedFiled(s, b, name, k);
      FrameKept(s, s');
      SizedRenamed(s, s');
      PrioritizedRenamed(s, s');
      hide Renamed;
      TypedRenamed(s, b, name, k0, k);
      ValidBy(s');
    } else {
      RenamedClash(s, b, c, g, name);
    }
  }

  lemma RenamedFields(s: State, b: Node, name: string, k0: Key, k: Key)
    requires b in s.info && s.info[b].Buddy? && k0.account in s.tables.cache && k.account in s.tables.cache
    ensures var s' := Renamed(s, b, name, k0, k);
            && SameFrame(s, s') && s'.priorities == s.priorities && s'.sizes == s.sizes
            && forall n :: n in s.info && s.info[n].Buddy? ==> s'.info[n].presence == s.info[n].presence
  {
  }

  lemma PrioritizedRenamed(s: State, s': State)
    requires Prioritized(s, {}) && SameFrame(s, s') && s'.priorities == s.priorities
    requires forall n :: n in s.info && s.info[n].Buddy? ==> s'.info[n].presence == s.info[n].presence
    ensures Prioritized(s', {})
  {
    PrioritizedAlike(s, s');
  }

  lemma TypedRenamed(s: State, b: Node, name: string, k0: Key, k: Key)
    requires Typed(s.env, s.info, s.links.parent, s.tables.cache, s.connected) && name != ""
    requires b in s.info && s.info[b].Buddy? && k0.account in s.tables.cache && k.account in s.tables.cache
    ensures var s' := Renamed(s, b, name, k0, k); Typed(s'.env, s'.info, s'.links.parent, s'.tables.cache, s'.connected)
  {
  }

  /** If another buddy of the group has the new key, no filing is right. */
  lemma RenamedClash(s: State, b: Node, c: Node, g: Node, name: string)
    requires Valid(s) && BuddyAt(s, b, c, g) && b in s.keyed && s.keyed[b] == KeyIn(s, b, g)
    requires KeyIn(s, b, g).account in s.tables.cache && NewKey(s, b, name, g).account in s.tables.cache
    requires var k := NewKey(s, b, name, g); k in s.tables.buddies && s.tables.buddies[k] != b
    ensures !Valid(Renamed(s, b, name, KeyIn(s, b, g), NewKey(s, b, name, g)))
  {
    hide Linked, Placed, Sized, Filed, Named, Prioritized, Typed, TotalPreorder;
    var k := NewKey(s, b, name, g);
    var s' := Renamed(s, b, name, KeyIn(s, b, g), k);
    Soundly(s, NOTHING);
    var o := s.tables.buddies[k];
    FiledAt(s, NOTHING.adrift + NOTHING.unfiled, o);
    assert Attached(s'.links, s'.info, o) && KeyOf(s'.env, s'.links, s'.info, o) == k;
    assert Attached(s'.links, s'.info, b) && KeyOf(s'.env, s'.links, s'.info, b) == k;
    TwoUnderOne(s', b, o);
  }

  /** In a list that is in order no two buddies of the tree have the same key. */
  lemma TwoUnderOne(s: State, b: Node, o: Node)
    requires b != o && Attached(s.links, s.info, b) && Attached(s.links, s.info, o)
    requires KeyOf(s.env, s.links, s.info, b) == KeyOf(s.env, s.links, s.info, o)
    ensures !Valid(s)
  {
    hide Linked, Placed, Sized, Indexed, Filed, Named, Prioritized, Typed, TotalPreorder;
    if Valid(s) {
      Soundly(s, NOTHING);
      FiledAt(s, NOTHING.adrift + NOTHING.unfiled, o);
      FiledAt(s, NOTHING.adrift + NOTHING.unfiled, b);
      OneKeyOneBuddy(s.tables, s.keyed, b, o);
      assert false;
    }
  }

  // ---------------------------------------------------------- a new presence

  /** The online counts after buddy `b` of contact `c` of group `g` went from being `was` online to being `on`. */
  function OnlineChanged(size: map<Node, int>, was: bool, on: bool, c: Node, g: Node): map<Node, int>
    requires c in size && g in size
  {
    if on && !was then Up(size, c, g) else if was && !on then Down(size, c, g) else size
  }

  /** Buddy `b` has presence `p`. */
  function StatusChanged(s: State, b: Node, p: Presence, c: Node, g: Node): State
    requires b in s.info && s.info[b].Buddy? && HasSizes(s.sizes, c) && HasSizes(s.sizes, g)
  {
    s.(info := s.info[b := s.info[b].(presence := p)],
       sizes := s.sizes.(online := OnlineChanged(s.sizes.online, s.env.isOnline(s.info[b].presence), s.env.isOnline(p),
                                                 c, g)),
       priorities := s.priorities.(valid := s.priorities.valid[c := false]))
  }

  lemma StatusContact(s: State, b: Node, p: Presence, c: Node, g: Node)
    requires Valid(s) && BuddyAt(s, b, c, g) && s.info[b].account in s.connected
    ensures HasSizes(s.sizes, c) && HasSizes(s.sizes, g)
    ensures var s' := StatusChanged(s, b, p, c, g);
            && ContactSized(s', c)
            && Follows(s.sizes.current, s'.sizes.current, c, g) && Follows(s.sizes.online, s'.sizes.online, c, g)
            && s'.sizes.total[g] == s.sizes.total[g]
  {
    hide Linked, Placed, Indexed, Filed, Named, Prioritized, Typed, TotalPreorder, Up, Down;
    Soundly(s, NOTHING);
    SizedHas(s, c);
    SizedHas(s, g);
    hide Sized;
    BuddyKids(s, {}, c);
    TypedAt(s, NOTHING, b);
    var s', l := StatusChanged(s, b, p, c, g), s.kids[Some(c)];
    CountSame(l, ConnectedNodes(s.info, s.connected), ConnectedNodes(s'.info, s.connected));
    CountShift(l, OnlineNodes(s.env, s.info, s.connected), OnlineNodes(s.env, s'.info, s.connected), b);
    CountZero(l, OnlineNodes(s.env, s.info, s.connected));
    OneSize(s.sizes.online, c, g);
  }

  lemma StatusSized(s: State, b: Node, p: Presence, c: Node, g: Node)
    requires Valid(s) && BuddyAt(s, b, c, g) && s.info[b].account in s.connected
    ensures HasSizes(s.sizes, c) && HasSizes(s.sizes, g)
    ensures Sized(StatusChanged(s, b, p, c, g))
  {
    hide Linked, Placed, Indexed, Filed, Named, Prioritized, Typed, TotalPreorder, Up, Down, Sized, ContactSized,
         Follows;
    Soundly(s, NOTHING);
    StatusContact(s, b, p, c, g);
    StatusWithin(s, b, p, c, g);
    SizedWithin(s, StatusChanged(s, b, p, c, g), {}, c, g);
  }

  lemma StatusFields(s: State, b: Node, p: Presence, c: Node, g: Node)
    requires b in s.info && s.info[b].Buddy? && HasSizes(s.sizes, c) && HasSizes(s.sizes, g)
    ensures var s' := StatusChanged(s, b, p, c, g);
            && SameFrame(s, s') && s'.tables == s.tables && s'.keyed == s.keyed
            && s'.info == s.info[b := s.info[b].(presence := p)]
            && s'.priorities == s.priorities.(valid := s.priorities.valid[c := false])
            && s'.sizes == s.sizes.(online := OnlineChanged(s.sizes.online, s.env.isOnline(s.info[b].presence),
                                                            s.env.isOnline(p), c, g))
  {
  }

  lemma OnlineElsewhere(size: map<Node, int>, was: bool, on: bool, c: Node, g: Node)
    requires c in size && g in size
    ensures OnlineChanged(size, was, on, c, g).Keys == size.Keys
    ensures forall n :: n in size && n != c && n != g ==> OnlineChanged(size, was, on, c, g)[n] == size[n]
  {
  }

  lemma StatusWithin(s: State, b: Node, p: Presence, c: Node, g: Node)
    requires Valid(s) && BuddyAt(s, b, c, g) && HasSizes(s.sizes, c) && HasSizes(s.sizes, g)
    ensures OnlyWithin(s, StatusChanged(s, b, p, c, g), c, g)
  {
    hide Linked, Placed, Indexed, Filed, Named, Prioritized, Typed, TotalPreorder, Sized, OnlineChanged;
    BuddyKids(s, {}, c) by { Soundly(s, NOTHING); }
    OnlineElsewhere(s.sizes.online, s.env.isOnline(s.info[b].presence), s.env.isOnline(p), c, g);
    StatusFields(s, b, p, c, g);
    hide StatusChanged, SameKinds;
    assert s.kids[Some(c) := s.kids[Some(c)]] == s.kids;
  }

  lemma StatusFiled(s: State, b: Node, p: Presence, s': State)
    requires Filed(s, {}) && b in s.info && s.info[b].Buddy? && s'.info == s.info[b := s.info[b].(presence := p)]
    requires s'.env == s.env && s'.links == s.links && s'.keyed == s.keyed
    ensures Filed(s', {})
  {
    forall d ensures BuddyFiled(s', {}, d) {
      FiledAt(s, {}, d);
    }
  }

  lemma StatusTyped(s: State, b: Node, p: Presence)
    requires Typed(s.env, s.info, s.links.parent, s.tables.cache, s.connected) && b in s.info && s.info[b].Buddy?
    requires s.info[b].account in s.connected && b in s.links.parent && s.links.parent[b].Some?
    ensures Typed(s.env, s.info[b := s.info[b].(presence := p)], s.links.parent, s.tables.cache, s.connected)
  {
  }

  lemma StatusPriority(s: State, b: Node, p: Presence, c: Node, g: Node, s': State)
    requires Valid(s) && BuddyAt(s, b, c, g) && c in s.priorities.valid
    requires SameFrame(s, s') && s'.info == s.info[b := s.info[b].(presence := p)]
    requires s'.priorities == s.priorities.(valid := s.priorities.valid[c := false])
    ensures Prioritized(s', {})
  {
    hide Linked, Placed, Indexed, Filed, Named, Prioritized, TotalPreorder, Sized, Typed;
    Soundly(s, NOTHING);
    forall d, n | d in s.info && s.info[d].Contact? && d in s'.priorities.valid && s'.priorities.valid[d]
                  && Some(d) in s.kids && n in s.kids[Some(d)] && n in s.info && s.info[n].Buddy?
      ensures s'.info[n].presence == s.info[n].presence
    {
      if n == b {
        OneParent(s.links, s.kids, s.info, {}, Some(c), Some(d), b);
      }
    }
    PrioritizedAlike(s, s');
  }

  lemma FrameFields(s: State, s': State)
    requires SameFrame(s, s')
    ensures s'.env == s.env && s'.links == s.links && s'.connected == s.connected
    ensures s'.kids == s.kids && s'.linked == s.linked && s'.drift == s.drift
  {
  }

  lemma StatusValid(s: State, b: Node, p: Presence, c: Node, g: Node) returns (s': State)
    requires Valid(s) && BuddyAt(s, b, c, g) && s.info[b].account in s.connected
    ensures HasSizes(s.sizes, c) && HasSizes(s.sizes, g) && c in s.priorities.valid
    ensures s' == StatusChanged(s, b, p, c, g) && Valid(s')
  {
    hide Linked, Placed, Sized, Indexed, Filed, Named, Prioritized, Typed, TotalPreorder, HasSizes;
    StatusSized(s, b, p, c, g);
    s' := StatusChanged(s, b, p, c, g);
    StatusFields(s, b, p, c, g);
    hide StatusChanged, OnlineChanged, SameFrame;
    Soundly(s, NOTHING);
    ContactHasPriority(s, NOTHING, c);
    assert NOTHING.adrift + NOTHING.unfiled == {};
    StatusFiled(s, b, p, s') by { assert s'.links == s.links && s'.env == s.env by { FrameFields(s, s'); } }
    StatusTyped(s, b, p);
    StatusPriority(s, b, p, c, g, s');
    FrameKept(s, s');
    FrameFields(s, s');
    ValidBy(s');
  }

  // ------------------------------------------------------- the priority buddy

  /** Storing the specified priority buddy of a contact, and marking it valid. */
  lemma PriorityStored(s: State, c: Node, p: Ptr) returns (s': State)
    requires Valid(s) && c in s.info && s.info[c].Contact? && Some(c) in s.kids
    requires IsBest(s.env, s.info, s.connected, s.kids[Some(c)], p)
    ensures s' == s.(priorities := Priorities(s.priorities.buddy[c := p], s.priorities.valid[c := true])) && Valid(s')
  {
    hide Linked, Placed, Indexed, Filed, Named, Prioritized, TotalPreorder, Sized, Typed, IsBest;
    Soundly(s, NOTHING);
    s' := s.(priorities := Priorities(s.priorities.buddy[c := p], s.priorities.valid[c := true]));
    StoredPriority(s, c, p, s');
    SizedSame(s, s');
    FiledSame(s, s', NOTHING.adrift + NOTHING.unfiled, {});
    ValidBy(s');
  }

  lemma StoredPriority(s: State, c: Node, p: Ptr, s': State)
    requires Prioritized(s, {}) && c in s.info && s.info[c].Contact? && Some(c) in s.kids
    requires IsBest(s.env, s.info, s.connected, s.kids[Some(c)], p)
    requires s' == s.(priorities := Priorities(s.priorities.buddy[c := p], s.priorities.valid[c := true]))
    ensures Prioritized(s', {})
  {
    hide IsBest;
    forall d | d in s'.info && s'.info[d].Contact? && d !in {} ensures ContactPrioritized(s', d) {
      assert ContactPrioritized(s, d);
    }
  }

  /** The first buddy is the specified one of the first buddy. */
  lemma BestFirst(env: Env, info: map<Node, Info>, connected: set<Account>, l: seq<Node>)
    requires TotalPreorder(env) && l != [] && forall n :: n in l ==> n in info && info[n].Buddy?
    ensures BestAt(env, info, connected, l[..1], 0)
  {
    assert env.compare(info[l[0]].presence, info[l[0]].presence) <= 0;
  }
}
