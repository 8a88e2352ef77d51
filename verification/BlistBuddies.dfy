/** A buddy that changes its place: out of its contact and its key, into another contact under another key. */
module BlistBuddies {
  import opened BlistSeq
  import opened Options
  import opened BlistLinks
  import opened BlistModel
  import opened BlistSizes
  import opened BlistIndex
  import opened BlistSteps
  import opened BlistMoves
  import opened BlistGroups
  import opened BlistFloat

  function At(kids: Lists, q: Ptr): seq<Node> {
    if q in kids then kids[q] else []
  }

  // ------------------------------------------------------ buddies without entries

  /** Buddy `o` is in the tree and in no table. */
  predicate Unfound(s: State, o: Node) {
    o in s.info && s.info[o].Buddy? && o in s.links.parent && s.links.parent[o].Some? && o !in s.keyed
  }

  /** Everything is in order but for the buddies `but`, whose entries have been overwritten. */
  ghost predicate Nearly(s: State, but: set<Node>) {
    Sound(s, NOTHING.(unfiled := but)) && forall o :: o in but ==> Unfound(s, o)
  }

  /** The same while buddy `b` is on its way. */
  ghost predicate NearlyBut(s: State, b: Node, but: set<Node>) {
    Sound(s, NOTHING.(adrift := {b}, unfiled := but)) && b !in but && forall o :: o in but ==> Unfound(s, o)
  }

  lemma NearlyIs(s: State, but: set<Node>)
    requires Nearly(s, but)
    ensures Valid(s) <==> but == {}
  {
    hide Linked, Placed, Sized, Indexed, Filed, Named, Prioritized, Typed, TotalPreorder, Spelled, Childless;
    if but == {} {
      assert NOTHING.(unfiled := but) == NOTHING;
    } else {
      var o :| o in but;
      if Valid(s) {
        Soundly(s, NOTHING);
        FiledAt(s, NOTHING.adrift + NOTHING.unfiled, o);
        assert false;
      }
    }
  }

  lemma NearlyNow(s: State)
    requires Valid(s)
    ensures Nearly(s, {})
  {
    hide Sound;
    assert NOTHING.(unfiled := {}) == NOTHING;
  }

  /** Where a buddy of the tree stands. */
  lemma NearlyAt(s: State, b: Node, but: set<Node>)
    requires Nearly(s, but) && b in s.info && s.info[b].Buddy? && b in s.links.parent && s.links.parent[b].Some?
    ensures var c := s.links.parent[b].value;
            c in s.links.parent && s.links.parent[c].Some? && BuddyAt(s, b, c, s.links.parent[c].value)
  {
    hide Sound;
    BuddyStands(s, NOTHING.(unfiled := but), b);
  }

  /** A buddy that is not in the tree can set out at once. */
  lemma NearlyLoose(s: State, b: Node, but: set<Node>)
    requires Nearly(s, but) && b !in but && b in s.info && s.info[b].Buddy? && b in s.links.parent
    requires s.links.parent[b] == None
    ensures NearlyBut(s, b, but) && b !in s.keyed
  {
    hide Sound;
    var x := NOTHING.(unfiled := but);
    LooseOutside(s, x, b);
    LooseIsAdrift(s, x, b);
    assert x.(adrift := x.adrift + {b}) == NOTHING.(adrift := {b}, unfiled := but);
  }

  lemma NearlyDomain(s: State, but: set<Node>)
    requires Nearly(s, but)
    ensures s.info.Keys == s.links.child.Keys == s.links.prev.Keys
  {
    hide Sound;
    LinksDomain(s, NOTHING.(unfiled := but));
  }

  lemma NearlyContact(s: State, c: Node, but: set<Node>)
    requires Nearly(s, but) && c in s.info && s.info[c].Contact? && c in s.links.parent && s.links.parent[c].Some?
    ensures Some(c) in s.kids && HasHead(s.links, Some(c)) && Head(s.links, Some(c)) == First(s.kids[Some(c)])
  {
    hide Sound;
    ContactStands(s, NOTHING.(unfiled := but), c);
    HeadIn(s, NOTHING.(unfiled := but), Some(c));
  }

  lemma FreshIs(s: State, b: Node, g: Node)
    ensures Fresh(s, b, g) <==> Displaced(s.tables, KeyIn(s, b, g), b) == {}
    ensures {} + Displaced(s.tables, KeyIn(s, b, g), b) == Displaced(s.tables, KeyIn(s, b, g), b)
  {
  }

  /** Who loses the entry under `k` when `b` gets it. */
  function Displaced(t: Tables, k: Key, b: Node): set<Node> {
    if k in t.buddies && t.buddies[k] != b then {t.buddies[k]} else {}
  }

  // ------------------------------------------------------------------ leaving

  /** The excuse of contact `c0` when it is left empty with a priority. */
  function Emptier(s: State, b: Node, c0: Node, but: set<Node>): Excuse {
    Excuse({b}, None, but,
           if Without(At(s.kids, Some(c0)), b) == [] && c0 in s.priorities.buddy && s.priorities.buddy[c0] == Some(b)
           then {c0} else {})
  }

  lemma Leaving(s: State, b: Node, c0: Node, g0: Node, g: Node, but: set<Node>) returns (s': State)
    requires Nearly(s, but) && b !in but && BuddyAt(s, b, c0, g0)
    ensures Live(s.links, b) && HasHead(s.links, s.links.parent[b])
    ensures s.links.prev[b].Some? ==> s.links.prev[b].value in s.links.next
    ensures s.links.next[b].Some? ==> s.links.next[b].value in s.links.prev
    ensures HasSizes(s.sizes, c0) && HasSizes(s.sizes, g0) && s.info[b].account in s.tables.cache
    ensures c0 in Unlinked(s.links, b).child && Unlinked(s.links, b).child[c0] == First(Without(s.kids[Some(c0)], b))
    ensures c0 in s.priorities.valid && Some(c0) in s.linked
    ensures Sound(s', Emptier(s, b, c0, but))
    ensures var k0, rest := KeyIn(s, b, g0), Without(s.kids[Some(c0)], b);
            && s'.env == s.env && s'.info == s.info && s'.connected == s.connected && s'.drift == s.drift
            && s'.links == Unlinked(s.links, b) && s'.links.parent == s.links.parent
            && s'.linked == s.linked[Some(c0) := Without(s.linked[Some(c0)], b)] && s'.kids == s.kids[Some(c0) := rest]
            && s'.sizes == BuddyOut(s.sizes, IsOnline(s.env, s.info, s.connected, b),
                                    IsConnected(s.info, s.connected, b), c0, g0)
            && s'.priorities
                 == (if rest == [] then s.priorities else s.priorities.(valid := s.priorities.valid[c0 := false]))
            && s'.tables == (if g0 != g then Remove(s.tables, k0) else s.tables)
            && s'.keyed == (if g0 != g then s.keyed - {b} else s.keyed)
            && (if g0 != g then b !in s'.keyed && k0 !in s'.tables.buddies else b in s'.keyed && s'.keyed[b] == k0)
  {
    hide Linked, Placed, Sized, Indexed, Filed, Named, Prioritized, Typed, TotalPreorder, Without, Unlinked,
         AfterBuddyOut, Sound, Remove, Insert;
    var x := NOTHING.(unfiled := but);
    BuddyNeighbours(s, x, b, c0);
    TypedAt(s, x, b);
    TakenHead(s, x, b, c0, g0);
    ContactHasPriority(s, x, c0);
    FiledUnder(s, x, b, c0, g0);
    var keep := Without(s.kids[Some(c0)], b) == [];
    DepartedSound(s, x, b, c0, g0, keep);
    DepartedFields(s, b, c0, g0, keep);
    DepartedRest(s, b, c0, g0, keep);
    UnlinkedParents(s.links, b);
    var s1, k0 := Departed(s, b, c0, g0, keep), KeyIn(s, b, g0);
    hide Departed;
    assert Doomed(s, x, b, c0, keep) == Emptier(s, b, c0, but);
    hide Doomed, Emptier;
    s' := s1;
    if g0 != g {
      UnfiledSound(s1, Emptier(s, b, c0, but), b, k0) by { EmptierIs(s, b, c0, but); }
      RemovedKey(s1.tables, k0);
      s' := Unfiled(s1, b, k0);
    }
  }

  lemma EmptierIs(s: State, b: Node, c0: Node, but: set<Node>)
    ensures var x := Emptier(s, b, c0, but);
            && b in x.adrift + x.unfiled && x.afloat == None && x.adrift == {b} && x.unfiled == but
            && x.doomed - {c0} == {}
            && (Without(At(s.kids, Some(c0)), b) != [] ==> x == NOTHING.(adrift := {b}, unfiled := but))
  {
  }

  lemma RemovedKey(t: Tables, k: Key)
    requires k.account in t.cache
    ensures k !in Remove(t, k).buddies
  {
  }

  lemma DepartedRest(s: State, b: Node, c: Node, g: Node, keep: bool)
    requires Live(s.links, b) && HasHead(s.links, s.links.parent[b]) && Some(c) in s.linked && Some(c) in s.kids
    requires HasSizes(s.sizes, c) && HasSizes(s.sizes, g)
    ensures var s' := Departed(s, b, c, g, keep);
            && s'.sizes == BuddyOut(s.sizes, IsOnline(s.env, s.info, s.connected, b),
                                    IsConnected(s.info, s.connected, b), c, g)
            && s'.priorities == (if keep then s.priorities else s.priorities.(valid := s.priorities.valid[c := false]))
  {
  }

  // ----------------------------------------------------------------- arriving

  lemma JoinedRest(s: State, b: Node, a: Ptr, c: Node, g: Node)
    requires HasHead(s.links, Some(c)) && (a.Some? ==> Live(s.links, a.value)) && Some(c) in s.linked
    requires Some(c) in s.kids
    requires HasSizes(s.sizes, c) && HasSizes(s.sizes, g)
    ensures Joined(s, b, a, c, g).sizes
         == BuddyIn(s.sizes, IsOnline(s.env, s.info, s.connected, b), IsConnected(s.info, s.connected, b), c, g)
  {
  }

  /** The key of buddy `b` in group `g` is its own or nobody's. */
  predicate Fresh(s: State, b: Node, g: Node) {
    KeyIn(s, b, g) in s.tables.buddies ==> s.tables.buddies[KeyIn(s, b, g)] == b
  }

  lemma Arriving(s: State, b: Node, a: Ptr, c: Node, g: Node, but: set<Node>) returns (s': State)
    requires NearlyBut(s, b, but) && b in s.info && s.info[b].Buddy?
    requires c in s.info && s.info[c].Contact? && c in s.links.parent && s.links.parent[c] == Some(g)
    requires Some(c) in s.kids
    requires a.Some? ==> a.value in s.kids[Some(c)]
    requires b in s.keyed ==> s.keyed[b] == KeyIn(s, b, g)
    ensures Live(s.links, b) && HasHead(s.links, Some(c))
    ensures (Head(s.links, Some(c)).Some? ==> Head(s.links, Some(c)).value in s.links.prev)
    ensures a.Some? ==> b != a.value && Live(s.links, a.value)
                        && (s.links.next[a.value].Some? ==> s.links.next[a.value].value in s.links.prev)
    ensures HasSizes(s.sizes, c) && HasSizes(s.sizes, g) && c in s.priorities.valid
    ensures s.info[b].account in s.tables.cache
    ensures var k, l := KeyIn(s, b, g), InsertAfter(s.kids[Some(c)], a, b);
            && s'.env == s.env && s'.info == s.info && s'.connected == s.connected && s'.drift == s.drift
            && s'.links == Relinked(s.links, b, Some(c), a) && s'.links.parent == s.links.parent[b := Some(c)]
            && s'.kids == s.kids[Some(c) := l] && s'.linked == s'.kids
            && s'.sizes
                 == BuddyIn(s.sizes, IsOnline(s.env, s.info, s.connected, b), IsConnected(s.info, s.connected, b), c, g)
            && s'.priorities == s.priorities.(valid := s.priorities.valid[c := false])
            && s'.tables == Insert(s.tables, k, b) && s'.keyed == (s.keyed - Displaced(s.tables, k, b))[b := k]
            && Nearly(s', but + Displaced(s.tables, k, b))
  {
    hide Linked, Placed, Sized, Indexed, Filed, Named, Prioritized, Typed, TotalPreorder, InsertAfter, Relinked,
         AfterBuddyIn, Sound, Remove, Insert,
         HasSizes, Valid, Live;
    var x := NOTHING.(adrift := {b}, unfiled := but);
    assert c != b;
    assert s.linked == s.kids by { Soundly(s, x); }
    ContactStands(s, x, c);
    Adrifts(s, x, b, Some(c));
    MayLinkIn(s, x, Some(c), a);
    ContactHasPriority(s, x, c);
    TypedAt(s, x, b);
    JoinedSound(s, x, b, a, c, g);
    JoinedFields(s, b, a, c, g);
    JoinedRest(s, b, a, c, g);
    JoinedLinks(s, x, b, a, c);
    var s1 := Joined(s, b, a, c, g);
    hide Joined;
    var x1 := NOTHING.(unfiled := but + {b});
    assert x.(adrift := x.adrift - {b}, unfiled := x.unfiled + {b}) == x1;
    ArrivingKey(s1, b, c, g);
    s' := ArrivingFiled(s1, b, c, g, but);
  }

  lemma ArrivingKey(s: State, b: Node, c: Node, g: Node)
    requires b in s.info && s.info[b].Buddy? && b in s.links.parent && s.links.parent[b] == Some(c)
    requires c in s.links.parent && s.links.parent[c] == Some(g)
    ensures Attached(s.links, s.info, b) && KeyOf(s.env, s.links, s.info, b) == KeyIn(s, b, g)
  {
  }

  /** Filing the buddy leaves whoever had the key in no table. */
  lemma ArrivingFiled(s: State, b: Node, c: Node, g: Node, but: set<Node>) returns (s': State)
    requires Sound(s, NOTHING.(unfiled := but + {b})) && b in s.info && s.info[b].Buddy?
    requires s.info[b].account in s.tables.cache
    requires Attached(s.links, s.info, b) && KeyOf(s.env, s.links, s.info, b) == KeyIn(s, b, g)
    requires b in s.keyed ==> s.keyed[b] == KeyIn(s, b, g)
    requires b !in but && forall o :: o in but ==> Unfound(s, o)
    ensures var k := KeyIn(s, b, g);
            && s' == s.(tables := Insert(s.tables, k, b), keyed := (s.keyed - Displaced(s.tables, k, b))[b := k])
            && Nearly(s', but + Displaced(s.tables, k, b))
  {
    hide Linked, Placed, Sized, Indexed, Filed, Named, Prioritized, Typed, TotalPreorder, Sound, Insert, Remove, KeyOf;
    var x, k := NOTHING.(unfiled := but + {b}), KeyIn(s, b, g);
    FreshMeans(s, b, g) by { Soundly(s, x); }
    if Fresh(s, b, g) {
      EnteredSound(s, x, b);
      assert x.(unfiled := x.unfiled - {b}) == NOTHING.(unfiled := but);
      s' := Entered(s, b, k);
      assert s.keyed - {} == s.keyed && but + {} == but;
    } else {
      s' := Overwriting(s, b, g, but);
    }
  }

  lemma Overwriting(s: State, b: Node, g: Node, but: set<Node>) returns (s': State)
    requires Sound(s, NOTHING.(unfiled := but + {b})) && b in s.info && s.info[b].Buddy?
    requires s.info[b].account in s.tables.cache
    requires Attached(s.links, s.info, b) && KeyOf(s.env, s.links, s.info, b) == KeyIn(s, b, g)
    requires b in s.keyed ==> s.keyed[b] == KeyIn(s, b, g)
    requires b !in but && forall o :: o in but ==> Unfound(s, o)
    requires !Fresh(s, b, g)
    ensures var k := KeyIn(s, b, g);
            && s' == s.(tables := Insert(s.tables, k, b), keyed := (s.keyed - Displaced(s.tables, k, b))[b := k])
            && Nearly(s', but + Displaced(s.tables, k, b))
  {
    hide Linked, Placed, Sized, Indexed, Filed, Named, Prioritized, Typed, TotalPreorder, Sound, Insert, Remove, KeyOf;
    var x, k := NOTHING.(unfiled := but + {b}), KeyIn(s, b, g);
    var o := s.tables.buddies[k];
    FreshMeans(s, b, g) by { Soundly(s, x); }
    FiledAt(s, x.adrift + x.unfiled, o) by { Soundly(s, x); }
    var x1, s1 := NOTHING.(unfiled := but + {b} + {o}), Unfiled(s, o, k);
    MoreUnfiled(s, x, x1);
    UnfiledSound(s, x1, o, k);
    RemovedKey(s.tables, k);
    RemovedCache(s.tables, k);
    EnteredSound(s1, x1, b);
    assert x1.unfiled - {b} == but + {o};
    InsertRemoved(s.tables, k, b);
    s' := Entered(s1, b, k);
  }

  lemma MoreUnfiled(s: State, x: Excuse, x': Excuse)
    requires Sound(s, x) && x' == x.(unfiled := x'.unfiled) && x.unfiled <= x'.unfiled
    ensures Sound(s, x')
  {
    hide Linked, Placed, Sized, Indexed, Filed, Named, Prioritized, Typed, TotalPreorder, Spelled, Childless;
    FiledSame(s, s, x.adrift + x.unfiled, x'.adrift + x'.unfiled);
  }

  lemma InsertRemoved(t: Tables, k: Key, b: Node)
    requires k.account in t.cache
    ensures k.account in Remove(t, k).cache && Insert(Remove(t, k), k, b) == Insert(t, k, b)
  {
    assert Less(t.buddies, k)[k := b] == t.buddies[k := b];
    assert Less(t.cache[k.account], k)[k := b] == t.cache[k.account][k := b];
  }

  lemma FreshMeans(s: State, b: Node, g: Node)
    requires Indexed(s.tables, s.keyed) && b in s.info && s.info[b].Buddy?
    requires (b in s.keyed ==> s.keyed[b] == KeyIn(s, b, g))
    ensures Fresh(s, b, g) ==>
              if b in s.keyed then s.keyed[b] == KeyIn(s, b, g) else KeyIn(s, b, g) !in s.tables.buddies
    ensures !Fresh(s, b, g) ==>
              var o := s.tables.buddies[KeyIn(s, b, g)]; o != b && o in s.keyed && s.keyed[o] == KeyIn(s, b, g)
  {
  }

  /** Two buddies of the tree under one key cannot both be found: no filing of them is right. */
  lemma Clash(s: State, b: Node, o: Node, t: Tables, keyed: map<Node, Key>)
    requires o != b && Attached(s.links, s.info, b) && Attached(s.links, s.info, o)
    requires KeyOf(s.env, s.links, s.info, o) == KeyOf(s.env, s.links, s.info, b)
    ensures !Valid(s.(tables := t, keyed := keyed))
  {
    hide Linked, Placed, Sized, Indexed, Filed, Named, Prioritized, Typed, TotalPreorder, Spelled, Childless;
    var s' := s.(tables := t, keyed := keyed);
    if Valid(s') {
      Soundly(s', NOTHING);
      FiledAt(s', NOTHING.adrift + NOTHING.unfiled, o);
      FiledAt(s', NOTHING.adrift + NOTHING.unfiled, b);
      OneKeyOneBuddy(s'.tables, s'.keyed, b, o);
      assert false;
    }
  }

  // ---------------------------------------------------------- what has become of it

  /** Contact `c0` is left empty without buddy `b`. */
  predicate Empties(kids: Lists, b: Node, c0: Node) {
    Without(At(kids, Some(c0)), b) == []
  }

  /** The tree without buddy `b` of contact `c0` of group `g0`, nor the contact if that was its last. */
  function KidsLeft(kids: Lists, b: Node, c0: Node, g0: Node): Lists {
    var k1 := kids[Some(c0) := Without(At(kids, Some(c0)), b)];
    if Empties(kids, b, c0) then Less(k1[Some(g0) := Without(At(k1, Some(g0)), c0)], Some(c0)) else k1
  }

  function DriftLeft(kids: Lists, drift: map<Node, nat>, b: Node, c0: Node, g0: Node): map<Node, nat> {
    if Empties(kids, b, c0) then Less(if g0 in drift then drift[g0 := drift[g0] + 1] else drift, c0) else drift
  }

  /** A store of node fields without the contact left empty. */
  function StoreLeft<V>(kids: Lists, m: map<Node, V>, b: Node, c0: Node): map<Node, V> {
    if Empties(kids, b, c0) then Less(m, c0) else m
  }

  /** The buddy table after buddy `b` of group `g0` set out for group `g`. */
  function TableLeft(s: State, b: Node, g0: Node, g: Node): map<Key, Node> {
    if g0 != g then Less(s.tables.buddies, KeyIn(s, b, g0)) else s.tables.buddies
  }

  /** The tree with buddy `b` behind `a` in contact `c`, or in front. */
  function KidsJoined(kids: Lists, b: Node, c: Node, a: Ptr): Lists {
    kids[Some(c) := InsertAfter(At(kids, Some(c)), a, b)]
  }

  lemma LeftBehind(s: State, s': State, b: Node, c0: Node, g0: Node, but: set<Node>)
    requires Nearly(s, but) && BuddyAt(s, b, c0, g0) && s'.kids == s.kids[Some(c0) := Without(s.kids[Some(c0)], b)]
    requires s'.info == s.info && s'.links.parent == s.links.parent && s'.drift == s.drift
    requires Sound(s', Emptier(s, b, c0, but))
    ensures Empties(s.kids, b, c0) <==> s'.kids[Some(c0)] == []
    ensures c0 !in Emptier(s, b, c0, but).adrift && c0 in s'.info && s'.info[c0].Contact? && Some(c0) in s'.kids
    ensures c0 in s'.links.parent && s'.links.parent[c0] == Some(g0) && Some(g0) in s'.kids && g0 in s'.drift
    ensures s'.kids[Some(g0)] == s.kids[Some(g0)]
  {
    hide Linked, Placed, Sized, Indexed, Filed, Named, Prioritized, Typed, TotalPreorder, Without, Sound;
    GroupDrift(s, NOTHING.(unfiled := but), g0);
  }

  /** The buddies without entries are still where they were when buddy `b` has left contact `c0`. */
  lemma StillNearly(s: State, s': State, b: Node, c0: Node, but: set<Node>)
    requires Nearly(s, but) && b !in but && c0 in s.info && s.info[c0].Contact?
    requires Sound(s', NOTHING.(adrift := {b}, unfiled := but))
    requires s'.info == StoreLeft(s.kids, s.info, b, c0) && s'.links.parent == StoreLeft(s.kids, s.links.parent, b, c0)
    requires s'.keyed.Keys <= s.keyed.Keys
    ensures NearlyBut(s', b, but)
  {
    hide Sound;
  }

  /** The tree with a new empty contact `c` at the end of group `g`. */
  function WithContact(kids: Lists, c: Node, g: Node): Lists {
    kids[Some(c) := []][Some(g) := At(kids, Some(g)) + [c]]
  }

  lemma AppendedContact(s: State, c: Node, g: Node)
    requires Valid(s) && c !in s.info && g in s.info && s.info[g].Group? && Some(g) in s.kids && c != g
    ensures var k := s.kids[Some(c) := []];
            && Moved(k, None, c, g, Last(k[Some(g)])) == WithContact(s.kids, c, g)
            && Some(c) in WithContact(s.kids, c, g)
            && (Last(k[Some(g)]).Some? ==> Last(k[Some(g)]).value in k[Some(g)] && Last(k[Some(g)]).value != c)
  {
    hide Linked, Placed, Sized, Indexed, Filed, Named, Prioritized, Typed, TotalPreorder, InsertAfter;
    HeadOf(s, Some(g));
    GroupKids(s, g);
    InsertLast(s.kids[Some(g)], c);
  }

  /** The buddy stays where it is if it is told to go behind itself, or to the front where it is. */
  predicate Overtop(s: State, b: Node, contact: Ptr, node: Ptr) {
    node == Some(b) || (node == None && contact.Some? && b in s.links.parent && s.links.parent[b] == contact
                        && contact.value in s.links.child && s.links.child[contact.value] == Some(b))
  }

  /** The contact and group the buddy is to go to, if one of `contact` and `node` says. */
  predicate Bound(s: State, contact: Ptr, node: Ptr, c: Node, g: Node) {
    && (if node.Some? then node.value in s.links.parent && s.links.parent[node.value] == Some(c)
        else contact == Some(c))
    && c in s.links.parent && s.links.parent[c] == Some(g)
  }

  /** The group to go to if none of them says. */
  function Default(s: State, group: Ptr, name: string, spare: Node): Node {
    var k := s.env.collateKey(name);
    if group.Some? then group.value else if k in s.tables.groups then s.tables.groups[k] else spare
  }

  /** State `s` with group `g` in the list and a new contact `c` at its end. */
  function Novel(s: State, c: Node, g: Node, spare: Node, name: string): State {
    s.(kids := if None in s.kids then WithContact(Listed(s.kids, g), c, g) else s.kids,
       info := (if g == spare then s.info[spare := Group(name)] else s.info)[c := Contact],
       drift := if g == spare then s.drift[spare := 0] else s.drift,
       links := s.links.(parent := (if g == spare then s.links.parent[spare := None]
                                    else s.links.parent)[c := Some(g)]))
  }

  /**
   Between `s` and `s'` buddy `b` has come to stand behind `a` in contact `c` of group `g`, or in front, and under its
   key there.
  */
  ghost predicate Repositions(s: State, s': State, b: Node, c: Node, g: Node, a: Ptr) {
    var q := if b in s.links.parent then s.links.parent[b] else None;
    var p := if q.Some? && q.value in s.links.parent then s.links.parent[q.value] else None;
    var k := KeyIn(s, b, g);
    if q.Some? && p.Some? then
      && s'.kids == KidsJoined(KidsLeft(s.kids, b, q.value, p.value), b, c, a)
      && s'.info == StoreLeft(s.kids, s.info, b, q.value) && s'.drift == DriftLeft(s.kids, s.drift, b, q.value, p.value)
      && s'.links.parent == StoreLeft(s.kids, s.links.parent, b, q.value)[b := Some(c)]
      && s'.tables.buddies == TableLeft(s, b, p.value, g)[k := b]
    else
      && s'.kids == KidsJoined(s.kids, b, c, a) && s'.info == s.info && s'.drift == s.drift
      && s'.links.parent == s.links.parent[b := Some(c)] && s'.tables.buddies == s.tables.buddies[k := b]
  }

  lemma RepositionsSame(s: State, t: State, s': State, b: Node, c: Node, g: Node, a: Ptr)
    requires SameHome(s, t) && b in s.info && s.info[b].Buddy? && Repositions(s, s', b, c, g, a)
    ensures Repositions(t, s', b, c, g, a)
  {
    hide KidsLeft, KidsJoined, StoreLeft, DriftLeft, Less;
  }

  /** The place the buddy goes to is not lost with the contact it may leave empty. */
  lemma TargetRemains(s: State, s': State, b: Node, c0: Node, g0: Node, c: Node, g: Node, a: Ptr, but: set<Node>)
    requires Nearly(s, but) && BuddyAt(s, b, c0, g0) && a != Some(b)
    requires c in s.info && s.info[c].Contact? && c in s.links.parent && s.links.parent[c] == Some(g)
    requires Some(c) in s.kids
    requires a.Some? ==> a.value in s.kids[Some(c)]
    requires a == None ==> c0 != c || First(s.kids[Some(c)]) != Some(b)
    requires s'.env == s.env && s'.kids == KidsLeft(s.kids, b, c0, g0)
    requires s'.info == StoreLeft(s.kids, s.info, b, c0) && s'.links.parent == StoreLeft(s.kids, s.links.parent, b, c0)
    requires s'.tables.buddies == TableLeft(s, b, g0, g)
    ensures c in s'.info && s'.info[c].Contact? && c in s'.links.parent && s'.links.parent[c] == Some(g)
    ensures Some(c) in s'.kids
    ensures a.Some? ==> a.value in s'.kids[Some(c)]
    ensures b in s'.info && s'.info[b] == s.info[b] && KeyIn(s', b, g) == KeyIn(s, b, g)
    ensures Displaced(s'.tables, KeyIn(s, b, g), b) == Displaced(s.tables, KeyIn(s, b, g), b)
  {
    hide Linked, Placed, Sized, Indexed, Filed, Named, Prioritized, Typed, TotalPreorder, Without, Sound;
    BuddyKids(s, {}, c) by { Soundly(s, NOTHING.(unfiled := but)); }
    WithoutKeeps(s.kids[Some(c)], b);
    BuddyKids(s, {}, c0) by { Soundly(s, NOTHING.(unfiled := but)); }
    WithoutKeeps(s.kids[Some(c0)], b);
    assert Empties(s.kids, b, c0) ==> |s.kids[Some(c0)]| == 1;
  }

  /** Making a new contact for the buddy does not move the buddy. */
  lemma NovelTarget(s: State, s': State, b: Node, c: Node, g: Node, spare: Node, name: string)
    requires Valid(s) && b in s.info && s.info[b].Buddy? && b in s.links.parent && None in s.kids
    requires c !in s.info && spare !in s.info && g != c
    requires s'.env == s.env && s'.tables.buddies == s.tables.buddies && s'.kids == WithContact(Listed(s.kids, g), c, g)
    requires s'.info == (if g == spare then s.info[spare := Group(name)] else s.info)[c := Contact]
    requires s'.links.parent == (if g == spare then s.links.parent[spare := None] else s.links.parent)[c := Some(g)]
    requires s'.drift == if g == spare then s.drift[spare := 0] else s.drift
    ensures SameHome(s', Novel(s, c, g, spare, name))
    ensures b in s'.info && s'.info[b] == s.info[b] && b in s'.links.parent && s'.links.parent[b] == s.links.parent[b]
    ensures s.links.parent[b] != Some(c) && b != c && KeyIn(s', b, g) == KeyIn(s, b, g)
  {
    hide Linked, Placed, Sized, Indexed, Filed, Named, Prioritized, Typed, TotalPreorder, WithContact, Listed,
         KidsLeft, KidsJoined;
    if s.links.parent[b].Some? {
      BuddyStands(s, NOTHING, b);
    }
  }
}
