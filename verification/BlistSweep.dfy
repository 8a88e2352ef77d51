/** An account that connects or disconnects: all sizes are recounted node by node. */
module BlistSweep {
  import opened BlistSeq
  import opened Options
  import opened BlistLinks
  import opened BlistModel
  import opened BlistTree
  import opened BlistSizes
  import opened BlistPriority
  import opened BlistSteps
  import opened BlistGroups
  import opened BlistBuddies
  import opened BlistStatus

  // -------------------------------------------------------------- what to count

  /** currentsize and online of contact `c` if the accounts `conn` are connected. */
  function CurrentOf(s: State, conn: set<Account>, c: Node): nat {
    Count(At(s.kids, Some(c)), ConnectedNodes(s.info, conn))
  }

  function OnlineOf(s: State, conn: set<Account>, c: Node): nat {
    Count(At(s.kids, Some(c)), OnlineNodes(s.env, s.info, conn))
  }

  /** The contacts and chats that count in their groups then. */
  function Present(s: State, conn: set<Account>): set<Node> {
    set n | n in s.info
        && ((s.info[n].Contact? && CurrentOf(s, conn, n) > 0) || (s.info[n].Chat? && IsConnected(s.info, conn, n)))
  }

  function PresentOnline(s: State, conn: set<Account>): set<Node> {
    set n | n in s.info
        && ((s.info[n].Contact? && OnlineOf(s, conn, n) > 0) || (s.info[n].Chat? && IsConnected(s.info, conn, n)))
  }

  /** The new set where the sweep has been, the old set elsewhere. */
  function Mixed(done: set<Node>, new': set<Node>, old': set<Node>): set<Node> {
    (new' * done) + (old' - done)
  }

  function Bit(b: bool): int {
    if b then 1 else 0
  }

  lemma MixedStep(l: seq<Node>, new': set<Node>, old': set<Node>, done: set<Node>, n: Node)
    requires NoDup(l) && n !in done
    ensures Count(l, Mixed(done + {n}, new', old'))
         == Count(l, Mixed(done, new', old')) + (if n in l then Bit(n in new') - Bit(n in old') else 0)
  {
    CountShift(l, Mixed(done, new', old'), Mixed(done + {n}, new', old'), n);
  }

  lemma MixedNone(new': set<Node>, old': set<Node>)
    ensures Mixed({}, new', old') == old'
  {
  }

  lemma MixedAll(l: seq<Node>, done: set<Node>, new': set<Node>, old': set<Node>)
    requires forall n :: n in l ==> n in done
    ensures Count(l, Mixed(done, new', old')) == Count(l, new')
  {
    CountSame(l, Mixed(done, new', old'), new');
  }

  // ----------------------------------------------------- the state of the sweep

  /** The accounts that count for contact `c`. */
  function ConnFor(s: State, conn: set<Account>, done: set<Node>, c: Node): set<Account> {
    if c in done then conn else s.connected
  }

  ghost predicate SweptContact(s: State, conn: set<Account>, done: set<Node>, z: Sizes, c: Node) {
    && c in z.current && c in z.online
    && z.current[c] == CurrentOf(s, ConnFor(s, conn, done, c), c)
    && z.online[c] == OnlineOf(s, ConnFor(s, conn, done, c), c)
  }

  ghost predicate SweptGroup(s: State, conn: set<Account>, done: set<Node>, z: Sizes, g: Node) {
    && g in z.current && g in z.online
    && z.current[g] == Count(At(s.kids, Some(g)), Mixed(done, Present(s, conn), Present(s, s.connected)))
    && z.online[g] == Count(At(s.kids, Some(g)), Mixed(done, PresentOnline(s, conn), PresentOnline(s, s.connected)))
  }

  /** The sizes `z` count the children `done` with the accounts `conn` and all others with those connected in `s`. */
  ghost predicate Swept(s: State, conn: set<Account>, done: set<Node>, z: Sizes) {
    && z.total == s.sizes.total
    && (forall c {:trigger SweptContact(s, conn, done, z, c)} :: c in s.info && s.info[c].Contact? ==>
        SweptContact(s, conn, done, z, c))
    && (forall g {:trigger SweptGroup(s, conn, done, z, g)} :: g in s.info && s.info[g].Group? ==>
        SweptGroup(s, conn, done, z, g))
  }

  lemma ContactAt(s: State, conn: set<Account>, done: set<Node>, z: Sizes, c: Node)
    requires Swept(s, conn, done, z) && c in s.info
    ensures s.info[c].Contact? ==> SweptContact(s, conn, done, z, c)
    ensures s.info[c].Group? ==> SweptGroup(s, conn, done, z, c)
  {
    assert s.info[c].Contact? ==> SweptContact(s, conn, done, z, c);
    assert s.info[c].Group? ==> SweptGroup(s, conn, done, z, c);
  }

  /** What the cached sizes say groups count is what counting the tree says. */
  lemma PresentIs(s: State)
    requires Sized(s)
    ensures Counting(s.info, s.connected, s.sizes.current) == Present(s, s.connected)
    ensures Counting(s.info, s.connected, s.sizes.online) == PresentOnline(s, s.connected)
  {
    hide ConnectedNodes, OnlineNodes;
    forall n | n in s.info
      ensures n in Counting(s.info, s.connected, s.sizes.current) <==> n in Present(s, s.connected)
      ensures n in Counting(s.info, s.connected, s.sizes.online) <==> n in PresentOnline(s, s.connected)
    {
      if s.info[n].Contact? {
        assert ContactSized(s, n);
      }
    }
  }

  lemma SweepStarts(s: State, conn: set<Account>)
    requires Sized(s)
    ensures Swept(s, conn, {}, s.sizes)
  {
    PresentIs(s);
    hide ConnectedNodes, OnlineNodes, Counting, Present, PresentOnline;
    MixedNone(Present(s, conn), Present(s, s.connected));
    MixedNone(PresentOnline(s, conn), PresentOnline(s, s.connected));
    forall c | c in s.info && s.info[c].Contact? ensures SweptContact(s, conn, {}, s.sizes, c) {
      assert ContactSized(s, c);
    }
    forall g | g in s.info && s.info[g].Group? ensures SweptGroup(s, conn, {}, s.sizes, g) {
      assert GroupSized(s, g);
    }
  }

  /** A count of contact or chat `n` and of its group `g` after the sweep has been at `n`. */
  function Recount(size: map<Node, int>, n: Node, g: Node, k: int, crossing: int): map<Node, int>
    requires g in size
  {
    size[n := k][g := size[g] + crossing]
  }

  /** The sizes after the sweep has been at `n` in group `g`. */
  ghost predicate Recounted(s: State, conn: set<Account>, z: Sizes, z': Sizes, n: Node, g: Node) {
    && n in s.info && g in z.current && g in z.online && z'.total == z.total
    && var dc := Bit(n in Present(s, conn)) - Bit(n in Present(s, s.connected));
       var d := Bit(n in PresentOnline(s, conn)) - Bit(n in PresentOnline(s, s.connected));
       if s.info[n].Contact? then
         && z'.current == Recount(z.current, n, g, CurrentOf(s, conn, n), dc)
         && z'.online == Recount(z.online, n, g, OnlineOf(s, conn, n), d)
       else z'.current == z.current[g := z.current[g] + dc] && z'.online == z.online[g := z.online[g] + d]
  }

  lemma SweepsOn(s: State, conn: set<Account>, done: set<Node>, z: Sizes, z': Sizes, n: Node, g: Node)
    requires Valid(s) && Swept(s, conn, done, z) && n !in done
    requires g in s.info && s.info[g].Group? && Some(g) in s.kids && n in s.kids[Some(g)]
    requires Recounted(s, conn, z, z', n, g)
    ensures Swept(s, conn, done + {n}, z')
  {
    hide Linked, Placed, Sized, Indexed, Filed, Named, Prioritized, Typed, TotalPreorder, Present, PresentOnline,
         Mixed, CurrentOf, OnlineOf, Swept;
    GroupKids(s, g);
    assert z'.total == s.sizes.total by { SweptTotal(s, conn, done, z); }
    forall c | c in s.info && s.info[c].Contact? ensures SweptContact(s, conn, done + {n}, z', c) {
      ContactAt(s, conn, done, z, c);
    }
    forall h | h in s.info && s.info[h].Group? ensures SweptGroup(s, conn, done + {n}, z', h) {
      ContactAt(s, conn, done, z, h);
      GroupSweepsOn(s, conn, done, z, z', n, g, h);
    }
    SweptBy(s, conn, done + {n}, z');
  }

  lemma SweptTotal(s: State, conn: set<Account>, done: set<Node>, z: Sizes)
    requires Swept(s, conn, done, z)
    ensures z.total == s.sizes.total
  {
  }

  lemma SweptBy(s: State, conn: set<Account>, done: set<Node>, z: Sizes)
    requires z.total == s.sizes.total
    requires forall c :: c in s.info && s.info[c].Contact? ==> SweptContact(s, conn, done, z, c)
    requires forall g :: g in s.info && s.info[g].Group? ==> SweptGroup(s, conn, done, z, g)
    ensures Swept(s, conn, done, z)
  {
  }

  lemma GroupSweepsOn(s: State, conn: set<Account>, done: set<Node>, z: Sizes, z': Sizes, n: Node, g: Node, h: Node)
    requires Valid(s) && n !in done && h in s.info && s.info[h].Group? && SweptGroup(s, conn, done, z, h)
    requires g in s.info && s.info[g].Group? && Some(g) in s.kids && n in s.kids[Some(g)]
    requires Recounted(s, conn, z, z', n, g)
    ensures SweptGroup(s, conn, done + {n}, z', h)
  {
    hide Linked, Placed, Sized, Indexed, Filed, Named, Prioritized, Typed, TotalPreorder, Present, PresentOnline,
         Mixed, CurrentOf, OnlineOf, Sound;
    OnlyThisGroup(s, n, g, h);
    MixedStep(At(s.kids, Some(h)), Present(s, conn), Present(s, s.connected), done, n);
    MixedStep(At(s.kids, Some(h)), PresentOnline(s, conn), PresentOnline(s, s.connected), done, n);
  }

  lemma OnlyThisGroup(s: State, n: Node, g: Node, h: Node)
    requires Valid(s) && g in s.info && s.info[g].Group? && Some(g) in s.kids && n in s.kids[Some(g)]
    ensures NoDup(At(s.kids, Some(h))) && (n in At(s.kids, Some(h)) <==> h == g)
    ensures n in s.info && !s.info[n].Group?
  {
    hide Linked, Placed, Sized, Indexed, Filed, Named, Prioritized, Typed, TotalPreorder;
    GroupKids(s, g);
    Soundly(s, NOTHING);
    if Some(h) in s.kids {
      KidsDistinct(s.links, s.kids, s.info, {}, Some(h));
      if n in s.kids[Some(h)] {
        OneParent(s.links, s.kids, s.info, {}, Some(g), Some(h), n);
      }
    }
  }

  /** In the end everything is counted as it should be. */
  lemma SweepEnds(s: State, conn: set<Account>, done: set<Node>, z: Sizes, s': State)
    requires Valid(s) && Swept(s, conn, done, z)
    requires forall g, n :: g in s.info && s.info[g].Group? && n in At(s.kids, Some(g)) ==> n in done
    requires forall c :: c in s.info && s.info[c].Contact? && c !in done ==> At(s.kids, Some(c)) == []
    requires s' == s.(connected := conn, sizes := z)
    ensures Sized(s')
  {
    hide Linked, Placed, Indexed, Filed, Named, Prioritized, Typed, TotalPreorder, Sized, Swept, ConnectedNodes,
         OnlineNodes, Counting, Present, PresentOnline, Mixed;
    Soundly(s, NOTHING);
    SweptTotal(s, conn, done, z);
    forall c | c in s'.info && s'.info[c].Contact? ensures ContactSized(s', c) {
      SizedHas(s, c);
      ContactAt(s, conn, done, z, c);
    }
    PresentNow(s, conn, s');
    forall g | g in s'.info && s'.info[g].Group? ensures GroupSized(s', g) {
      SizedHas(s, g);
      ContactAt(s, conn, done, z, g);
      MixedAll(s.kids[Some(g)], done, Present(s, conn), Present(s, s.connected));
      MixedAll(s.kids[Some(g)], done, PresentOnline(s, conn), PresentOnline(s, s.connected));
    }
    SizedBy(s');
  }

  lemma SizedBy(s: State)
    requires forall c :: c in s.info && s.info[c].Contact? ==> ContactSized(s, c)
    requires forall g :: g in s.info && s.info[g].Group? ==> GroupSized(s, g)
    ensures Sized(s)
  {
  }

  lemma PresentNow(s: State, conn: set<Account>, s': State)
    requires s'.info == s.info && s'.kids == s.kids && s'.env == s.env && s'.connected == conn
    requires forall c :: c in s'.info && s'.info[c].Contact? ==> ContactSized(s', c)
    ensures Counting(s'.info, conn, s'.sizes.current) == Present(s, conn)
    ensures Counting(s'.info, conn, s'.sizes.online) == PresentOnline(s, conn)
  {
    hide ConnectedNodes, OnlineNodes;
    forall n | n in s.info
      ensures n in Counting(s'.info, conn, s'.sizes.current) <==> n in Present(s, conn)
      ensures n in Counting(s'.info, conn, s'.sizes.online) <==> n in PresentOnline(s, conn)
    {
      if s.info[n].Contact? {
        assert ContactSized(s', n);
      }
    }
  }

  // -------------------------------------------------- the buddies of one contact

  /** The buddies of account `a`. */
  function Mine(info: map<Node, Info>, a: Account): set<Node> {
    set n | n in info && info[n].Buddy? && info[n].account == a
  }

  /** One count of contact `c` and its group after the first `i` buddies `l` of the contact: `k0` was counted before. */
  ghost predicate Counted(size: map<Node, int>, size': map<Node, int>, c: Node, g: Node,
                          l: seq<Node>, i: nat, new': set<Node>, old': set<Node>) {
    && i <= |l| && g in size && c in size && c != g && size[c] == Count(l, old')
    && var k := Count(l, Mixed(Elements(l[..i]), new', old'));
       size' == Recount(size, c, g, k, Bit(k > 0) - Bit(size[c] > 0))
  }

  lemma CountedStart(size: map<Node, int>, c: Node, g: Node, l: seq<Node>, new': set<Node>, old': set<Node>)
    requires g in size && c in size && c != g && size[c] == Count(l, old')
    ensures Counted(size, size, c, g, l, 0, new', old')
  {
    assert Elements(l[..0]) == {};
    MixedNone(new', old');
    assert size[c := size[c]][g := size[g]] == size;
  }

  /** A buddy that counts now and did not count before. */
  lemma CountedMore(size: map<Node, int>, size1: map<Node, int>, c: Node, g: Node, l: seq<Node>, i: nat,
                    new': set<Node>, old': set<Node>)
    requires Counted(size, size1, c, g, l, i, new', old') && i < |l| && NoDup(l) && l[i] in new' && l[i] !in old'
    ensures Counted(size, Up(size1, c, g), c, g, l, i + 1, new', old')
  {
    DistinctTail(l, i);
    InElements(l[..i], l[i]);
    MixedStep(l, new', old', Elements(l[..i]), l[i]);
    var k := Count(l, Mixed(Elements(l[..i]), new', old'));
    hide Count, Mixed, Elements;
    assert size1[c] == k && size1[g] == size[g] + Bit(k > 0) - Bit(size[c] > 0);
    assert Up(size1, c, g) == Recount(size, c, g, k + 1, Bit(k + 1 > 0) - Bit(size[c] > 0));
  }

  /** A buddy that counted before and does not count now. */
  lemma CountedLess(size: map<Node, int>, size1: map<Node, int>, c: Node, g: Node, l: seq<Node>, i: nat,
                    new': set<Node>, old': set<Node>)
    requires Counted(size, size1, c, g, l, i, new', old') && i < |l| && NoDup(l) && l[i] !in new' && l[i] in old'
    ensures Counted(size, Down(size1, c, g), c, g, l, i + 1, new', old')
  {
    DistinctTail(l, i);
    InElements(l[..i], l[i]);
    MixedStep(l, new', old', Elements(l[..i]), l[i]);
    var k := Count(l, Mixed(Elements(l[..i]), new', old'));
    assert k > 0 by { assert Count(l, Mixed(Elements(l[..i + 1]), new', old')) >= 0; }
    hide Count, Mixed, Elements;
    assert size1[c] == k && size1[g] == size[g] + 1 - Bit(size[c] > 0);
    assert Down(size1, c, g) == Recount(size, c, g, k - 1, Bit(k - 1 > 0) - Bit(size[c] > 0));
  }

  /** A buddy that counts as before. */
  lemma CountedSame(size: map<Node, int>, size1: map<Node, int>, c: Node, g: Node, l: seq<Node>, i: nat,
                    new': set<Node>, old': set<Node>)
    requires Counted(size, size1, c, g, l, i, new', old') && i < |l| && NoDup(l) && (l[i] in new' <==> l[i] in old')
    ensures Counted(size, size1, c, g, l, i + 1, new', old')
  {
    DistinctTail(l, i);
    InElements(l[..i], l[i]);
    MixedStep(l, new', old', Elements(l[..i]), l[i]);
  }

  lemma CountedEnd(size: map<Node, int>, size': map<Node, int>, c: Node, g: Node, l: seq<Node>, new': set<Node>,
                   old': set<Node>)
    requires Counted(size, size', c, g, l, |l|, new', old')
    ensures size' == Recount(size, c, g, Count(l, new'), Bit(Count(l, new') > 0) - Bit(Count(l, old') > 0))
  {
    assert l[..|l|] == l;
    MixedAll(l, Elements(l), new', old');
  }

  /** Nothing moved. */
  lemma CountedNot(size: map<Node, int>, c: Node, g: Node, l: seq<Node>, new': set<Node>, old': set<Node>)
    requires c in size && g in size && c != g && size[c] == Count(l, old')
    requires forall n :: n in l ==> (n in new' <==> n in old')
    ensures size == Recount(size, c, g, Count(l, new'), Bit(Count(l, new') > 0) - Bit(Count(l, old') > 0))
  {
    CountSame(l, old', new');
    assert size[c := size[c]][g := size[g]] == size;
  }

  /** The recount of a contact from those of its two sizes. */
  lemma RecountedBy(s: State, conn: set<Account>, z: Sizes, z': Sizes, c: Node, g: Node)
    requires c in s.info && s.info[c].Contact? && g in z.current && g in z.online && z'.total == z.total
    requires z'.current == Recount(z.current, c, g, CurrentOf(s, conn, c),
                                   Bit(CurrentOf(s, conn, c) > 0) - Bit(CurrentOf(s, s.connected, c) > 0))
    requires z'.online == Recount(z.online, c, g, OnlineOf(s, conn, c),
                                  Bit(OnlineOf(s, conn, c) > 0) - Bit(OnlineOf(s, s.connected, c) > 0))
    ensures Recounted(s, conn, z, z', c, g)
  {
    hide CurrentOf, OnlineOf;
  }

  /** Where the sweep stands before contact `c` of group `g`. */
  ghost predicate SweepAt(s: State, conn: set<Account>, done: set<Node>, z: Sizes, n: Node, g: Node) {
    && Valid(s) && Swept(s, conn, done, z) && n !in done
    && g in s.info && s.info[g].Group? && Some(g) in s.kids && n in s.kids[Some(g)]
  }

  lemma SweepFacts(s: State, conn: set<Account>, done: set<Node>, z: Sizes, c: Node, g: Node)
    requires SweepAt(s, conn, done, z, c, g)
    ensures c in s.info && (s.info[c].Contact? || s.info[c].Chat?) && c != g && g in z.current && g in z.online
    ensures s.info[c].Contact? ==>
              && Some(c) in s.kids && c in z.current && c in z.online && NoDup(s.kids[Some(c)])
              && z.current[c] == Count(s.kids[Some(c)], ConnectedNodes(s.info, s.connected))
              && z.online[c] == Count(s.kids[Some(c)], OnlineNodes(s.env, s.info, s.connected))
              && (forall b :: b in s.kids[Some(c)] ==> b in s.info && s.info[b].Buddy?)
              && c in s.priorities.buddy && c in s.priorities.valid
  {
    hide Linked, Placed, Sized, Indexed, Filed, Named, Prioritized, Typed, TotalPreorder, Present, PresentOnline,
         Mixed, ConnectedNodes, OnlineNodes, Swept;
    GroupKids(s, g);
    ContactAt(s, conn, done, z, c);
    ContactAt(s, conn, done, z, g);
    if s.info[c].Contact? {
      BuddyKids(s, {}, c) by { Soundly(s, NOTHING); }
      ContactHasPriority(s, NOTHING, c);
    }
  }

  /** Which buddies count when account `a` connects or disconnects. */
  lemma Counts(s: State, a: Account, b: Node)
    requires Valid(s) && b in s.info && s.info[b].Buddy?
    ensures b in ConnectedNodes(s.info, s.connected) <==> s.info[b].account in s.connected
    ensures b in ConnectedNodes(s.info, s.connected + {a}) <==> s.info[b].account in s.connected + {a}
    ensures b in ConnectedNodes(s.info, s.connected - {a}) <==> s.info[b].account in s.connected - {a}
    ensures b in OnlineNodes(s.env, s.info, s.connected + {a}) <==> b in OnlineNodes(s.env, s.info, s.connected)
    ensures b in OnlineNodes(s.env, s.info, s.connected - {a})
            <==> b in OnlineNodes(s.env, s.info, s.connected) && s.info[b].account != a
    ensures b in OnlineNodes(s.env, s.info, s.connected) <==> s.env.isOnline(s.info[b].presence)
  {
    hide Linked, Placed, Sized, Indexed, Filed, Named, Prioritized, TotalPreorder;
    TypedAt(s, NOTHING, b);
  }

  lemma ChatRecounted(s: State, conn: set<Account>, z: Sizes, z': Sizes, n: Node, g: Node, d: int)
    requires n in s.info && s.info[n].Chat? && g in z.current && g in z.online && z'.total == z.total
    requires d == Bit(s.info[n].account in conn) - Bit(s.info[n].account in s.connected)
    requires z'.current == z.current[g := z.current[g] + d] && z'.online == z.online[g := z.online[g] + d]
    ensures Recounted(s, conn, z, z', n, g)
  {
  }

  lemma SweepValid(s: State, conn: set<Account>, done: set<Node>, z: Sizes, n: Node, g: Node)
    requires SweepAt(s, conn, done, z, n, g)
    ensures Valid(s)
  {
  }

  lemma PrefixMine(l: seq<Node>, i: nat, mine: set<Node>)
    requires i < |l|
    ensures (exists b :: b in l[..i + 1] && b in mine) <==> l[i] in mine || exists b :: b in l[..i] && b in mine
  {
    assert l[..i + 1] == l[..i] + [l[i]];
    if l[i] in mine {
      assert l[i] in l[..i + 1];
    }
  }

  lemma CountedKeys(size: map<Node, int>, size': map<Node, int>, c: Node, g: Node, l: seq<Node>, i: nat,
                    new': set<Node>, old': set<Node>)
    requires Counted(size, size', c, g, l, i, new', old')
    ensures c in size' && g in size' && c != g
  {
  }

  lemma ConnectedContact(s: State, a: Account, done: set<Node>, z: Sizes, z': Sizes, c: Node, g: Node)
    requires SweepAt(s, s.connected + {a}, done, z, c, g) && c in s.info && s.info[c].Contact?
    requires z' == z.(current := z'.current)
    requires var l := At(s.kids, Some(c));
             Counted(z.current, z'.current, c, g, l, |l|, ConnectedNodes(s.info, s.connected + {a}),
                     ConnectedNodes(s.info, s.connected))
    ensures Recounted(s, s.connected + {a}, z, z', c, g)
  {
    hide Linked, Placed, Sized, Sound, Indexed, Filed, Named, Prioritized, Typed, TotalPreorder, Valid, Swept, Counted,
         Recounted,
         ConnectedNodes, OnlineNodes, IsConnected;
    var conn, l := s.connected + {a}, At(s.kids, Some(c));
    SweepFacts(s, conn, done, z, c, g);
    CountedEnd(z.current, z'.current, c, g, l, ConnectedNodes(s.info, conn), ConnectedNodes(s.info, s.connected));
    forall b | b in l ensures b in OnlineNodes(s.env, s.info, conn) <==> b in OnlineNodes(s.env, s.info, s.connected) {
      Counts(s, a, b);
    }
    CountedNot(z.online, c, g, l, OnlineNodes(s.env, s.info, conn), OnlineNodes(s.env, s.info, s.connected));
    RecountedBy(s, conn, z, z', c, g);
  }

  /** Both counts of contact `c` after its first `i` buddies have been looked at, `a` having disconnected. */
  ghost predicate Uncounted(s: State, a: Account, z: Sizes, current: map<Node, int>, online: map<Node, int>, c: Node,
                            g: Node, i: nat) {
    var l, conn := At(s.kids, Some(c)), s.connected - {a};
    && Valid(s) && NoDup(l) && (forall b :: b in l ==> b in s.info && s.info[b].Buddy?)
    && Counted(z.current, current, c, g, l, i, ConnectedNodes(s.info, conn), ConnectedNodes(s.info, s.connected))
    && Counted(z.online, online, c, g, l, i, OnlineNodes(s.env, s.info, conn), OnlineNodes(s.env, s.info, s.connected))
  }

  lemma UncountedStart(s: State, a: Account, z: Sizes, c: Node, g: Node)
    requires Valid(s) && c != g && c in z.current && c in z.online && g in z.current && g in z.online
    requires var l := At(s.kids, Some(c));
      && NoDup(l) && (forall b :: b in l ==> b in s.info && s.info[b].Buddy?)
      && z.current[c] == Count(l, ConnectedNodes(s.info, s.connected))
      && z.online[c] == Count(l, OnlineNodes(s.env, s.info, s.connected))
    ensures Uncounted(s, a, z, z.current, z.online, c, g, 0)
  {
    hide Valid, Counted, ConnectedNodes, OnlineNodes;
    var l, conn := At(s.kids, Some(c)), s.connected - {a};
    CountedStart(z.current, c, g, l, ConnectedNodes(s.info, conn), ConnectedNodes(s.info, s.connected));
    CountedStart(z.online, c, g, l, OnlineNodes(s.env, s.info, conn), OnlineNodes(s.env, s.info, s.connected));
  }

  lemma UncountedNext(s: State, a: Account, z: Sizes, current: map<Node, int>, online: map<Node, int>, c: Node,
                      g: Node, i: nat)
    requires Uncounted(s, a, z, current, online, c, g, i) && i < |At(s.kids, Some(c))| && a in s.connected
    ensures c in current && g in current && c in online && g in online && c != g
    ensures var b := At(s.kids, Some(c))[i];
            && b in s.info && s.info[b].Buddy?
            && (s.info[b].account != a ==> Uncounted(s, a, z, current, online, c, g, i + 1))
            && (s.info[b].account == a && !s.env.isOnline(s.info[b].presence) ==>
                  Uncounted(s, a, z, Down(current, c, g), online, c, g, i + 1))
            && (s.info[b].account == a && s.env.isOnline(s.info[b].presence) ==>
                  Uncounted(s, a, z, Down(current, c, g), Down(online, c, g), c, g, i + 1))
  {
    hide Valid, Counted, ConnectedNodes, OnlineNodes, Down;
    var l, conn := At(s.kids, Some(c)), s.connected - {a};
    var now, was := ConnectedNodes(s.info, conn), ConnectedNodes(s.info, s.connected);
    var now', was' := OnlineNodes(s.env, s.info, conn), OnlineNodes(s.env, s.info, s.connected);
    CountedKeys(z.current, current, c, g, l, i, now, was);
    CountedKeys(z.online, online, c, g, l, i, now', was');
    Counts(s, a, l[i]);
    if s.info[l[i]].account != a {
      CountedSame(z.current, current, c, g, l, i, now, was);
      CountedSame(z.online, online, c, g, l, i, now', was');
    } else {
      CountedLess(z.current, current, c, g, l, i, now, was);
      if s.env.isOnline(s.info[l[i]].presence) {
        CountedLess(z.online, online, c, g, l, i, now', was');
      } else {
        CountedSame(z.online, online, c, g, l, i, now', was');
      }
    }
  }

  lemma MineStart(l: seq<Node>, mine: set<Node>, list: seq<Node>)
    ensures Elements(l[..0]) * mine == {} && Elements(list) == Elements(list) + Elements(l[..0]) * mine
  {
  }

  lemma MineNext(l: seq<Node>, i: nat, info: map<Node, Info>, a: Account, list: seq<Node>, collected: seq<Node>)
    requires i < |l| && l[i] in info && info[l[i]].Buddy?
    requires Elements(list) == Elements(collected) + Elements(l[..i]) * Mine(info, a)
    ensures var mine, next := Mine(info, a), if l[i] in list then list else [l[i]] + list;
            && (info[l[i]].account == a ==> Elements(next) == Elements(collected) + Elements(l[..i + 1]) * mine
                                            && Elements(l[..i + 1]) * mine != {})
            && (info[l[i]].account != a ==> Elements(list) == Elements(collected) + Elements(l[..i + 1]) * mine
                                            && Elements(l[..i + 1]) * mine == Elements(l[..i]) * mine)
  {
    assert l[..i + 1] == l[..i] + [l[i]];
    assert Elements(l[..i + 1]) == Elements(l[..i]) + {l[i]};
    assert Elements([l[i]] + list) == Elements(list) + {l[i]};
    if info[l[i]].account == a {
      assert l[i] in Elements(l[..i + 1]) * Mine(info, a);
      assert Elements(l[..i + 1]) * Mine(info, a) == Elements(l[..i]) * Mine(info, a) + {l[i]};
      if l[i] in list {
        assert Elements(list) + {l[i]} == Elements(list);
      }
    } else {
      assert Elements(l[..i + 1]) * Mine(info, a) == Elements(l[..i]) * Mine(info, a);
    }
  }

  lemma DisconnectedContact(s: State, a: Account, done: set<Node>, z: Sizes, z': Sizes, c: Node, g: Node)
    requires SweepAt(s, s.connected - {a}, done, z, c, g) && c in s.info && s.info[c].Contact?
    requires z'.total == z.total && Uncounted(s, a, z, z'.current, z'.online, c, g, |At(s.kids, Some(c))|)
    ensures Recounted(s, s.connected - {a}, z, z', c, g)
  {
    hide Linked, Placed, Sized, Sound, Indexed, Filed, Named, Prioritized, Typed, TotalPreorder, Valid, Swept, Counted,
         Recounted,
         ConnectedNodes, OnlineNodes, IsConnected;
    var conn, l := s.connected - {a}, At(s.kids, Some(c));
    SweepFacts(s, conn, done, z, c, g);
    CountedEnd(z.current, z'.current, c, g, l, ConnectedNodes(s.info, conn), ConnectedNodes(s.info, s.connected));
    CountedEnd(z.online, z'.online, c, g, l, OnlineNodes(s.env, s.info, conn), OnlineNodes(s.env, s.info, s.connected));
    RecountedBy(s, conn, z, z', c, g);
  }

  // --------------------------------------------------------- the whole sweep

  /** Every contact the sweep has seen with a buddy on account `a` has its priority invalidated. */
  ghost predicate Stale(s: State, a: Account, done: set<Node>, pr: Priorities) {
    && pr.buddy == s.priorities.buddy && pr.valid.Keys == s.priorities.valid.Keys
    && forall c {:trigger pr.valid[c]} :: c in pr.valid && pr.valid[c] ==>
         s.priorities.valid[c] && (c in done ==> Elements(At(s.kids, Some(c))) * Mine(s.info, a) == {})
  }

  lemma StaleStart(s: State, a: Account)
    ensures Stale(s, a, {}, s.priorities)
  {
  }

  /** The sweep has been at `n`, and invalidated it if it had to. */
  lemma StaleNext(s: State, a: Account, done: set<Node>, pr: Priorities, n: Node, pr': Priorities)
    requires Stale(s, a, done, pr)
    requires if Elements(At(s.kids, Some(n))) * Mine(s.info, a) == {}
               then pr' == pr || (n in pr.valid && pr' == pr.(valid := pr.valid[n := false]))
             else n in pr.valid && pr' == pr.(valid := pr.valid[n := false])
    ensures Stale(s, a, done + {n}, pr')
  {
  }

  /** The children of the groups `l`. */
  function ChildrenOf(s: State, l: seq<Node>): set<Node> {
    if l == [] then {} else ChildrenOf(s, l[..|l| - 1]) + Elements(At(s.kids, Some(l[|l| - 1])))
  }

  lemma ChildrenNext(s: State, l: seq<Node>, i: nat)
    requires i < |l|
    ensures ChildrenOf(s, l[..i + 1]) == ChildrenOf(s, l[..i]) + Elements(At(s.kids, Some(l[i])))
  {
    assert l[..i + 1][..i] == l[..i];
  }

  lemma {:induction false} ChildrenAre(s: State, l: seq<Node>, n: Node)
    ensures n in ChildrenOf(s, l) <==> exists g :: g in l && n in At(s.kids, Some(g))
  {
    if l != [] {
      ChildrenAre(s, l[..|l| - 1], n);
      assert l == l[..|l| - 1] + [l[|l| - 1]];
    }
  }

  /** The sweep has not seen the children of the next group yet. */
  lemma ChildrenApart(s: State, l: seq<Node>, i: nat, n: Node)
    requires Valid(s) && None in s.kids && l == s.kids[None] && i < |l| && n in At(s.kids, Some(l[i]))
    ensures n !in ChildrenOf(s, l[..i])
  {
    hide Linked, Placed, Sized, Indexed, Filed, Named, Prioritized, Typed, TotalPreorder;
    ChildrenAre(s, l[..i], n);
    HeadOf(s, None);
    if g :| g in l[..i] && n in At(s.kids, Some(g)) {
      OneParent(s.links, s.kids, s.info, {}, Some(g), Some(l[i]), n) by { Soundly(s, NOTHING); }
      assert false;
    }
  }

  /** When it has been at all groups it has seen every contact that has buddies. */
  lemma SweptAll(s: State)
    requires Valid(s) && None in s.kids
    ensures var done := ChildrenOf(s, s.kids[None]);
            && (forall g, n :: g in s.info && s.info[g].Group? && n in At(s.kids, Some(g)) ==> n in done)
            && (forall c :: c in s.info && s.info[c].Contact? && c !in done ==> At(s.kids, Some(c)) == [])
  {
    hide Linked, Placed, Sized, Indexed, Filed, Named, Prioritized, Typed, TotalPreorder, ChildrenOf;
    var done := ChildrenOf(s, s.kids[None]);
    forall g, n | g in s.info && s.info[g].Group? && n in At(s.kids, Some(g)) ensures n in done {
      GroupListed(s, g);
      ChildrenAre(s, s.kids[None], n);
    }
    forall c | c in s.info && s.info[c].Contact? && c !in done ensures At(s.kids, Some(c)) == [] {
      ChildStands(s, c);
      if s.links.parent[c].Some? {
        ChildrenAre(s, s.kids[None], c);
      }
    }
  }

  /** A child that has been recounted in group `g`. */
  lemma ChatCounts(s: State, conn: set<Account>, done: set<Node>, z: Sizes, z': Sizes, n: Node, g: Node, d: int)
    requires SweepAt(s, conn, done, z, n, g) && n in s.info && s.info[n].Chat?
    requires d == Bit(s.info[n].account in conn) - Bit(s.info[n].account in s.connected)
    requires g in z.current && g in z.online
    requires if d == 0 then z' == z
             else z' == z.(current := z.current[g := z.current[g] + d], online := z.online[g := z.online[g] + d])
    ensures Swept(s, conn, done + {n}, z')
  {
    hide Linked, Placed, Sized, Indexed, Filed, Named, Prioritized, Typed, TotalPreorder, Swept;
    assert z.current[g := z.current[g] + 0] == z.current && z.online[g := z.online[g] + 0] == z.online;
    ChatRecounted(s, conn, z, z', n, g, d);
    SweepsOn(s, conn, done, z, z', n, g);
  }

  /** The buddies `off` have gone offline. */
  function Offlined(info: map<Node, Info>, off: set<Node>, p: Presence): map<Node, Info> {
    map n | n in info :: if n in off && info[n].Buddy? then info[n].(presence := p) else info[n]
  }

  /** A contact whose priority is still valid has no buddy on the account. */
  lemma NoneMine(s: State, a: Account, done: set<Node>, pr: Priorities, c: Node)
    requires Stale(s, a, done, pr) && c in pr.valid && pr.valid[c] && (c !in done ==> At(s.kids, Some(c)) == [])
    ensures s.priorities.valid[c] && forall n :: n in At(s.kids, Some(c)) ==> n !in Mine(s.info, a)
  {
    hide Mine;
    forall n | n in At(s.kids, Some(c)) ensures n !in Mine(s.info, a) {
      assert n in Elements(At(s.kids, Some(c)));
      assert n in Mine(s.info, a) ==> n in Elements(At(s.kids, Some(c))) * Mine(s.info, a);
    }
  }

  /** All nodes but those on account `a` are what they were. */
  lemma SweptPriority(s: State, a: Account, done: set<Node>, s': State)
    requires Valid(s) && Stale(s, a, done, s'.priorities) && s'.env == s.env && s'.kids == s.kids
    requires SameKinds(s.info, s'.info)
    requires forall c :: c in s.info && s.info[c].Contact? && c !in done ==> At(s.kids, Some(c)) == []
    requires forall n :: n in s.info && n !in Mine(s.info, a) ==> s'.info[n] == s.info[n]
    requires s'.connected == s.connected + {a} || s'.connected == s.connected - {a}
    ensures Prioritized(s', {})
  {
    hide Linked, Placed, Sized, Indexed, Filed, Named, Prioritized, Typed, TotalPreorder, IsBest, Stale, Sound;
    forall c | c in s'.info && s'.info[c].Contact? ensures ContactPrioritized(s', c) {
      ContactSwept(s, a, done, s', c);
    }
    PrioritizedBy(s');
  }

  lemma PrioritizedBy(s: State)
    requires forall c :: c in s.info && s.info[c].Contact? ==> ContactPrioritized(s, c)
    ensures Prioritized(s, {})
  {
  }

  lemma ContactSwept(s: State, a: Account, done: set<Node>, s': State, c: Node)
    requires Valid(s) && Stale(s, a, done, s'.priorities) && s'.env == s.env && s'.kids == s.kids && c in s.info
    requires s.info[c].Contact?
    requires c !in done ==> At(s.kids, Some(c)) == []
    requires forall n :: n in s.info && n !in Mine(s.info, a) ==> n in s'.info && s'.info[n] == s.info[n]
    requires s'.connected == s.connected + {a} || s'.connected == s.connected - {a}
    ensures ContactPrioritized(s', c)
  {
    hide Linked, Placed, Sized, Indexed, Filed, Named, Typed, TotalPreorder, IsBest, Spelled;
    Soundly(s, NOTHING);
    assert ContactPrioritized(s, c);
    hide Prioritized;
    if s'.priorities.valid[c] {
      NoneMine(s, a, done, s'.priorities, c);
      BuddyKids(s, {}, c);
      BestSame(s.env, s.info, s'.info, s.connected, s'.connected, s.kids[Some(c)], s.priorities.buddy[c]);
    }
  }

  // ------------------------------------------------------------ before and after

  /** Account `a` has connected. */
  lemma ConnectedValid(s: State, a: Account, s': State)
    requires Valid(s) && None in s.kids && Swept(s, s.connected + {a}, ChildrenOf(s, s.kids[None]), s'.sizes)
    requires Stale(s, a, ChildrenOf(s, s.kids[None]), s'.priorities)
    requires s' == s.(connected := s.connected + {a}, sizes := s'.sizes, priorities := s'.priorities)
    ensures Valid(s')
  {
    hide Linked, Placed, Sized, Indexed, Filed, Named, Prioritized, TotalPreorder, Swept, Stale, ChildrenOf;
    Soundly(s, NOTHING);
    var done := ChildrenOf(s, s.kids[None]);
    SweptAll(s);
    SweepEnds(s, s.connected + {a}, done, s'.sizes, s.(connected := s.connected + {a}, sizes := s'.sizes));
    SizedSame(s.(connected := s.connected + {a}, sizes := s'.sizes), s');
    SweptPriority(s, a, done, s');
    FiledSame(s, s', NOTHING.adrift + NOTHING.unfiled, {});
    ValidBy(s');
  }

  lemma OfflinedKinds(s: State, a: Account, off: set<Node>)
    requires off <= Mine(s.info, a)
    ensures var info' := Offlined(s.info, off, s.env.offline);
            && SameKinds(s.info, info') && (forall n :: n in s.info && n !in Mine(s.info, a) ==> info'[n] == s.info[n])
            && OnlineNodes(s.env, info', s.connected - {a}) == OnlineNodes(s.env, s.info, s.connected - {a})
  {
  }

  lemma OfflinedTyped(s: State, a: Account, off: set<Node>)
    requires Typed(s.env, s.info, s.links.parent, s.tables.cache, s.connected)
    requires forall b ::
               (b in s.info && s.info[b].Buddy? && s.info[b].account == a
                && b in s.links.parent && s.links.parent[b].Some?) ==> b in off
    ensures Typed(s.env, Offlined(s.info, off, s.env.offline), s.links.parent, s.tables.cache, s.connected - {a})
  {
  }

  lemma OfflinedFiled(s: State, off: set<Node>, s': State)
    requires Filed(s, {}) && s'.info == Offlined(s.info, off, s.env.offline)
    requires s'.env == s.env && s'.links == s.links && s'.keyed == s.keyed
    ensures Filed(s', {})
  {
    forall d ensures BuddyFiled(s', {}, d) {
      FiledAt(s, {}, d);
    }
  }

  /** The buddies of account `a` in the tree are those in the contacts of the tree. */
  function Reached(s: State, a: Account, done: set<Node>): set<Node> {
    set b | b in Mine(s.info, a) && b in s.links.parent && s.links.parent[b].Some? && s.links.parent[b].value in done
  }

  /** Account `a` has disconnected. */
  lemma DisconnectedValid(s: State, a: Account, s': State, off: set<Node>)
    requires Valid(s) && None in s.kids && Swept(s, s.connected - {a}, ChildrenOf(s, s.kids[None]), s'.sizes)
    requires Stale(s, a, ChildrenOf(s, s.kids[None]), s'.priorities)
    requires off == Reached(s, a, ChildrenOf(s, s.kids[None]))
    requires s' == s.(connected := s.connected - {a}, sizes := s'.sizes, priorities := s'.priorities,
                      info := Offlined(s.info, off, s.env.offline))
    ensures Valid(s')
  {
    hide Linked, Placed, Sized, Indexed, Filed, Named, Prioritized, TotalPreorder, Swept, Stale, ChildrenOf, Offlined,
         Typed, OnlineNodes, SameKinds;
    Soundly(s, NOTHING);
    var done := ChildrenOf(s, s.kids[None]);
    SweptAll(s);
    var s1 := s.(connected := s.connected - {a}, sizes := s'.sizes);
    SweepEnds(s, s.connected - {a}, done, s'.sizes, s1);
    OfflinedKinds(s, a, off);
    SizedKinds(s1, s');
    SweptPriority(s, a, done, s');
    assert NOTHING.adrift + NOTHING.unfiled == {};
    OfflinedFiled(s, off, s');
    PlacedKinds(s.links, s.kids, s.info, s'.info);
    NamedKinds(s.env, s.tables.groups, s.kids[None], s.info, s'.info);
    AllReached(s, a);
    OfflinedTyped(s, a, off);
    ValidBy(s');
  }

  lemma AllReached(s: State, a: Account)
    requires Valid(s) && None in s.kids
    ensures forall b :: b in s.info && s.info[b].Buddy? && s.info[b].account == a && b in s.links.parent
              && s.links.parent[b].Some?
              ==> b in Reached(s, a, ChildrenOf(s, s.kids[None]))
  {
    hide Linked, Placed, Sized, Indexed, Filed, Named, Prioritized, Typed, TotalPreorder, ChildrenOf;
    var done := ChildrenOf(s, s.kids[None]);
    SweptAll(s);
    forall b | b in s.info && s.info[b].Buddy? && s.info[b].account == a && b in s.links.parent
             && s.links.parent[b].Some?
      ensures b in Reached(s, a, done)
    {
      BuddyStands(s, NOTHING, b);
      var c := s.links.parent[b].value;
      assert s.links.parent[c].value in s.info && c in At(s.kids, s.links.parent[c]);
    }
  }

  // ----------------------------------------------------------- along the lists

  lemma ElementsNone(l: seq<Node>, done: set<Node>)
    ensures Elements(l[..0]) == {} && done + Elements(l[..0]) == done
  {
  }

  lemma ElementsNext(l: seq<Node>, i: nat, done: set<Node>)
    requires NoDup(l) && i < |l| && done !! Elements(l)
    ensures done + Elements(l[..i]) + {l[i]} == done + Elements(l[..i + 1])
    ensures l[i] !in done + Elements(l[..i])
  {
    DistinctTail(l, i);
    assert l[i] in Elements(l);
  }

  lemma AnyMine(l: seq<Node>, mine: set<Node>)
    ensures (exists b :: b in l && b in mine) <==> Elements(l) * mine != {}
  {
    if b :| b in l && b in mine {
      assert b in Elements(l) * mine;
    } else {
      assert Elements(l) * mine == {};
    }
  }

  lemma StaleHas(s: State, a: Account, done: set<Node>, pr: Priorities, c: Node)
    requires Stale(s, a, done, pr) && c in s.priorities.buddy && c in s.priorities.valid
    ensures c in pr.buddy && c in pr.valid
  {
  }

  lemma ChildlessChat(s: State, n: Node, g: Node)
    requires Valid(s) && g in s.info && s.info[g].Group? && Some(g) in s.kids && n in s.kids[Some(g)]
    ensures n in s.info
              && (s.info[n].Chat? ==> forall mine: set<Node> {:trigger Elements(At(s.kids, Some(n))) * mine} ::
                                                  Elements(At(s.kids, Some(n))) * mine == {})
  {
    hide Linked, Placed, Sized, Indexed, Filed, Named, Prioritized, Typed, TotalPreorder;
    GroupKids(s, g);
  }

  lemma ChildrenNone(s: State, l: seq<Node>)
    ensures ChildrenOf(s, l[..0]) == {}
  {
  }

  lemma ChildrenDisjoint(s: State, l: seq<Node>, i: nat)
    requires Valid(s) && None in s.kids && l == s.kids[None] && i < |l|
    ensures ChildrenOf(s, l[..i]) !! Elements(At(s.kids, Some(l[i])))
  {
    hide Valid, ChildrenOf;
    forall n | n in Elements(At(s.kids, Some(l[i]))) ensures n !in ChildrenOf(s, l[..i]) {
      ChildrenApart(s, l, i, n);
    }
  }

  lemma ReachedNone(s: State, a: Account)
    ensures Reached(s, a, {}) == {} && Elements([]) == {}
  {
  }

  /** The buddies of one more child. */
  lemma ReachedNext(s: State, a: Account, done: set<Node>, n: Node, g: Node)
    requires Valid(s) && g in s.info && s.info[g].Group? && Some(g) in s.kids && n in s.kids[Some(g)]
    ensures Reached(s, a, done + {n}) == Reached(s, a, done) + Elements(At(s.kids, Some(n))) * Mine(s.info, a)
    ensures n in s.info && s.info[n].Chat? ==> Reached(s, a, done + {n}) == Reached(s, a, done)
  {
    hide Linked, Placed, Sized, Indexed, Filed, Named, Prioritized, Typed, TotalPreorder;
    GroupKids(s, g);
    forall b | b in s.info && s.info[b].Buddy?
      ensures b in s.links.parent && s.links.parent[b] == Some(n) <==> b in At(s.kids, Some(n))
    {
      if b in s.links.parent && s.links.parent[b] == Some(n) {
        BuddyStands(s, NOTHING, b);
      }
      if b in At(s.kids, Some(n)) {
        ChildOf(s.links, s.kids, s.info, {}, Some(n), b) by { Soundly(s, NOTHING); }
      }
    }
    assert Reached(s, a, done + {n}) == Reached(s, a, done) + Elements(At(s.kids, Some(n))) * Mine(s.info, a);
  }

  lemma ReachedBuddies(s: State, a: Account, done: set<Node>, list: seq<Node>)
    requires Elements(list) == Reached(s, a, done)
    ensures forall b :: b in list ==> b in s.info && s.info[b].Buddy?
  {
    forall b | b in list ensures b in s.info && s.info[b].Buddy? {
      assert b in Elements(list);
    }
  }

  /** The buddies of the tree on account `a` are offline, and all else about the nodes is as it was. */
  ghost predicate WentOffline(s: State, s': State, a: Account) {
    && s'.info.Keys == s.info.Keys
    && forall n :: n in s.info ==>
         s'.info[n] == if s.info[n].Buddy? && s.info[n].account == a && n in s.links.parent && s.links.parent[n].Some?
                       then s.info[n].(presence := s.env.offline) else s.info[n]
  }

  lemma OfflinedIs(s: State, s': State, a: Account)
    requires Valid(s) && None in s.kids
    requires s'.info == Offlined(s.info, Reached(s, a, ChildrenOf(s, s.kids[None])), s.env.offline)
    ensures WentOffline(s, s', a)
  {
    hide Valid, ChildrenOf;
    AllReached(s, a);
  }
}
