/** How the cached sizes follow the tree, step by step. */
module BlistSizes {
  import opened BlistSeq
  import opened Options
  import opened BlistModel
  import opened BlistTree

  // ---------------------------------------------------------- the transitions

  predicate HasSizes(z: Sizes, n: Node) {
    n in z.total && n in z.current && n in z.online
  }

  /** One count of contact `c` goes down by one; when it reaches 0 so does the count of its group. */
  function Down(size: map<Node, int>, c: Node, g: Node): map<Node, int>
    requires c in size && g in size
  {
    var size1 := size[c := size[c] - 1];
    if size1[c] == 0 then size1[g := size1[g] - 1] else size1
  }

  function Up(size: map<Node, int>, c: Node, g: Node): map<Node, int>
    requires c in size && g in size
  {
    var size1 := size[c := size[c] + 1];
    if size1[c] == 1 then size1[g := size1[g] + 1] else size1
  }

  /** A buddy leaves contact `c` of group `g`. */
  function BuddyOut(z: Sizes, online: bool, connected: bool, c: Node, g: Node): Sizes
    requires HasSizes(z, c) && HasSizes(z, g)
  {
    Sizes(z.total[c := z.total[c] - 1],
          if connected then Down(z.current, c, g) else z.current,
          if online then Down(z.online, c, g) else z.online)
  }

  /** A buddy joins contact `c` of group `g`. */
  function BuddyIn(z: Sizes, online: bool, connected: bool, c: Node, g: Node): Sizes
    requires HasSizes(z, c) && HasSizes(z, g)
  {
    Sizes(z.total[c := z.total[c] + 1],
          if connected then Up(z.current, c, g) else z.current,
          if online then Up(z.online, c, g) else z.online)
  }

  function Add(size: map<Node, int>, n: Node, d: int): map<Node, int>
    requires n in size
  {
    size[n := size[n] + d]
  }

  /** A contact or chat leaves (d = -1) or joins (d = 1) group `g`. */
  function ChildMoves(z: Sizes, online: bool, connected: bool, g: Node, d: int): Sizes
    requires HasSizes(z, g)
  {
    Sizes(Add(z.total, g, d),
          if connected then Add(z.current, g, d) else z.current,
          if online then Add(z.online, g, d) else z.online)
  }

  // ------------------------------------------------------------------- counts

  /** If two sets differ only on `c`, the counts differ by what `c` makes of it. */
  lemma CountShift(l: seq<Node>, a: set<Node>, a': set<Node>, c: Node)
    requires NoDup(l)
    requires forall n :: n in l && n != c ==> (n in a <==> n in a')
    ensures Count(l, a') == Count(l, a) + (if c in l && c in a' && c !in a then 1 else 0)
                                        - (if c in l && c in a && c !in a' then 1 else 0)
  {
    if c in a' && c !in a {
      CountGrows(l, a, c);
      CountSame(l, a', a + {c});
    } else if c in a && c !in a' {
      CountGrows(l, a', c);
      CountSame(l, a, a' + {c});
    } else {
      CountSame(l, a, a');
    }
  }

  // -------------------------------------------------------- buddies come and go

  /** Contact `c` stands in group `g`. */
  ghost predicate Siting(s: State, adrift: set<Node>, c: Node, g: Node) {
    && Placed(s.links, s.kids, s.info, adrift)
    && c in s.info && s.info[c].Contact? && Some(c) in s.kids
    && g in s.info && s.info[g].Group? && Some(g) in s.kids && c in s.kids[Some(g)]
  }

  lemma SizedHas(s: State, n: Node)
    requires Sized(s) && n in s.info && (s.info[n].Contact? || s.info[n].Group?)
    ensures HasSizes(s.sizes, n) && Some(n) in s.kids
    ensures s.info[n].Contact? ==> ContactSized(s, n)
    ensures s.info[n].Group? ==> GroupSized(s, n)
  {
    assert s.info[n].Contact? ==> ContactSized(s, n);
    assert s.info[n].Group? ==> GroupSized(s, n);
  }

  /** Children of a group that are contacts have sizes. */
  lemma GroupKid(s: State, adrift: set<Node>, g: Node, n: Node)
    requires Placed(s.links, s.kids, s.info, adrift) && Sized(s)
    requires g in s.info && s.info[g].Group? && Some(g) in s.kids && n in s.kids[Some(g)]
    ensures n in s.info && (s.info[n].Contact? || s.info[n].Chat?) && n != g
    ensures s.info[n].Contact? ==> HasSizes(s.sizes, n)
  {
    ChildOf(s.links, s.kids, s.info, adrift, Some(g), n);
    if s.info[n].Contact? {
      SizedHas(s, n);
    }
  }

  /** Between `s` and `s'` only contact `c`, its buddies' presences, and the sizes of `c` and `g` change. */
  ghost predicate OnlyWithin(s: State, s': State, c: Node, g: Node) {
    && s'.connected == s.connected && s'.env == s.env && s'.drift == s.drift
    && Some(c) in s.kids && Some(c) in s'.kids && s'.kids == s.kids[Some(c) := s'.kids[Some(c)]]
    && s'.info.Keys == s.info.Keys
    && (forall n :: n in s.info && n !in s.kids[Some(c)] ==> s'.info[n] == s.info[n])
    && (forall n :: n in s.info && n in s.kids[Some(c)] ==> s.info[n].Buddy? && s'.info[n].Buddy?)
    && s'.sizes.total.Keys == s.sizes.total.Keys && s'.sizes.current.Keys == s.sizes.current.Keys
    && s'.sizes.online.Keys == s.sizes.online.Keys
    && forall n :: n != c && n != g && HasSizes(s.sizes, n) ==>
         s'.sizes.total[n] == s.sizes.total[n] && s'.sizes.current[n] == s.sizes.current[n]
         && s'.sizes.online[n] == s.sizes.online[n]
  }

  /** What group `g` counts goes with contact `c` turning positive or zero. */
  predicate Follows(size: map<Node, int>, size': map<Node, int>, c: Node, g: Node)
    requires c in size && g in size && c in size' && g in size'
  {
    size'[g] == size[g] + (if size'[c] > 0 && size[c] <= 0 then 1 else 0)
                        - (if size[c] > 0 && size'[c] <= 0 then 1 else 0)
  }

  lemma CountingAt(info: map<Node, Info>, connected: set<Account>, size: map<Node, int>, n: Node)
    ensures n in Counting(info, connected, size) <==>
              n in info && ((info[n].Contact? && n in size && size[n] > 0)
                            || (info[n].Chat? && IsConnected(info, connected, n)))
  {
  }

  /** A group without contact `c` counts the same before and after. */
  lemma OtherGroup(s: State, s': State, adrift: set<Node>, c: Node, g: Node, x: Node)
    requires Siting(s, adrift, c, g) && Sized(s) && OnlyWithin(s, s', c, g)
    requires x in s.info && s.info[x].Group? && x != g
    ensures GroupSized(s', x)
  {
    hide Counting;
    SizedHas(s, x);
    var l := s.kids[Some(x)];
    var a, a' := Counting(s.info, s.connected, s.sizes.current), Counting(s'.info, s.connected, s'.sizes.current);
    var b, b' := Counting(s.info, s.connected, s.sizes.online), Counting(s'.info, s.connected, s'.sizes.online);
    forall n | n in l ensures (n in a <==> n in a') && (n in b <==> n in b') {
      if n == c {
        OneParent(s.links, s.kids, s.info, adrift, Some(x), Some(g), c);
      } else {
        SameKid(s, s', adrift, c, g, x, n);
      }
    }
    CountSame(l, a, a');
    CountSame(l, b, b');
  }

  lemma SameKid(s: State, s': State, adrift: set<Node>, c: Node, g: Node, x: Node, n: Node)
    requires Siting(s, adrift, c, g) && Sized(s) && OnlyWithin(s, s', c, g)
    requires x in s.info && s.info[x].Group? && Some(x) in s.kids && n in s.kids[Some(x)] && n != c
    ensures n in Counting(s.info, s.connected, s.sizes.current)
            <==> n in Counting(s'.info, s.connected, s'.sizes.current)
    ensures n in Counting(s.info, s.connected, s.sizes.online) <==> n in Counting(s'.info, s.connected, s'.sizes.online)
  {
    GroupKid(s, adrift, x, n);
    if n in s.kids[Some(c)] {
      OneParent(s.links, s.kids, s.info, adrift, Some(x), Some(c), n);
    }
  }

  lemma ThisGroup(s: State, s': State, adrift: set<Node>, c: Node, g: Node)
    requires Siting(s, adrift, c, g) && Sized(s) && OnlyWithin(s, s', c, g)
    requires HasSizes(s.sizes, c) && HasSizes(s.sizes, g) && s'.sizes.total[g] == s.sizes.total[g]
    requires Follows(s.sizes.current, s'.sizes.current, c, g) && Follows(s.sizes.online, s'.sizes.online, c, g)
    ensures GroupSized(s', g)
  {
    hide Counting;
    SizedHas(s, g);
    var l := s.kids[Some(g)];
    KidsDistinct(s.links, s.kids, s.info, adrift, Some(g));
    var a, a' := Counting(s.info, s.connected, s.sizes.current), Counting(s'.info, s.connected, s'.sizes.current);
    var b, b' := Counting(s.info, s.connected, s.sizes.online), Counting(s'.info, s.connected, s'.sizes.online);
    forall n | n in l && n != c ensures (n in a <==> n in a') && (n in b <==> n in b') {
      SameKid(s, s', adrift, c, g, g, n);
    }
    assert s'.info[c].Contact?;
    CountingAt(s.info, s.connected, s.sizes.current, c);
    CountingAt(s'.info, s.connected, s'.sizes.current, c);
    CountingAt(s.info, s.connected, s.sizes.online, c);
    CountingAt(s'.info, s.connected, s'.sizes.online, c);
    CountShift(l, a, a', c);
    CountShift(l, b, b', c);
  }

  lemma OtherContact(s: State, s': State, adrift: set<Node>, c: Node, g: Node, x: Node)
    requires Siting(s, adrift, c, g) && Sized(s) && OnlyWithin(s, s', c, g)
    requires x in s.info && s.info[x].Contact? && x != c
    ensures ContactSized(s', x)
  {
    SizedHas(s, x);
    var l := s.kids[Some(x)];
    forall n | n in l ensures n in s.info && s'.info[n] == s.info[n] {
      ChildOf(s.links, s.kids, s.info, adrift, Some(x), n);
      if n in s.kids[Some(c)] {
        OneParent(s.links, s.kids, s.info, adrift, Some(x), Some(c), n);
      }
    }
    CountSame(l, ConnectedNodes(s.info, s.connected), ConnectedNodes(s'.info, s.connected));
    CountSame(l, OnlineNodes(s.env, s.info, s.connected), OnlineNodes(s.env, s'.info, s.connected));
  }

  /** If the contact's sizes are right and the group follows them, all sizes are right. */
  lemma SizedWithin(s: State, s': State, adrift: set<Node>, c: Node, g: Node)
    requires Siting(s, adrift, c, g) && Sized(s) && OnlyWithin(s, s', c, g)
    requires HasSizes(s.sizes, c) && HasSizes(s.sizes, g) && s'.sizes.total[g] == s.sizes.total[g]
    requires Follows(s.sizes.current, s'.sizes.current, c, g) && Follows(s.sizes.online, s'.sizes.online, c, g)
    requires ContactSized(s', c)
    ensures Sized(s')
  {
    forall x | x in s'.info && s'.info[x].Contact? ensures ContactSized(s', x) {
      assert x !in s.kids[Some(c)];
      if x != c {
        OtherContact(s, s', adrift, c, g, x);
      }
    }
    forall x | x in s'.info && s'.info[x].Group? ensures GroupSized(s', x) {
      assert x !in s.kids[Some(c)];
      if x != g {
        OtherGroup(s, s', adrift, c, g, x);
      } else {
        ThisGroup(s, s', adrift, c, g);
      }
    }
  }

  // -------------------------------------------------------- buddies come and go

  lemma OneSize(size: map<Node, int>, c: Node, g: Node)
    requires c in size && g in size && c != g && size[c] >= 0
    ensures Up(size, c, g)[c] == size[c] + 1 && Follows(size, Up(size, c, g), c, g)
    ensures size[c] >= 1 ==> Down(size, c, g)[c] == size[c] - 1 && Follows(size, Down(size, c, g), c, g)
    ensures Down(size, c, g).Keys == Up(size, c, g).Keys == size.Keys
    ensures forall n :: n in size && n != c && n != g ==> Up(size, c, g)[n] == Down(size, c, g)[n] == size[n]
  {
  }

  lemma BuddyKids(s: State, adrift: set<Node>, c: Node)
    requires Placed(s.links, s.kids, s.info, adrift) && c in s.info && s.info[c].Contact? && Some(c) in s.kids
    ensures forall n :: n in s.kids[Some(c)] ==> n in s.info && s.info[n].Buddy?
    ensures NoDup(s.kids[Some(c)])
  {
    forall n | n in s.kids[Some(c)] ensures n in s.info && s.info[n].Buddy? {
      ChildOf(s.links, s.kids, s.info, adrift, Some(c), n);
    }
    KidsDistinct(s.links, s.kids, s.info, adrift, Some(c));
  }

  function AfterBuddyOut(s: State, b: Node, c: Node, g: Node): State
    requires HasSizes(s.sizes, c) && HasSizes(s.sizes, g) && Some(c) in s.kids
  {
    s.(kids := s.kids[Some(c) := Without(s.kids[Some(c)], b)],
       sizes := BuddyOut(s.sizes, IsOnline(s.env, s.info, s.connected, b), IsConnected(s.info, s.connected, b), c, g))
  }

  function AfterBuddyIn(s: State, b: Node, a: Ptr, c: Node, g: Node): State
    requires HasSizes(s.sizes, c) && HasSizes(s.sizes, g) && Some(c) in s.kids
  {
    s.(kids := s.kids[Some(c) := InsertAfter(s.kids[Some(c)], a, b)],
       sizes := BuddyIn(s.sizes, IsOnline(s.env, s.info, s.connected, b), IsConnected(s.info, s.connected, b), c, g))
  }

  lemma BuddyOutContact(s: State, b: Node, c: Node, g: Node)
    requires ContactSized(s, c) && HasSizes(s.sizes, g) && c != g && NoDup(s.kids[Some(c)]) && b in s.kids[Some(c)]
    ensures var s' := AfterBuddyOut(s, b, c, g);
            && ContactSized(s', c)
            && Follows(s.sizes.current, s'.sizes.current, c, g) && Follows(s.sizes.online, s'.sizes.online, c, g)
            && s'.sizes.total[g] == s.sizes.total[g]
  {
    var l := s.kids[Some(c)];
    CountWithout(l, b, ConnectedNodes(s.info, s.connected));
    CountWithout(l, b, OnlineNodes(s.env, s.info, s.connected));
    WithoutKeeps(l, b);
    OneSize(s.sizes.current, c, g);
    OneSize(s.sizes.online, c, g);
    hide Down, Without;
  }

  lemma BuddyInContact(s: State, b: Node, a: Ptr, c: Node, g: Node)
    requires ContactSized(s, c) && HasSizes(s.sizes, g) && c != g && NoDup(s.kids[Some(c)]) && b !in s.kids[Some(c)]
    requires (a.Some? ==> a.value in s.kids[Some(c)]) && b in s.info && s.info[b].Buddy?
    ensures var s' := AfterBuddyIn(s, b, a, c, g);
            && ContactSized(s', c)
            && Follows(s.sizes.current, s'.sizes.current, c, g) && Follows(s.sizes.online, s'.sizes.online, c, g)
            && s'.sizes.total[g] == s.sizes.total[g]
  {
    var l := s.kids[Some(c)];
    CountInsert(l, a, b, ConnectedNodes(s.info, s.connected));
    CountInsert(l, a, b, OnlineNodes(s.env, s.info, s.connected));
    InsertKeeps(l, a, b);
    OneSize(s.sizes.current, c, g);
    OneSize(s.sizes.online, c, g);
    hide Up, InsertAfter;
  }

  lemma BuddyOutElsewhere(s: State, b: Node, c: Node, g: Node)
    requires HasSizes(s.sizes, c) && HasSizes(s.sizes, g) && Some(c) in s.kids && c != g
    requires forall n :: n in s.kids[Some(c)] ==> n in s.info && s.info[n].Buddy?
    ensures OnlyWithin(s, AfterBuddyOut(s, b, c, g), c, g)
  {
    hide Without;
  }

  lemma BuddyInElsewhere(s: State, b: Node, a: Ptr, c: Node, g: Node)
    requires HasSizes(s.sizes, c) && HasSizes(s.sizes, g) && Some(c) in s.kids && c != g
    requires forall n :: n in s.kids[Some(c)] ==> n in s.info && s.info[n].Buddy?
    ensures OnlyWithin(s, AfterBuddyIn(s, b, a, c, g), c, g)
  {
    hide InsertAfter;
  }

  /** When buddy `b` leaves, counting down its contact, and its group with it, keeps all sizes right. */
  lemma BuddyOutSized(s: State, adrift: set<Node>, b: Node, c: Node, g: Node)
    requires Siting(s, adrift, c, g) && Sized(s) && b in s.kids[Some(c)]
    ensures HasSizes(s.sizes, c) && HasSizes(s.sizes, g)
    ensures Sized(AfterBuddyOut(s, b, c, g))
  {
    SizedHas(s, c);
    SizedHas(s, g);
    BuddyKids(s, adrift, c);
    hide Sized, ContactSized, AfterBuddyOut, OnlyWithin, Follows;
    BuddyOutContact(s, b, c, g);
    BuddyOutElsewhere(s, b, c, g);
    SizedWithin(s, AfterBuddyOut(s, b, c, g), adrift, c, g);
  }

  /** When buddy `b` arrives behind `a`, counting up its contact, and its group with it, keeps all sizes right. */
  lemma BuddyInSized(s: State, adrift: set<Node>, b: Node, a: Ptr, c: Node, g: Node)
    requires Siting(s, adrift, c, g) && Sized(s) && b !in s.kids[Some(c)] && (a.Some? ==> a.value in s.kids[Some(c)])
    requires b in s.info && s.info[b].Buddy?
    ensures HasSizes(s.sizes, c) && HasSizes(s.sizes, g)
    ensures Sized(AfterBuddyIn(s, b, a, c, g))
  {
    SizedHas(s, c);
    SizedHas(s, g);
    BuddyKids(s, adrift, c);
    hide Sized, ContactSized, AfterBuddyIn, OnlyWithin, Follows;
    BuddyInContact(s, b, a, c, g);
    BuddyInElsewhere(s, b, a, c, g);
    SizedWithin(s, AfterBuddyIn(s, b, a, c, g), adrift, c, g);
  }

  // ------------------------------------------- contacts and chats come and go

  predicate CountsOnline(s: State, n: Node) {
    n in Counting(s.info, s.connected, s.sizes.online)
  }

  predicate CountsCurrent(s: State, n: Node) {
    n in Counting(s.info, s.connected, s.sizes.current)
  }

  /** The children of group `g` become `l`, its sizes move by `d` for child `n`, its total drifts by `e`. */
  function AfterChild(s: State, n: Node, g: Node, l: seq<Node>, d: int): State
    requires HasSizes(s.sizes, g)
  {
    s.(kids := s.kids[Some(g) := l],
       sizes := ChildMoves(s.sizes, CountsOnline(s, n), CountsCurrent(s, n), g, d))
  }

  lemma ChildGroup(s: State, adrift: set<Node>, g: Node, s': State, n: Node, d: int)
    requires Placed(s.links, s.kids, s.info, adrift) && g in s.info && s.info[g].Group? && GroupSized(s, g)
    requires Some(g) in s'.kids && s' == AfterChild(s, n, g, s'.kids[Some(g)], d)
    requires Count(s'.kids[Some(g)], Counting(s.info, s.connected, s.sizes.online))
          == Count(s.kids[Some(g)], Counting(s.info, s.connected, s.sizes.online))
          + (if CountsOnline(s, n) then d else 0)
    requires Count(s'.kids[Some(g)], Counting(s.info, s.connected, s.sizes.current))
          == Count(s.kids[Some(g)], Counting(s.info, s.connected, s.sizes.current))
          + (if CountsCurrent(s, n) then d else 0)
    requires |s'.kids[Some(g)]| == |s.kids[Some(g)]| + d
    ensures GroupSized(s', g)
  {
    SameCounting(s, s', g);
  }

  /** A group's own sizes do not decide what groups count. */
  lemma SameCounting(s: State, s': State, g: Node)
    requires g in s.info && s.info[g].Group? && s'.info == s.info && s'.connected == s.connected
    requires s'.sizes.current.Keys == s.sizes.current.Keys && s'.sizes.online.Keys == s.sizes.online.Keys
    requires forall x :: x in s.sizes.current && x != g ==> s'.sizes.current[x] == s.sizes.current[x]
    requires forall x :: x in s.sizes.online && x != g ==> s'.sizes.online[x] == s.sizes.online[x]
    ensures Counting(s'.info, s'.connected, s'.sizes.current) == Counting(s.info, s.connected, s.sizes.current)
    ensures Counting(s'.info, s'.connected, s'.sizes.online) == Counting(s.info, s.connected, s.sizes.online)
  {
  }

  /** All other nodes' sizes stay right when only group `g` changes. */
  lemma SizedButGroup(s: State, g: Node, s': State)
    requires Sized(s) && g in s.info && s.info[g].Group? && HasSizes(s.sizes, g)
    requires s'.info == s.info && s'.connected == s.connected && s'.env == s.env
    requires Some(g) in s'.kids && s'.kids == s.kids[Some(g) := s'.kids[Some(g)]]
    requires g in s'.drift && s'.drift == s.drift[g := s'.drift[g]]
    requires HasSizes(s'.sizes, g)
    requires s'.sizes == Sizes(s.sizes.total[g := s'.sizes.total[g]], s.sizes.current[g := s'.sizes.current[g]],
                               s.sizes.online[g := s'.sizes.online[g]])
    requires GroupSized(s', g)
    ensures Sized(s')
  {
    SameCounting(s, s', g);
    hide Counting, ConnectedNodes, OnlineNodes;
    forall x | x in s'.info && s'.info[x].Contact? ensures ContactSized(s', x) {
      SizedHas(s, x);
    }
    forall x | x in s'.info && s'.info[x].Group? ensures GroupSized(s', x) {
      SizedHas(s, x);
    }
  }

  /** When a contact or chat leaves a group, the group's sizes go down by what it counted for. */
  lemma ChildOutSized(s: State, adrift: set<Node>, n: Node, g: Node)
    requires Placed(s.links, s.kids, s.info, adrift) && Sized(s)
    requires g in s.info && s.info[g].Group? && Some(g) in s.kids && n in s.kids[Some(g)]
    ensures HasSizes(s.sizes, g)
    ensures Sized(AfterChild(s, n, g, Without(s.kids[Some(g)], n), -1))
  {
    SizedHas(s, g);
    KidsDistinct(s.links, s.kids, s.info, adrift, Some(g));
    var l := s.kids[Some(g)];
    var s' := AfterChild(s, n, g, Without(l, n), -1);
    CountWithout(l, n, Counting(s.info, s.connected, s.sizes.online));
    CountWithout(l, n, Counting(s.info, s.connected, s.sizes.current));
    WithoutKeeps(l, n);
    hide Counting, Without;
    ChildGroup(s, adrift, g, s', n, -1);
    hide GroupSized, ContactSized;
    SizedButGroup(s, g, s');
  }

  /** When a contact or chat joins a group, the group's sizes go up by what it counts for. */
  lemma ChildInSized(s: State, adrift: set<Node>, n: Node, a: Ptr, g: Node)
    requires Placed(s.links, s.kids, s.info, adrift) && Sized(s)
    requires g in s.info && s.info[g].Group? && Some(g) in s.kids
    requires n !in s.kids[Some(g)] && (a.Some? ==> a.value in s.kids[Some(g)])
    ensures HasSizes(s.sizes, g)
    ensures Sized(AfterChild(s, n, g, InsertAfter(s.kids[Some(g)], a, n), 1))
  {
    SizedHas(s, g);
    KidsDistinct(s.links, s.kids, s.info, adrift, Some(g));
    var l := s.kids[Some(g)];
    var s' := AfterChild(s, n, g, InsertAfter(l, a, n), 1);
    CountInsert(l, a, n, Counting(s.info, s.connected, s.sizes.online));
    CountInsert(l, a, n, Counting(s.info, s.connected, s.sizes.current));
    InsertKeeps(l, a, n);
    hide Counting, InsertAfter;
    ChildGroup(s, adrift, g, s', n, 1);
    hide GroupSized, ContactSized;
    SizedButGroup(s, g, s');
  }

  /** An emptied contact leaves without the group's total going down: the drift takes it. */
  lemma EmptyOutSized(s: State, adrift: set<Node>, c: Node, g: Node)
    requires Siting(s, adrift, c, g) && Sized(s) && s.kids[Some(c)] == []
    ensures HasSizes(s.sizes, g) && g in s.drift
    ensures Sized(s.(kids := s.kids[Some(g) := Without(s.kids[Some(g)], c)], drift := s.drift[g := s.drift[g] + 1]))
  {
    SizedHas(s, g);
    SizedHas(s, c);
    KidsDistinct(s.links, s.kids, s.info, adrift, Some(g));
    var l := s.kids[Some(g)];
    CountWithout(l, c, Counting(s.info, s.connected, s.sizes.online));
    CountWithout(l, c, Counting(s.info, s.connected, s.sizes.current));
    WithoutKeeps(l, c);
    assert !CountsOnline(s, c) && !CountsCurrent(s, c);
    var s' := s.(kids := s.kids[Some(g) := Without(l, c)], drift := s.drift[g := s.drift[g] + 1]);
    hide Counting, Without;
    assert GroupSized(s', g);
    hide GroupSized, ContactSized;
    SizedButGroup(s, g, s');
  }

  // ------------------------------------------------------ nodes come and go

  function Forgotten(z: Sizes, n: Node): Sizes {
    Sizes(Less(z.total, n), Less(z.current, n), Less(z.online, n))
  }

  /** Freeing a node that is in no list. */
  lemma VanishSized(s: State, adrift: set<Node>, n: Node)
    requires Sized(s) && Placed(s.links, s.kids, s.info, adrift) && n in adrift
    ensures Sized(s.(info := s.info - {n}, kids := s.kids - {Some(n)}, sizes := Forgotten(s.sizes, n),
                     drift := s.drift - {n}))
  {
    var s' := s.(info := s.info - {n}, kids := s.kids - {Some(n)}, sizes := Forgotten(s.sizes, n),
                 drift := s.drift - {n});
    forall x | x in s'.info && s'.info[x].Contact? ensures ContactSized(s', x) {
      SizedHas(s, x);
      NotListed(s.links, s.kids, s.info, adrift, n, Some(x));
      CountSame(s.kids[Some(x)], ConnectedNodes(s.info, s.connected), ConnectedNodes(s'.info, s.connected));
      CountSame(s.kids[Some(x)], OnlineNodes(s.env, s.info, s.connected), OnlineNodes(s.env, s'.info, s.connected));
    }
    forall x | x in s'.info && s'.info[x].Group? ensures GroupSized(s', x) {
      SizedHas(s, x);
      NotListed(s.links, s.kids, s.info, adrift, n, Some(x));
      CountSame(s.kids[Some(x)], Counting(s.info, s.connected, s.sizes.current),
                Counting(s'.info, s.connected, s'.sizes.current));
      CountSame(s.kids[Some(x)], Counting(s.info, s.connected, s.sizes.online),
                Counting(s'.info, s.connected, s'.sizes.online));
    }
  }

  /** A new node starts with zero sizes. */
  function Born(s: State, n: Node, x: Info): State {
    s.(info := s.info[n := x], kids := s.kids[Some(n) := []],
       drift := if x.Group? then s.drift[n := 0] else s.drift,
       sizes := if x.Group? || x.Contact?
                then Sizes(s.sizes.total[n := 0], s.sizes.current[n := 0], s.sizes.online[n := 0]) else s.sizes)
  }

  lemma AppearSized(s: State, n: Node, x: Info)
    requires Sized(s) && Placed(s.links, s.kids, s.info, {}) && n !in s.info
    ensures Sized(Born(s, n, x))
  {
    var s' := Born(s, n, x);
    forall y | y in s'.info && s'.info[y].Contact? ensures ContactSized(s', y) {
      if y != n {
        SizedHas(s, y);
        NewNotListed(s, n, Some(y));
        CountSame(s.kids[Some(y)], ConnectedNodes(s.info, s.connected), ConnectedNodes(s'.info, s.connected));
        CountSame(s.kids[Some(y)], OnlineNodes(s.env, s.info, s.connected), OnlineNodes(s.env, s'.info, s.connected));
      }
    }
    forall y | y in s'.info && s'.info[y].Group? ensures GroupSized(s', y) {
      if y != n {
        SizedHas(s, y);
        NewNotListed(s, n, Some(y));
        CountSame(s.kids[Some(y)], Counting(s.info, s.connected, s.sizes.current),
                  Counting(s'.info, s.connected, s'.sizes.current));
        CountSame(s.kids[Some(y)], Counting(s.info, s.connected, s.sizes.online),
                  Counting(s'.info, s.connected, s'.sizes.online));
      }
    }
  }

  lemma NewNotListed(s: State, n: Node, q: Ptr)
    requires Placed(s.links, s.kids, s.info, {}) && n !in s.info && q in s.kids
    ensures n !in s.kids[q]
  {
    if n in s.kids[q] {
      ChildOf(s.links, s.kids, s.info, {}, q, n);
    }
  }
}
