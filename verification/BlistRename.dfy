/** A group that takes another name, or whose children go to the group that has the name. */
module BlistRename {
  import opened BlistSeq
  import opened Options
  import opened BlistLinks
  import opened BlistModel
  import opened BlistTree
  import opened BlistSizes
  import opened BlistIndex
  import opened BlistPriority
  import opened BlistSteps
  import opened BlistGroups
  import opened BlistFloat
  import opened BlistBuddies
  import opened BlistMerge
  import opened BlistPlaces

  /** The group that already goes by `name`, if it is told apart from group `g` ignoring case. */
  function Rival(s: State, g: Node, name: string): Ptr {
    var k := s.env.collateKey(name);
    if k in s.tables.groups && s.tables.groups[k] in s.info && s.info[s.tables.groups[k]].Group? && g in s.info
       && s.info[g].Group?
       && !s.env.sameIgnoringCase(s.info[g].name, s.info[s.tables.groups[k]].name)
    then Some(s.tables.groups[k]) else None
  }

  // ----------------------------------------------------------- a simple rename

  /** Group `g` is called `name`, and indexed under the key of that. */
  function GroupRenamed(s: State, g: Node, name: string): State {
    s.(info := s.info[g := Group(name)],
       tables := s.tables.(groups := Less(s.tables.groups, NameKey(s, g))[s.env.collateKey(name) := g]))
  }

  lemma RenamedSized(s: State, g: Node, name: string, s': State)
    requires Sized(s) && g in s.info && s.info[g].Group? && s'.info == s.info[g := Group(name)]
    requires s'.env == s.env && s'.kids == s.kids && s'.sizes == s.sizes && s'.drift == s.drift
    requires s'.connected == s.connected
    ensures Sized(s')
  {
    assert ConnectedNodes(s'.info, s.connected) == ConnectedNodes(s.info, s.connected);
    assert OnlineNodes(s.env, s'.info, s.connected) == OnlineNodes(s.env, s.info, s.connected);
    assert Counting(s'.info, s.connected, s.sizes.current) == Counting(s.info, s.connected, s.sizes.current);
    assert Counting(s'.info, s.connected, s.sizes.online) == Counting(s.info, s.connected, s.sizes.online);
    hide ConnectedNodes, OnlineNodes, Counting;
    forall c | c in s'.info && s'.info[c].Contact? ensures ContactSized(s', c) {
      assert ContactSized(s, c);
    }
    forall h | h in s'.info && s'.info[h].Group? ensures GroupSized(s', h) {
      assert GroupSized(s, h);
    }
  }

  lemma RenamedPlaced(s: State, g: Node, name: string)
    requires Placed(s.links, s.kids, s.info, {}) && g in s.info && s.info[g].Group?
    ensures Placed(s.links, s.kids, s.info[g := Group(name)], {})
  {
    var info' := s.info[g := Group(name)];
    forall q | q in s.kids ensures Siblings(s.links, info', {}, q, s.kids[q]) {
      assert Siblings(s.links, s.info, {}, q, s.kids[q]);
      forall n | n in s.kids[q] ensures Child(s.links, info', {}, q, n) {
        ChildOf(s.links, s.kids, s.info, {}, q, n);
      }
    }
    forall n | n in info' ensures Standing(s.links, s.kids, info', {}, n) {
      StandsAt(s.links, s.kids, s.info, {}, n);
    }
  }

  lemma RenamedPriority(s: State, g: Node, name: string, s': State)
    requires Prioritized(s, {}) && Placed(s.links, s.kids, s.info, {}) && g in s.info && s.info[g].Group?
    requires s'.info == s.info[g := Group(name)] && s'.env == s.env && s'.kids == s.kids && s'.connected == s.connected
    requires s'.priorities == s.priorities
    ensures Prioritized(s', {})
  {
    hide IsBest, Placed;
    forall c | c in s'.info && s'.info[c].Contact? && c !in {} ensures ContactPrioritized(s', c) {
      assert ContactPrioritized(s, c);
      if s'.priorities.valid[c] {
        BuddyKids(s, {}, c);
        BestSame(s.env, s.info, s'.info, s.connected, s.connected, s.kids[Some(c)], s.priorities.buddy[c]);
      }
    }
  }

  lemma RenamedFiled(s: State, g: Node, name: string, s': State)
    requires Filed(s, {}) && g in s.info && s.info[g].Group? && s'.info == s.info[g := Group(name)]
    requires s'.env == s.env && s'.links == s.links && s'.keyed == s.keyed
    ensures Filed(s', {})
  {
    forall b ensures BuddyFiled(s', {}, b) {
      FiledAt(s, {}, b);
    }
  }

  lemma RenamedNamed(s: State, g: Node, name: string)
    requires None in s.kids && Named(s.env, s.tables.groups, s.kids[None], s.info) && g in s.kids[None]
    requires var k := s.env.collateKey(name); k in s.tables.groups ==> s.tables.groups[k] == g
    ensures var s' := GroupRenamed(s, g, name); Named(s'.env, s'.tables.groups, s'.kids[None], s'.info)
  {
  }

  lemma RenamedTyped(s: State, g: Node, name: string)
    requires Typed(s.env, s.info, s.links.parent, s.tables.cache, s.connected) && g in s.info && s.info[g].Group?
    requires name != ""
    ensures Typed(s.env, s.info[g := Group(name)], s.links.parent, s.tables.cache, s.connected)
  {
  }

  /** A simple rename leaves the list in order exactly if no other group is indexed under the new name. */
  lemma GroupRenamedValid(s: State, g: Node, name: string)
    requires Valid(s) && None in s.kids && g in s.kids[None] && name != ""
    ensures g in s.info && s.info[g].Group?
    ensures var k := s.env.collateKey(name);
            Valid(GroupRenamed(s, g, name)) <==> (k in s.tables.groups ==> s.tables.groups[k] == g)
  {
    hide Linked, Placed, Sized, Indexed, Filed, Named, Prioritized, Typed, TotalPreorder, Valid;
    TopIsGroup(s, g);
    var s', k := GroupRenamed(s, g, name), s.env.collateKey(name);
    if k in s.tables.groups ==> s.tables.groups[k] == g {
      ValidIs(s);
      Soundly(s, NOTHING);
      RenamedNamed(s, g, name);
      assert NOTHING.adrift + NOTHING.unfiled == {};
      RenamedSized(s, g, name, s');
      RenamedPlaced(s, g, name);
      RenamedPriority(s, g, name, s');
      RenamedFiled(s, g, name, s');
      RenamedTyped(s, g, name);
      IndexedSame(s.tables, s'.tables, s.keyed);
      ValidBy(s');
    } else {
      GroupIndexed(s, k);
      UnnamedInvalid(s', s.tables.groups[k]);
    }
  }

  // --------------------------------------------------------- children that move

  /** The buddies of the contacts `m` that cannot go to group `g`. */
  function GroupLost(s: State, m: seq<Node>, g: Node): set<Node> {
    set b | b in s.info && s.info[b].Buddy? && b in s.links.parent && s.links.parent[b].Some?
        && s.links.parent[b].value in m
            && !Free(s, b, g)
  }

  /** The children under `q` after the first `i` children of group `from` went to the end of group `to`. */
  function ListMoved(s: State, from: Node, to: Node, i: nat, q: Ptr): seq<Node>
    requires q in s.kids && i <= |At(s.kids, Some(from))|
  {
    var l := At(s.kids, Some(from));
    if q == Some(from) then l[i..]
    else if q == Some(to) then s.kids[q] + l[..i]
    else if q.Some? && q.value in l[..i] && q.value in s.info && s.info[q.value].Contact? then Kept(s, s.kids[q], to)
    else s.kids[q]
  }

  function KidsMoved(s: State, from: Node, to: Node, i: nat): Lists
    requires i <= |At(s.kids, Some(from))|
  {
    map q | q in s.kids
        && !(q.Some? && q.value in GroupLost(s, At(s.kids, Some(from))[..i], to)) :: ListMoved(s, from, to, i, q)
  }

  /** Two listed groups. */
  ghost predicate Unitable(s: State, from: Node, to: Node) {
    Valid(s) && None in s.kids && from in s.kids[None] && to in s.kids[None] && from != to
  }

  /** A child of a group that is merged into group `to` outlives that: it has no buddies, or keeps one. */
  predicate Outlives(s: State, c: Node, to: Node) {
    At(s.kids, Some(c)) == [] || Kept(s, At(s.kids, Some(c)), to) != []
  }

  /** All children outlive the merge. */
  ghost predicate Movable(s: State, from: Node, to: Node) {
    Unitable(s, from, to) && forall c :: c in At(s.kids, Some(from)) ==> Outlives(s, c, to)
  }

  /** The first child that does not. */
  function FirstPerishing(s: State, l: seq<Node>, to: Node): (c: Ptr)
    ensures c == None <==> forall n :: n in l ==> Outlives(s, n, to)
    ensures c.Some? ==> c.value in l && !Outlives(s, c.value, to)
  {
    if l == [] then None else if !Outlives(s, l[0], to) then Some(l[0]) else FirstPerishing(s, l[1..], to)
  }

  lemma {:induction false} FirstPerishingAt(s: State, l: seq<Node>, to: Node, i: nat)
    requires i < |l| && !Outlives(s, l[i], to) && forall n :: n in l[..i] ==> Outlives(s, n, to)
    ensures FirstPerishing(s, l, to) == Some(l[i])
  {
    hide Outlives;
    if i > 0 {
      assert l[0] == l[..i][0];
      assert forall n :: n in l[1..][..i - 1] ==> n in l[..i] by {
        assert l[1..][..i - 1] == l[..i][1..];
      }
      FirstPerishingAt(s, l[1..], to, i - 1);
    }
  }

  /** In the middle of it. */
  ghost predicate Moving(s: State, s': State, from: Node, to: Node, i: nat) {
    var l := At(s.kids, Some(from));
    && Unitable(s, from, to) && i <= |l| && (forall c :: c in l[..i] ==> Outlives(s, c, to)) && Valid(s')
    && s'.env == s.env
    && s'.kids == KidsMoved(s, from, to, i)
    && s'.info == Minus(s.info, GroupLost(s, l[..i], to)) && s'.drift == Minus(s.drift, GroupLost(s, l[..i], to))
    && forall b :: b in s.info && s.info[b].Buddy? && b in s.links.parent && s.links.parent[b].Some?
         && s.links.parent[b].value in l[i..]
         ==> (Free(s', b, to) <==> Free(s, b, to))
  }

  lemma MovingStart(s: State, from: Node, to: Node)
    requires Unitable(s, from, to)
    ensures Moving(s, s, from, to, 0)
  {
    hide Linked, Placed, Sized, Indexed, Filed, Named, Prioritized, Typed, TotalPreorder, Valid, Kept;
    var l := At(s.kids, Some(from));
    assert l[..0] == [] && l[0..] == l;
    assert GroupLost(s, [], to) == {};
    MinusNone(s.info);
    MinusNone(s.drift);
    forall q | q in s.kids ensures ListMoved(s, from, to, 0, q) == s.kids[q] {
    }
    assert KidsMoved(s, from, to, 0) == s.kids;
  }

  /** Whether a buddy of the remaining children is free decides the same as in the beginning. */
  lemma {:induction false} KeptAgain(s: State, s': State, l: seq<Node>, g: Node)
    requires forall b :: b in l ==> (Free(s', b, g) <==> Free(s, b, g))
    ensures Kept(s', l, g) == Kept(s, l, g) && Lost(s', l, g) == Lost(s, l, g)
  {
    if l != [] {
      assert l == l[..|l| - 1] + [l[|l| - 1]];
      KeptAgain(s, s', l[..|l| - 1], g);
    }
  }

  /** The children of both groups and the buddies of the contacts among them. */
  lemma MovableKids(s: State, from: Node, to: Node)
    requires Unitable(s, from, to)
    ensures from in s.info && s.info[from].Group? && to in s.info && s.info[to].Group? && Some(from) in s.kids
    ensures Some(to) in s.kids
    ensures var l := s.kids[Some(from)];
            && NoDup(l) && forall n :: n in l ==> (
                 && n in s.info && (s.info[n].Contact? || s.info[n].Chat?) && Some(n) in s.kids && n != from && n != to
                 && n in s.links.parent && s.links.parent[n] == Some(from) && n !in s.kids[Some(to)]
                 && (s.info[n].Chat? ==> s.kids[Some(n)] == []))
  {
    hide Linked, Placed, Sized, Indexed, Filed, Named, Prioritized, Typed, TotalPreorder;
    TopIsGroup(s, from);
    TopIsGroup(s, to);
    GroupKids(s, from);
    HeadOf(s, Some(from));
    forall n | n in s.kids[Some(from)] ensures n !in s.kids[Some(to)] && n != to {
      OnlyUnder(s, Some(from), Some(to), n);
    }
  }

  lemma OnlyUnder(s: State, q: Ptr, r: Ptr, n: Node)
    requires Valid(s) && q in s.kids && r in s.kids && n in s.kids[q] && q != r
    ensures n !in s.kids[r]
  {
    hide Linked, Placed, Sized, Indexed, Filed, Named, Prioritized, Typed, TotalPreorder;
    Soundly(s, NOTHING);
    if n in s.kids[r] {
      OneParent(s.links, s.kids, s.info, {}, q, r, n);
    }
  }

  /** The buddies of a contact among the children. */
  lemma ContactKids(s: State, c: Node)
    requires Valid(s) && c in s.info && s.info[c].Contact? && Some(c) in s.kids
    ensures forall b :: (
              b in s.kids[Some(c)]
              <==> b in s.info && s.info[b].Buddy? && b in s.links.parent && s.links.parent[b] == Some(c))
    ensures NoDup(s.kids[Some(c)])
  {
    hide Linked, Placed, Sized, Indexed, Filed, Named, Prioritized, Typed, TotalPreorder;
    Soundly(s, NOTHING);
    BuddyKids(s, {}, c);
    forall b
      ensures b in s.kids[Some(c)]
              <==> b in s.info && s.info[b].Buddy? && b in s.links.parent && s.links.parent[b] == Some(c)
    {
      if b in s.kids[Some(c)] {
        ChildOf(s.links, s.kids, s.info, {}, Some(c), b);
      } else if b in s.info && s.info[b].Buddy? && b in s.links.parent && s.links.parent[b] == Some(c) {
        BuddyStands(s, NOTHING, b);
      }
    }
  }

  lemma LostBuddies(s: State, m: seq<Node>, g: Node)
    ensures forall n :: n in GroupLost(s, m, g) ==> n in s.info && s.info[n].Buddy?
  {
  }

  /** A child that does not outlive the merge is freed, with all its buddies. */
  lemma MovedAway(s: State, s1: State, s': State, from: Node, to: Node, i: nat)
    requires Moving(s, s1, from, to, i) && i < |At(s.kids, Some(from))| && !Outlives(s, At(s.kids, Some(from))[i], to)
    requires s'.info == Minus(s1.info, Casualties(s1, At(s.kids, Some(from))[i], to))
    ensures var l := At(s.kids, Some(from));
            && FirstPerishing(s, l, to) == Some(l[i]) && l[i] !in s'.info
            && s'.info == Minus(s.info, GroupLost(s, l[..i + 1], to) + {l[i]})
  {
    hide Linked, Placed, Sized, Indexed, Filed, Named, Prioritized, Typed, TotalPreorder, Valid, Free, GroupLost,
         KidsMoved;
    MovingAt(s, s1, from, to, i);
    MovingKeeps(s, s1, from, to, i);
    var l := s.kids[Some(from)];
    var n := l[i];
    FirstPerishingAt(s, l, to, i);
    LostNext(s, from, to, i);
    HeadOf(s, Some(n));
    AllLost(s, s.kids[Some(n)], to);
  }

  /** A contact outlives the merge exactly if it is still there when it has moved. */
  lemma MovedSurvives(s: State, s1: State, s': State, from: Node, to: Node, i: nat)
    requires Moving(s, s1, from, to, i) && i < |At(s.kids, Some(from))|
    requires var n := At(s.kids, Some(from))[i];
             n in s.info && s.info[n].Contact? && s'.info == Minus(s1.info, Casualties(s1, n, to))
    ensures Outlives(s, At(s.kids, Some(from))[i], to) <==> At(s.kids, Some(from))[i] in s'.info
  {
    hide Linked, Placed, Sized, Indexed, Filed, Named, Prioritized, Typed, TotalPreorder, Valid, Free, GroupLost,
         KidsMoved, Outlives;
    MovingAt(s, s1, from, to, i);
    MovingKeeps(s, s1, from, to, i);
    var n := s.kids[Some(from)][i];
    ContactKids(s, n);
    LostAre(s, s.kids[Some(n)], to);
    if !Outlives(s, n, to) {
      MovedAway(s, s1, s', from, to, i);
    }
  }

  lemma NoneToLose(s: State, n: Node, to: Node)
    requires At(s.kids, Some(n)) == []
    ensures Outlives(s, n, to)
  {
  }

  lemma AllOutlive(s: State, s': State, from: Node, to: Node)
    requires Moving(s, s', from, to, |At(s.kids, Some(from))|)
    ensures Movable(s, from, to) && FirstPerishing(s, At(s.kids, Some(from)), to) == None
  {
    hide Valid, Outlives, KidsMoved, GroupLost;
    var l := At(s.kids, Some(from));
    assert l[..|l|] == l;
  }

  lemma NotAllOutlive(s: State, from: Node, to: Node)
    ensures FirstPerishing(s, At(s.kids, Some(from)), to).Some? ==> !Movable(s, from, to)
  {
    hide Valid, Outlives;
  }

  lemma AllLost(s: State, l: seq<Node>, g: Node)
    requires Kept(s, l, g) == [] && NoDup(l)
    ensures Lost(s, l, g) == Elements(l)
  {
    KeptAre(s, l, g);
    assert forall n :: n in l ==> n !in Kept(s, l, g);
  }

  /** What the next step finds. */
  lemma MovingAt(s: State, s': State, from: Node, to: Node, i: nat)
    requires Moving(s, s', from, to, i) && i < |At(s.kids, Some(from))|
    ensures var l, n := At(s.kids, Some(from)), At(s.kids, Some(from))[i];
            && n in s'.info && n in s.info && s'.info[n] == s.info[n] && (s.info[n].Contact? || s.info[n].Chat?)
            && Some(n) in s.kids && Some(n) in s'.kids && s'.kids[Some(n)] == s.kids[Some(n)]
            && (s.info[n].Chat? ==> s.kids[Some(n)] == [])
            && n in s'.links.parent && s'.links.parent[n] == Some(from)
            && n in s'.links.next && s'.links.next[n] == First(l[i + 1..])
    ensures to in s'.info && s'.info[to].Group? && None in s'.kids && to in s'.kids[None] && Some(to) in s'.kids
    ensures Some(from) in s'.kids && s'.kids[Some(from)] == At(s.kids, Some(from))[i..]
    ensures var t := At(s.kids, Some(to)) + At(s.kids, Some(from))[..i];
            s'.kids[Some(to)] == t
                && (Last(t).Some? ==> Last(t).value in t && Last(t).value != At(s.kids, Some(from))[i])
    ensures from != to && Some(from) in s.kids && Some(to) in s.kids
  {
    hide Linked, Placed, Sized, Indexed, Filed, Named, Prioritized, Typed, TotalPreorder, Valid, Kept, Free, GroupLost;
    MovableKids(s, from, to);
    var l := s.kids[Some(from)];
    var n, lost := l[i], GroupLost(s, l[..i], to);
    assert n !in lost && from !in lost && to !in lost by {
      LostBuddies(s, l[..i], to);
    }
    assert n !in l[..i];
    assert s'.kids[Some(n)] == ListMoved(s, from, to, i, Some(n)) == s.kids[Some(n)];
    MinusAt(s.info, lost, n);
    MinusAt(s.info, lost, to);
    SiblingAt(s', Some(from), 0);
    assert l[i..][0] == n && l[i..][1..] == l[i + 1..];
    TopIsGroup(s', to);
    assert n !in s.kids[Some(to)] + l[..i];
  }

  /** The contact that moves next keeps what it would have kept in the beginning. */
  lemma MovingKeeps(s: State, s': State, from: Node, to: Node, i: nat)
    requires Moving(s, s', from, to, i) && i < |At(s.kids, Some(from))|
    ensures var n := At(s.kids, Some(from))[i];
            && (n in s.info && s.info[n].Contact? && Some(n) in s.kids ==>
                  && Kept(s', s.kids[Some(n)], to) == Kept(s, s.kids[Some(n)], to)
                  && Lost(s', s.kids[Some(n)], to) == Lost(s, s.kids[Some(n)], to)
                  && Emigrates(s', n, to) && (Perishes(s', n, to) <==> !Outlives(s, n, to))
                  && (Outlives(s, n, to) ==> Casualties(s', n, to) == Lost(s, s.kids[Some(n)], to)))
  {
    hide Linked, Placed, Sized, Indexed, Filed, Named, Prioritized, Typed, TotalPreorder, Valid, Kept, Free, GroupLost,
         KidsMoved, Lost;
    MovingAt(s, s', from, to, i);
    var l := s.kids[Some(from)];
    var n := l[i];
    if s.info[n].Contact? {
      ContactKids(s, n);
      assert n in l[i..] by { assert l[i..][0] == n; }
      KeptAgain(s, s', s.kids[Some(n)], to);
    }
  }

  /** The buddies lost with one more child. */
  lemma LostNext(s: State, from: Node, to: Node, i: nat)
    requires Unitable(s, from, to) && i < |At(s.kids, Some(from))|
    ensures var l := At(s.kids, Some(from));
            GroupLost(s, l[..i + 1], to) == GroupLost(s, l[..i], to) + Lost(s, At(s.kids, Some(l[i])), to)
  {
    hide Linked, Placed, Sized, Indexed, Filed, Named, Prioritized, Typed, TotalPreorder, Valid, Free, Kept;
    MovableKids(s, from, to);
    var l := s.kids[Some(from)];
    var n := l[i];
    assert l[..i + 1] == l[..i] + [n];
    if s.info[n].Contact? {
      ContactKids(s, n);
    } else {
      NobodyIn(s, n);
    }
  }

  lemma NobodyIn(s: State, n: Node)
    requires Valid(s) && n in s.info && s.info[n].Chat?
    ensures forall b :: b in s.info && s.info[b].Buddy? && b in s.links.parent ==> s.links.parent[b] != Some(n)
  {
    hide Linked, Placed, Sized, Indexed, Filed, Named, Prioritized, Typed, TotalPreorder;
    forall b | b in s.info && s.info[b].Buddy? && b in s.links.parent ensures s.links.parent[b] != Some(n) {
      if s.links.parent[b] == Some(n) {
        BuddyStands(s, NOTHING, b);
      }
    }
  }

  /** The tree after one more child `n` that keeps the buddies `kept` and loses the buddies `lost`. */
  lemma MovedKids(s: State, s1: State, from: Node, to: Node, i: nat, kept: seq<Node>, lost: set<Node>)
    requires Moving(s, s1, from, to, i) && i < |At(s.kids, Some(from))|
    requires var n := At(s.kids, Some(from))[i];
             && lost == Lost(s, At(s.kids, Some(n)), to)
             && kept == (if n in s.info && s.info[n].Contact? then Kept(s, At(s.kids, Some(n)), to)
                         else At(s.kids, Some(n)))
    ensures var n, t := At(s.kids, Some(from))[i], At(s.kids, Some(to)) + At(s.kids, Some(from))[..i];
            Moved(KidsMinus(s1.kids[Some(n) := kept], lost), Some(from), n, to, Last(t))
                == KidsMoved(s, from, to, i + 1)
  {
    hide Linked, Placed, Sized, Indexed, Filed, Named, Prioritized, Typed, TotalPreorder, Valid, Kept, Free, GroupLost,
         Lost, InsertAfter, Without;
    MovableKids(s, from, to);
    var l := s.kids[Some(from)];
    var n, t := l[i], s.kids[Some(to)] + l[..i];
    LostNext(s, from, to, i);
    MovingAt(s, s1, from, to, i);
    assert n !in lost && from !in lost && to !in lost by {
      LostBuddies(s, l[..i + 1], to);
    }
    var k0 := KidsMinus(s1.kids[Some(n) := kept], lost);
    assert k0[Some(from)] == l[i..] && k0[Some(to)] == t;
    FirstOut(l[i..]);
    assert l[i..][0] == n && l[i..][1..] == l[i + 1..];
    assert NoDup(t) by { HeadOf(s1, Some(to)); }
    InsertLast(t, n);
    assert l[..i + 1] == l[..i] + [n] && t + [n] == s.kids[Some(to)] + l[..i + 1];
    var k2 := k0[Some(from) := l[i + 1..]][Some(to) := s.kids[Some(to)] + l[..i + 1]];
    assert Moved(k0, Some(from), n, to, Last(t)) == k2;
    MovedEach(s, s1, from, to, i, kept, lost, k2);
  }

  lemma MovedEach(s: State, s1: State, from: Node, to: Node, i: nat, kept: seq<Node>, lost: set<Node>, k2: Lists)
    requires Some(from) in s.kids && Some(to) in s.kids && from != to && i < |s.kids[Some(from)]|
    requires NoDup(s.kids[Some(from)])
    requires s1.kids == KidsMoved(s, from, to, i)
    requires var l := s.kids[Some(from)]; var n := l[i];
      && n != from && n != to && Some(n) in s.kids && n in s.info && n !in GroupLost(s, l[..i + 1], to)
      && from !in GroupLost(s, l[..i + 1], to) && to !in GroupLost(s, l[..i + 1], to)
      && GroupLost(s, l[..i + 1], to) == GroupLost(s, l[..i], to) + lost
      && kept == (if s.info[n].Contact? then Kept(s, s.kids[Some(n)], to) else s.kids[Some(n)])
      && k2 == KidsMinus(s1.kids[Some(n) := kept],
                         lost)[Some(from) := l[i + 1..]][Some(to) := s.kids[Some(to)] + l[..i + 1]]
    ensures k2 == KidsMoved(s, from, to, i + 1)
  {
    hide Kept, GroupLost;
    var l := s.kids[Some(from)];
    var n := l[i];
    assert l[..i + 1] == l[..i] + [n];
    var k3 := KidsMoved(s, from, to, i + 1);
    forall q ensures q in k2 <==> q in k3 {
    }
    forall q | q in k2 ensures k2[q] == k3[q] {
    }
  }

  /** No buddy of a later child has a key that comes along with this one. */
  lemma OtherKeys(s: State, c: Node, from: Node, to: Node, b: Node, d: Node)
    requires Valid(s) && c in s.info && s.info[c].Contact? && Some(c) in s.kids && c in s.links.parent
    requires s.links.parent[c] == Some(from)
    requires b in s.info && s.info[b].Buddy? && b in s.links.parent && s.links.parent[b] == Some(d) && d != c
    requires d in s.links.parent && s.links.parent[d] == Some(from)
    ensures KeyIn(s, b, to) !in NewKeys(s, c, to)
  {
    hide Linked, Placed, Sized, Indexed, Filed, Named, Prioritized, Typed, TotalPreorder, Valid, Kept;
    ContactKids(s, c);
    var l := s.kids[Some(c)];
    KeptAre(s, l, to);
    if KeyIn(s, b, to) in NewKeys(s, c, to) {
      var o :| o in Kept(s, l, to) && KeyIn(s, o, to) == KeyIn(s, b, to);
      assert o in l && o != b;
      TwoUnder(s, b, o, d, c, from);
    }
  }

  lemma TwoUnder(s: State, b: Node, o: Node, d: Node, c: Node, g: Node)
    requires b != o && b in s.info && s.info[b].Buddy? && o in s.info && s.info[o].Buddy?
    requires b in s.links.parent && s.links.parent[b] == Some(d) && d in s.links.parent && s.links.parent[d] == Some(g)
    requires o in s.links.parent && s.links.parent[o] == Some(c) && c in s.links.parent && s.links.parent[c] == Some(g)
    requires s.env.normalize(s.info[b].account, s.info[b].name) == s.env.normalize(s.info[o].account, s.info[o].name)
    requires s.info[b].account == s.info[o].account
    ensures !Valid(s)
  {
    hide Linked, Placed, Sized, Indexed, Filed, Named, Prioritized, Typed, TotalPreorder;
    if Valid(s) {
      Soundly(s, NOTHING);
      FiledAt(s, NOTHING.adrift + NOTHING.unfiled, o);
      FiledAt(s, NOTHING.adrift + NOTHING.unfiled, b);
      OneKeyOneBuddy(s.tables, s.keyed, b, o);
      assert false;
    }
  }

  /** The later children's buddies are as free as before. */
  lemma MovedFree(s: State, s1: State, s': State, from: Node, to: Node, i: nat, b: Node)
    requires Moving(s, s1, from, to, i) && i < |At(s.kids, Some(from))| && s'.env == s.env
    requires s'.info == Minus(s1.info, Lost(s, At(s.kids, Some(At(s.kids, Some(from))[i])), to))
    requires var n := At(s.kids, Some(from))[i];
             GainsKeys(s1, s', to, if n in s.info && s.info[n].Contact? then NewKeys(s1, n, to) else {})
    requires b in s.info && s.info[b].Buddy? && b in s.links.parent && s.links.parent[b].Some?
    requires s.links.parent[b].value in At(s.kids, Some(from))[i + 1..]
    ensures Free(s', b, to) <==> Free(s, b, to)
  {
    hide Linked, Placed, Sized, Indexed, Filed, Named, Prioritized, Typed, TotalPreorder, Valid, Kept, GroupLost,
         KidsMoved, NewKeys;
    MovableKids(s, from, to);
    var l := s.kids[Some(from)];
    var n, d := l[i], s.links.parent[b].value;
    var j :| i + 1 <= j < |l| && l[j] == d by { assert l[i + 1..][0..] == l[i + 1..]; LaterAt(l, i + 1, d); }
    assert d in l[i..] by { assert l[i..][j - i] == d; }
    assert d !in l[..i] && d != n;
    LaterBuddy(s, s1, from, to, i, j, b);
    if s.info[n].Contact? {
      MovingAt(s, s1, from, to, i);
      OtherKeys(s1, n, from, to, b, d);
      ContactKids(s, n);
    }
    assert b !in Lost(s, s.kids[Some(n)], to) by {
      if s.info[n].Contact? { assert b !in s.kids[Some(n)]; }
    }
    assert KeyIn(s', b, to) == KeyIn(s1, b, to);
  }

  lemma LaterAt(l: seq<Node>, i: nat, d: Node)
    requires i <= |l| && d in l[i..]
    ensures exists j :: i <= j < |l| && l[j] == d
  {
    var k :| 0 <= k < |l| - i && l[i..][k] == d;
    assert l[i + k] == d;
  }

  /** A buddy of a later child is still there, in the same contact of the same group. */
  lemma LaterBuddy(s: State, s1: State, from: Node, to: Node, i: nat, j: nat, b: Node)
    requires Moving(s, s1, from, to, i) && i <= j < |At(s.kids, Some(from))|
    requires b in s.info && s.info[b].Buddy? && b in s.links.parent
    requires s.links.parent[b] == Some(At(s.kids, Some(from))[j])
    ensures var d := At(s.kids, Some(from))[j];
            && b in s1.info && s1.info[b] == s.info[b] && b in s1.links.parent && s1.links.parent[b] == Some(d)
            && d in s1.links.parent && s1.links.parent[d] == Some(from)
  {
    hide Linked, Placed, Sized, Indexed, Filed, Named, Prioritized, Typed, TotalPreorder, Valid, Kept, Free;
    MovableKids(s, from, to);
    var l := s.kids[Some(from)];
    var d, lost := l[j], GroupLost(s, l[..i], to);
    assert d !in l[..i];
    assert b !in lost;
    MinusAt(s.info, lost, b);
    BuddyIs(s, b, d);
    assert Some(d) in s1.kids && s1.kids[Some(d)] == s.kids[Some(d)] by {
      LostBuddies(s, l[..i], to);
      assert ListMoved(s, from, to, i, Some(d)) == s.kids[Some(d)];
    }
    InKids(s1, Some(d), b);
    LostBuddies(s, l[..i], to);
    assert l[i..][j - i] == d;
    InKids(s1, Some(from), d);
  }

  lemma BuddyIs(s: State, b: Node, d: Node)
    requires Valid(s) && b in s.info && s.info[b].Buddy? && b in s.links.parent && s.links.parent[b] == Some(d)
    ensures Some(d) in s.kids && b in s.kids[Some(d)] && d in s.info && s.info[d].Contact?
  {
    hide Linked, Placed, Sized, Indexed, Filed, Named, Prioritized, Typed, TotalPreorder;
    BuddyStands(s, NOTHING, b);
  }

  lemma InKids(s: State, q: Ptr, n: Node)
    requires Valid(s) && q in s.kids && n in s.kids[q]
    ensures n in s.links.parent && s.links.parent[n] == q && n in s.info
  {
    hide Linked, Placed, Sized, Indexed, Filed, Named, Prioritized, Typed, TotalPreorder;
    Soundly(s, NOTHING);
    ChildOf(s.links, s.kids, s.info, {}, q, n);
  }

  lemma MovingNext(s: State, s1: State, s': State, from: Node, to: Node, i: nat)
    requires Moving(s, s1, from, to, i) && i < |At(s.kids, Some(from))| && Valid(s') && s'.env == s.env
    requires Outlives(s, At(s.kids, Some(from))[i], to)
    requires var n, t := At(s.kids, Some(from))[i], At(s.kids, Some(to)) + At(s.kids, Some(from))[..i];
      if n in s.info && s.info[n].Contact? then
        && n in s1.links.parent && s'.kids == Rehomed(s1, n, to, Last(t))
        && s'.info == Minus(s1.info, Casualties(s1, n, to))
        && s'.drift == Minus(Bereaved(s1, n, to), Casualties(s1, n, to)) && GainsKeys(s1, s', to, NewKeys(s1, n, to))
      else
        && s'.kids == Moved(s1.kids, Some(from), n, to, Last(t)) && s'.info == s1.info && s'.drift == s1.drift
        && s'.tables.buddies == s1.tables.buddies
    ensures Moving(s, s', from, to, i + 1)
  {
    hide Linked, Placed, Sized, Indexed, Filed, Named, Prioritized, Typed, TotalPreorder, Valid, Kept, Free, GroupLost,
         KidsMoved, Moved,
         NewKeys, Lost, Minus, KidsMinus, Rehomed, Casualties, Bereaved, Emigrates, Perishes;
    MovingAt(s, s1, from, to, i);
    var l := s.kids[Some(from)];
    var n, t := l[i], s.kids[Some(to)] + l[..i];
    var lost := Lost(s, s.kids[Some(n)], to);
    LostNext(s, from, to, i);
    MinusMore(s.info, GroupLost(s, l[..i], to), lost);
    MinusMore(s.drift, GroupLost(s, l[..i], to), lost);
    if s.info[n].Contact? {
      MovingKeeps(s, s1, from, to, i);
      RehomedLater(s1, n, to, Last(t));
      MovedKids(s, s1, from, to, i, Kept(s, s.kids[Some(n)], to), lost);
    } else {
      NoneLost(s, to, s.kids[Some(n)]);
      KidsMinusNone(s1.kids[Some(n) := s.kids[Some(n)]]);
      assert s1.kids[Some(n) := s.kids[Some(n)]] == s1.kids;
      MinusNone(s1.info);
      MinusNone(s1.drift);
      MovedKids(s, s1, from, to, i, s.kids[Some(n)], lost);
    }
    forall b | b in s.info && s.info[b].Buddy? && b in s.links.parent && s.links.parent[b].Some?
             && s.links.parent[b].value in l[i + 1..]
      ensures Free(s', b, to) <==> Free(s, b, to)
    {
      MovedFree(s, s1, s', from, to, i, b);
    }
  }

  lemma MinusMore<V>(m: map<Node, V>, gone: set<Node>, more: set<Node>)
    ensures Minus(Minus(m, gone), more) == Minus(m, gone + more)
  {
  }

  lemma NoneLost(s: State, g: Node, l: seq<Node>)
    requires l == []
    ensures Lost(s, l, g) == {}
  {
  }

  /** A contact that goes to another group and does not perish. */
  lemma RehomedLater(s: State, c: Node, g: Node, a: Ptr)
    requires c in s.links.parent && Emigrates(s, c, g) && !Perishes(s, c, g)
    ensures Rehomed(s, c, g, a) == Moved(KidsMinus(s.kids[Some(c) := Kept(s, s.kids[Some(c)], g)], Casualties(s, c, g)),
                                         s.links.parent[c], c, g, a)
    ensures Bereaved(s, c, g) == s.drift && Casualties(s, c, g) == Lost(s, s.kids[Some(c)], g)
  {
    hide Kept, Lost, Moved;
  }

  // ------------------------------------------- buddies put where they are

  /** Taking a node out and putting it back behind its predecessor. */
  lemma BackAgain(l: seq<Node>, i: nat)
    requires NoDup(l) && 0 < i < |l|
    ensures InsertAfter(Without(l, l[i]), Some(l[i - 1]), l[i]) == l && Without(l, l[i]) != []
  {
    WithoutAt(l, i);
    var p, v := l[..i], l[i + 1..];
    BehindLast(p, v, l[i]);
    assert p + [l[i]] + v == l;
  }

  /** A buddy that is put behind its predecessor: nothing comes of it but that the priority is to be recomputed. */
  lemma Reseated(s: State, s': State, c: Node, g: Node, i: nat)
    requires Valid(s) && c in s.info && s.info[c].Contact? && c in s.links.parent && s.links.parent[c] == Some(g)
    requires Some(c) in s.kids && 0 < i < |s.kids[Some(c)]|
    requires Repositions(s, s', s.kids[Some(c)][i], c, g, Some(s.kids[Some(c)][i - 1]))
    ensures s'.kids == s.kids && s'.info == s.info && s'.drift == s.drift && s'.links.parent == s.links.parent
    ensures s'.tables.buddies == s.tables.buddies
  {
    hide Linked, Placed, Sized, Indexed, Filed, Named, Prioritized, Typed, TotalPreorder, InsertAfter, Without;
    var l := s.kids[Some(c)];
    var b := l[i];
    ContactKids(s, c);
    BackAgain(l, i);
    assert s.kids[Some(c) := Without(l, b)][Some(c) := l] == s.kids;
    BuddyStands(s, NOTHING, b);
    FiledUnder(s, NOTHING, b, c, g);
    Soundly(s, NOTHING);
    FiledThere(s.tables, s.keyed, b);
    assert s.links.parent[b := Some(c)] == s.links.parent;
  }

  lemma FiledThere(t: Tables, keyed: map<Node, Key>, b: Node)
    requires Indexed(t, keyed) && b in keyed
    ensures keyed[b] in t.buddies && t.buddies[keyed[b]] == b && t.buddies[keyed[b] := b] == t.buddies
  {
  }

  /** Nobody else has the key of a buddy in its own group. */
  lemma FreshHere(s: State, c: Node, g: Node, i: nat)
    requires Valid(s) && c in s.info && s.info[c].Contact? && c in s.links.parent && s.links.parent[c] == Some(g)
    requires Some(c) in s.kids && i < |s.kids[Some(c)]|
    ensures var b := s.kids[Some(c)][i];
            && Fresh(s, b, g) && b in s.info && s.info[b].Buddy? && b in s.links.parent && s.links.parent[b] == Some(c)
            && b in s.links.prev && s.links.prev[b] == Before(s.kids[Some(c)], i)
            && b in s.links.next && s.links.next[b] == After(s.kids[Some(c)], i)
            && c in s.links.child && s.links.child[c] == First(s.kids[Some(c)])
  {
    hide Linked, Placed, Sized, Indexed, Filed, Named, Prioritized, Typed, TotalPreorder;
    var b := s.kids[Some(c)][i];
    ContactKids(s, c);
    SiblingAt(s, Some(c), i);
    HeadOf(s, Some(c));
    BuddyStands(s, NOTHING, b);
    FiledUnder(s, NOTHING, b, c, g);
    Soundly(s, NOTHING);
    FiledThere(s.tables, s.keyed, b);
  }

  // --------------------------------------------------------------- the end

  lemma MovingEnd(s: State, s': State, from: Node, to: Node)
    requires Moving(s, s', from, to, |At(s.kids, Some(from))|)
    ensures Valid(s') && None in s'.kids && from in s'.kids[None] && from in s'.info && s'.info[from].Group?
    ensures Some(from) in s'.kids && s'.kids[Some(from)] == [] && s'.info[from] == s.info[from]
  {
    hide Linked, Placed, Sized, Indexed, Filed, Named, Prioritized, Typed, TotalPreorder, Valid, Kept, Free, GroupLost;
    MovableKids(s, from, to);
    var l := s.kids[Some(from)];
    assert l[|l|..] == [] && l[..|l|] == l;
    var lost := GroupLost(s, l, to);
    LostBuddies(s, l, to);
    MinusAt(s.info, lost, from);
  }

  /** The tree after all children of group `from` have gone to the end of group `to`, and group `from` itself. */
  function KidsUnited(s: State, from: Node, to: Node): Lists {
    var k := KidsMoved(s, from, to, |At(s.kids, Some(from))|);
    Less(k[None := Without(At(k, None), from)], Some(from))
  }

  function InfoUnited(s: State, from: Node, to: Node): map<Node, Info> {
    Less(Minus(s.info, GroupLost(s, At(s.kids, Some(from)), to)), from)
  }

  /** No drift changes, but those of the nodes that are gone go with them. */
  function DriftUnited(s: State, from: Node, to: Node): map<Node, nat> {
    Less(Minus(s.drift, GroupLost(s, At(s.kids, Some(from)), to)), from)
  }

  /**
   If the two groups share no key, nothing is lost: the old children, and behind them the new ones with all their
   buddies.
  */
  lemma UnitedDisjoint(s: State, from: Node, to: Node)
    requires Movable(s, from, to)
    requires forall c, b :: c in At(s.kids, Some(from)) && b in At(s.kids, Some(c)) ==> Free(s, b, to)
    ensures var all := At(s.kids, Some(to)) + At(s.kids, Some(from));
            KidsUnited(s, from, to)
                == Less(s.kids[Some(to) := all][None := Without(At(s.kids, None), from)], Some(from))
    ensures InfoUnited(s, from, to) == Less(s.info, from)
  {
    hide Linked, Placed, Sized, Indexed, Filed, Named, Prioritized, Typed, TotalPreorder, Valid, Kept, Free, Without,
         Less;
    MovableKids(s, from, to);
    var l := s.kids[Some(from)];
    assert l[..|l|] == l;
    NothingLost(s, from, to);
    MinusNone(s.info);
    forall q | q in s.kids && q.Some? && q.value in l
             && s.info[q.value].Contact? ensures Kept(s, s.kids[q], to) == s.kids[q] {
      assert forall b :: b in At(s.kids, q) ==> Free(s, b, to);
      KeptAll(s, s.kids[q], to);
    }
    var k := KidsMoved(s, from, to, |l|);
    var k': Lists := s.kids[Some(to) := s.kids[Some(to)] + l];
    assert k[None] == s.kids[None];
    var k2 := k'[Some(from) := []];
    forall q | q in k2 ensures q in k && k[q] == k2[q] {
      assert ListMoved(s, from, to, |l|, q) == k2[q];
    }
    assert k == k2;
    LessAgain(k'[None := Without(s.kids[None], from)], Some(from), []);
    assert k'[Some(from) := []][None := Without(s.kids[None], from)]
             == k'[None := Without(s.kids[None], from)][Some(from) := []];
  }

  lemma LessAgain(k: Lists, q: Ptr, l: seq<Node>)
    ensures Less(k[q := l], q) == Less(k, q)
  {
  }

  lemma NothingLost(s: State, from: Node, to: Node)
    requires Movable(s, from, to)
    requires forall c, b :: c in At(s.kids, Some(from)) && b in At(s.kids, Some(c)) ==> Free(s, b, to)
    ensures GroupLost(s, At(s.kids, Some(from)), to) == {}
  {
    hide Linked, Placed, Sized, Indexed, Filed, Named, Prioritized, Typed, TotalPreorder, Valid, Free, Kept;
    forall b | b in s.info && s.info[b].Buddy? && b in s.links.parent && s.links.parent[b].Some?
               && s.links.parent[b].value in At(s.kids, Some(from))
      ensures Free(s, b, to)
    {
      BuddyIs(s, b, s.links.parent[b].value);
      assert b in At(s.kids, Some(s.links.parent[b].value));
    }
  }

  lemma MovingValid(s: State, s': State, from: Node, to: Node, i: nat)
    requires Moving(s, s', from, to, i)
    ensures Valid(s) && Valid(s') && s'.env == s.env && from != to
  {
  }

  lemma MovingIs(s: State, s': State, from: Node, to: Node)
    requires Moving(s, s', from, to, |At(s.kids, Some(from))|)
    ensures s'.kids == KidsMoved(s, from, to, |At(s.kids, Some(from))|)
    ensures s'.info == Minus(s.info, GroupLost(s, At(s.kids, Some(from)), to))
    ensures s'.drift == Minus(s.drift, GroupLost(s, At(s.kids, Some(from)), to))
  {
    hide KidsMoved, GroupLost, Movable, Valid;
    var l := At(s.kids, Some(from));
    assert l[..|l|] == l;
  }

  /** The child has arrived. */
  lemma MovedThere(s: State, s': State, from: Node, to: Node, i: nat)
    requires i < |At(s.kids, Some(from))| && Moving(s, s', from, to, i + 1)
    ensures var n := At(s.kids, Some(from))[i];
            && n in s'.info && n in s.info && s'.info[n] == s.info[n] && n in s'.links.parent
            && s'.links.parent[n] == Some(to)
            && Some(n) in s'.kids
  {
    hide Linked, Placed, Sized, Indexed, Filed, Named, Prioritized, Typed, TotalPreorder, Valid, Kept, Free, GroupLost;
    MovableKids(s, from, to);
    var l := s.kids[Some(from)];
    var n, lost := l[i], GroupLost(s, l[..i + 1], to);
    assert n !in lost && to !in lost by {
      LostBuddies(s, l[..i + 1], to);
    }
    MinusAt(s.info, lost, n);
    assert l[..i + 1][i] == n;
    assert s'.kids[Some(to)] == s.kids[Some(to)] + l[..i + 1];
    InKids(s', Some(to), n);
  }

  /** Buddy `n` of a contact of group `from` finds its key taken in group `to`. */
  predicate Ousted(s: State, n: Node, from: Node, to: Node) {
    && n in s.links.parent && s.links.parent[n].Some? && s.links.parent[n].value in At(s.kids, Some(from))
    && Taken(s, n, to)
  }

  /**
   Between `s` and `s'` all children of group `from` have gone to the end of group `to`, in order, and the group is
   gone; of the buddies of its contacts exactly those are gone whose keys were taken, and nothing else has moved.
  */
  ghost predicate GroupsUnite(s: State, s': State, from: Node, to: Node) {
    var l := At(s.kids, Some(from));
    && At(s'.kids, Some(to)) == At(s.kids, Some(to)) + l
    && At(s'.kids, None) == Others(At(s.kids, None), from)
    && (forall n :: n in s'.info <==> n in s.info && n != from && !Ousted(s, n, from, to))
    && (forall n :: n in s'.info ==> s'.info[n] == s.info[n])
    && (forall c :: c in l && c in s.info && s.info[c].Contact? ==>
          InOrder(At(s'.kids, Some(c)), At(s.kids, Some(c)))
          && forall b :: b in At(s'.kids, Some(c)) <==> b in At(s.kids, Some(c)) && !Taken(s, b, to))
    && (forall n :: n in s'.info && n != to && n !in l ==> At(s'.kids, Some(n)) == At(s.kids, Some(n)))
  }

  /** One list afterwards. */
  lemma UnitedList(s: State, from: Node, to: Node, q: Ptr)
    requires Movable(s, from, to) && q in s.kids && q != Some(from)
    requires q.Some? ==> q.value in s.info && q.value !in GroupLost(s, At(s.kids, Some(from)), to)
    ensures var l, k := At(s.kids, Some(from)), At(KidsUnited(s, from, to), q);
            if q == None then k == Without(At(s.kids, None), from)
            else if q == Some(to) then k == At(s.kids, q) + l
            else if q.value in l && s.info[q.value].Contact? then k == Kept(s, At(s.kids, q), to)
            else k == At(s.kids, q)
  {
    hide Valid, Kept, Free, Without, GroupLost, Outlives;
    MovableKids(s, from, to);
    var l := s.kids[Some(from)];
    assert l[..|l|] == l;
    var k := KidsMoved(s, from, to, |l|);
    assert q in k && k[q] == ListMoved(s, from, to, |l|, q);
    assert None in k && k[None] == ListMoved(s, from, to, |l|, None) == s.kids[None];
  }

  lemma OustedAre(s: State, from: Node, to: Node, n: Node)
    requires n in s.info
    ensures Ousted(s, n, from, to) <==> n in GroupLost(s, At(s.kids, Some(from)), to)
  {
    if s.info[n].Buddy? {
      TakenIs(s, n, to);
    }
  }

  lemma UnitedInfo(s: State, from: Node, to: Node)
    requires from in s.info && s.info[from].Group?
    ensures var r := InfoUnited(s, from, to);
            && (forall n :: n in r <==> n in s.info && n != from && !Ousted(s, n, from, to))
            && forall n :: n in r ==> r[n] == s.info[n]
  {
    hide GroupLost, Ousted;
    forall n | n in s.info
      ensures Ousted(s, n, from, to) <==> n in GroupLost(s, At(s.kids, Some(from)), to)
    {
      OustedAre(s, from, to, n);
    }
    var lost := GroupLost(s, At(s.kids, Some(from)), to);
    forall n
      ensures n in Minus(s.info, lost) <==> n in s.info && n !in lost
    {
      if n in s.info {
        MinusAt(s.info, lost, n);
      }
    }
  }

  /** What uniting two groups comes to, when every contact outlives it. */
  lemma UnitedComes(s: State, s': State, from: Node, to: Node)
    requires Movable(s, from, to) && s'.kids == KidsUnited(s, from, to) && s'.info == InfoUnited(s, from, to)
    ensures GroupsUnite(s, s', from, to)
  {
    hide Valid, Kept, Free, Without, GroupLost, Outlives, KidsUnited, InfoUnited, Ousted, Taken, InOrder, Others;
    MovableKids(s, from, to);
    UnitedInfo(s, from, to);
    HeadOf(s, None);
    WithoutOthers(s.kids[None], from);
    UnitedList(s, from, to, None);
    LostBuddies(s, At(s.kids, Some(from)), to);
    UnitedList(s, from, to, Some(to));
    var l := s.kids[Some(from)];
    forall c | c in l && s.info[c].Contact?
      ensures InOrder(At(s'.kids, Some(c)), At(s.kids, Some(c)))
      ensures forall b :: b in At(s'.kids, Some(c)) <==> b in At(s.kids, Some(c)) && !Taken(s, b, to)
    {
      UnitedList(s, from, to, Some(c));
      KeptInOrder(s, s.kids[Some(c)], to);
      UnitedBuddies(s, c, to);
    }
    forall n | n in s'.info && n != to && n !in l
      ensures At(s'.kids, Some(n)) == At(s.kids, Some(n))
    {
      OustedAre(s, from, to, n);
      ListThere(s, n);
      UnitedList(s, from, to, Some(n));
    }
  }

  lemma ListThere(s: State, n: Node)
    requires Valid(s) && n in s.info
    ensures Some(n) in s.kids
  {
    hide Linked, Sized, Indexed, Filed, Named, Prioritized, Typed, TotalPreorder;
    Soundly(s, NOTHING);
    StandsAt(s.links, s.kids, s.info, {}, n);
  }

  lemma UnitedBuddies(s: State, c: Node, to: Node)
    requires Valid(s) && c in s.info && s.info[c].Contact? && Some(c) in s.kids
    ensures forall b :: b in Kept(s, s.kids[Some(c)], to) <==> b in s.kids[Some(c)] && !Taken(s, b, to)
  {
    hide Valid, Kept, Free, Taken;
    ContactKids(s, c);
    KeptAre(s, s.kids[Some(c)], to);
    forall b | b in s.kids[Some(c)]
      ensures Free(s, b, to) <==> !Taken(s, b, to)
    {
      TakenIs(s, b, to);
    }
  }
}
