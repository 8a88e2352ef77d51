/**
 Where a node stands after it has been moved, place by place: what is right before it in its list, and that all other
 nodes stand as they stood.
*/
module BlistPlaces {
  import opened BlistSeq
  import opened Options
  import opened BlistLinks
  import opened BlistModel
  import opened BlistSizes
  import opened BlistTree
  import opened BlistMoves
  import opened BlistSteps
  import opened BlistGroups
  import opened BlistFloat
  import opened BlistBuddies

  /** Node `n` is in the list once, right behind `a`, or first if there is no `a`. */
  ghost predicate Stands(t: seq<Node>, n: Node, a: Ptr) {
    exists i :: Behind(t, i, n, a)
  }

  predicate Behind(t: seq<Node>, i: int, n: Node, a: Ptr) {
    && 0 <= i < |t| && t[i] == n && n !in t[..i] && n !in t[i + 1..]
    && if a == None then i == 0 else i > 0 && t[i - 1] == a.value
  }

  /** The nodes of `t` but `n`, in order. */
  function Others(t: seq<Node>, n: Node): seq<Node> {
    if t == [] then [] else (if t[0] == n then [] else [t[0]]) + Others(t[1..], n)
  }

  /** The nodes of `t'` come in the order of `t`. */
  ghost predicate InOrder(t': seq<Node>, t: seq<Node>) {
    forall i, j :: 0 <= i < j < |t'| ==> Comes(t, t'[i], t'[j])
  }

  /** Node `n` comes before node `m`. */
  ghost predicate Comes(t: seq<Node>, n: Node, m: Node) {
    exists k, l :: 0 <= k < l < |t| && t[k] == n && t[l] == m
  }

  lemma {:induction false} OthersNone(t: seq<Node>, n: Node)
    requires n !in t
    ensures Others(t, n) == t
  {
    if t != [] {
      OthersNone(t[1..], n);
    }
  }

  lemma {:induction false} OthersBoth(t: seq<Node>, r: seq<Node>, n: Node)
    ensures Others(t + r, n) == Others(t, n) + Others(r, n)
  {
    if t == [] {
      assert t + r == r;
    } else {
      assert (t + r)[1..] == t[1..] + r;
      OthersBoth(t[1..], r, n);
    }
  }

  lemma OnlyAt(t: seq<Node>, i: nat)
    requires NoDup(t) && i < |t|
    ensures t[i] !in t[..i] && t[i] !in t[i + 1..]
  {
  }

  /** A list without repetitions is one of its nodes among the others. */
  lemma OthersAt(t: seq<Node>, i: nat)
    requires NoDup(t) && i < |t|
    ensures Others(t, t[i]) == t[..i] + t[i + 1..]
  {
    hide Others, NoDup;
    var p, q := t[..i], t[i + 1..];
    OnlyAt(t, i);
    assert t == p + ([t[i]] + q);
    OthersBoth(p, [t[i]] + q, t[i]);
    OthersBoth([t[i]], q, t[i]);
    OthersNone(p, t[i]);
    OthersNone(q, t[i]);
    OthersOne(t[i]);
  }

  lemma OthersOne(n: Node)
    ensures Others([n], n) == [] && forall q: seq<Node> {:trigger [] + q} :: [] + q == q
  {
  }

  /** Taking a node out leaves the others. */
  lemma WithoutOthers(t: seq<Node>, n: Node)
    requires NoDup(t)
    ensures Without(t, n) == Others(t, n)
  {
    hide Without, Others;
    if n in t {
      var i :| 0 <= i < |t| && t[i] == n;
      WithoutAt(t, i);
      OthersAt(t, i);
    } else {
      WithoutAbsent(t, n);
      OthersNone(t, n);
    }
  }

  lemma AmongStands(t: seq<Node>, i: int, n: Node)
    requires -1 <= i < |t| && n !in t
    ensures var r := t[..i + 1] + [n] + t[i + 1..];
            && |r| == |t| + 1 && r[i + 1] == n && r[..i + 1] + r[i + 2..] == t && Stands(r, n, Before(t, i + 1))
  {
    var r := t[..i + 1] + [n] + t[i + 1..];
    assert r[..i + 1] == t[..i + 1] && r[i + 2..] == t[i + 1..];
    assert Behind(r, i + 1, n, Before(t, i + 1));
  }

  /** Putting a node back in behind `a` puts it there, among the others. */
  lemma InsertedStands(t: seq<Node>, a: Ptr, n: Node)
    requires NoDup(t) && n !in t && (a.Some? ==> a.value in t)
    ensures Stands(InsertAfter(t, a, n), n, a) && Others(InsertAfter(t, a, n), n) == t
  {
    hide InsertAfter, Others, NoDup, Stands;
    var i :| -1 <= i < |t| && Before(t, i + 1) == a by {
      if a.Some? {
        var i :| 0 <= i < |t| && t[i] == a.value;
        assert Before(t, i + 1) == a;
      } else {
        assert Before(t, 0) == a;
      }
    }
    InsertAt(t, i, n);
    InsertKeeps(t, a, n);
    AmongStands(t, i, n);
    var r := InsertAfter(t, a, n);
    OthersAt(r, i + 1);
    assert r[i + 1] == n && r[..i + 1] + r[i + 2..] == t;
  }

  /** A list in which node `n` changes its place. */
  lemma MovedStands(t: seq<Node>, a: Ptr, n: Node)
    requires NoDup(t) && (a.Some? ==> a.value in t && a.value != n)
    ensures var t' := InsertAfter(Without(t, n), a, n); Stands(t', n, a) && Others(t', n) == Others(t, n)
  {
    hide InsertAfter, Without, Others;
    WithoutKeeps(t, n);
    WithoutOthers(t, n);
    InsertedStands(Without(t, n), a, n);
  }

  // ------------------------------------------------------------------ contacts

  /** Somebody in group `g` is filed under the name and account of `b`. */
  predicate Taken(s: State, b: Node, g: Node) {
    b in s.info && s.info[b].Buddy?
    && Key(s.env.normalize(s.info[b].account, s.info[b].name), s.info[b].account, g) in s.tables.buddies
  }

  /** Contact `c` is in another group than `g`. */
  predicate Elsewhere(s: State, c: Node, g: Node) {
    c in s.links.parent && s.links.parent[c].Some? && s.links.parent[c] != Some(g)
  }

  /** Of the buddies of contact `c` those are lost that come to another group in which their keys are taken. */
  ghost predicate BuddiesCome(s: State, s': State, c: Node, g: Node) {
    var l, l' := At(s.kids, Some(c)), At(s'.kids, Some(c));
    if Elsewhere(s, c, g)
    then (forall b :: b in l' <==> b in l && !Taken(s, b, g)) && NoDup(l') && InOrder(l', l)
    else l' == l
  }

  /**
   Between `s` and `s'` contact `c` has come to group `g`, right behind `a` or in front. It is gone instead if it had
   buddies in another group and the keys of all of them are taken here.
  */
  ghost predicate ContactComes(s: State, s': State, c: Node, g: Node, a: Ptr) {
    var q, l := if c in s.links.parent then s.links.parent[c] else None, At(s.kids, Some(c));
    && (c !in s'.info <==> Elsewhere(s, c, g) && l != [] && forall b :: b in l ==> Taken(s, b, g))
    && (c in s'.info ==> Stands(At(s'.kids, Some(g)), c, a) && BuddiesCome(s, s', c, g))
    && Others(At(s'.kids, Some(g)), c) == Others(At(s.kids, Some(g)), c)
    && (c !in s'.info ==> c !in At(s'.kids, Some(g)))
    && (q.Some? && q != Some(g) ==> At(s'.kids, q) == Others(At(s.kids, q), c))
    && (forall n :: n in s.info && n !in s'.info ==> n == c || (n in l && Taken(s, n, g) && Elsewhere(s, c, g)))
    && (forall n :: n in s.info && n in s'.info ==> s'.info[n] == s.info[n])
    && (forall n :: n in s.info && n in s'.info && n != c && n != g && Some(n) != q ==>
          At(s'.kids, Some(n)) == At(s.kids, Some(n)))
    && At(s'.kids, None) == if g in At(s.kids, None) then At(s.kids, None) else At(s.kids, None) + [g]
  }

  lemma TakenIs(s: State, b: Node, g: Node)
    requires b in s.info && s.info[b].Buddy?
    ensures Taken(s, b, g) <==> !Free(s, b, g)
  {
  }

  /** One more at the end keeps the order, if it is the last one of the other list. */
  lemma InOrderMore(p: seq<Node>, l: seq<Node>, x: Node, more: bool)
    requires InOrder(p, l) && forall n :: n in p ==> n in l
    ensures InOrder(if more then p + [x] else p, l + [x])
  {
    var t, r := if more then p + [x] else p, l + [x];
    forall i, j | 0 <= i < j < |t| ensures Comes(r, t[i], t[j]) {
      if j < |p| {
        assert p[i] == t[i] && p[j] == t[j] && Comes(l, p[i], p[j]);
        var k, m :| 0 <= k < m < |l| && l[k] == p[i] && l[m] == p[j];
        assert r[k] == t[i] && r[m] == t[j];
      } else {
        assert p[i] == t[i] && t[i] in l;
        var k :| 0 <= k < |l| && l[k] == t[i];
        assert r[k] == t[i] && r[|l|] == t[j];
      }
    }
  }

  lemma {:induction false} KeptInOrder(s: State, l: seq<Node>, g: Node)
    ensures InOrder(Kept(s, l, g), l) && forall n :: n in Kept(s, l, g) ==> n in l
  {
    hide Free, InOrder;
    if l == [] {
      assert InOrder([], []) by { NoOrder(); }
    } else {
      var n := |l| - 1;
      KeptInOrder(s, l[..n], g);
      InOrderMore(Kept(s, l[..n], g), l[..n], l[n], Free(s, l[n], g));
      assert l == l[..n] + [l[n]];
      assert Kept(s, l[..n], g) + [] == Kept(s, l[..n], g);
    }
  }

  lemma NoOrder()
    ensures InOrder([], [])
  {
  }

  /** Where contact `c` and group `g` are before the move. */
  ghost predicate MayCome(s: State, c: Node, g: Node, a: Ptr) {
    && Valid(s) && c in s.info && s.info[c].Contact? && c in s.links.parent
    && g in s.info && s.info[g].Group? && None in s.kids && g in s.kids[None] && Some(g) in s.kids
    && (a.Some? ==> a.value in s.kids[Some(g)] && a.value != c)
  }

  /** The lists that a moving contact leaves and comes to. */
  lemma ComesFrom(s: State, c: Node, g: Node, a: Ptr)
    requires MayCome(s, c, g, a)
    ensures Some(c) in s.kids && c != g && NoDup(s.kids[Some(g)]) && NoDup(s.kids[Some(c)])
    ensures var q := s.links.parent[c];
            && (c in s.kids[Some(g)] <==> q == Some(g))
            && (q.Some? ==> q in s.kids && c in s.kids[q] && NoDup(s.kids[q]) && q != Some(c) && q.value in s.info
                            && s.info[q.value].Group?)
    ensures forall b :: b in s.kids[Some(c)] ==> b in s.info && s.info[b].Buddy? && b != g && b != c
  {
    hide Linked, Placed, Sized, Indexed, Filed, Named, Prioritized, Typed, TotalPreorder;
    ChildStands(s, c);
    HeadOf(s, Some(g));
    HeadOf(s, Some(c));
    BuddyKids(s, {}, c) by { Soundly(s, NOTHING); }
    if c in s.kids[Some(g)] {
      ChildOf(s.links, s.kids, s.info, {}, Some(g), c) by { Soundly(s, NOTHING); }
    }
    if s.links.parent[c].Some? {
      HeadOf(s, s.links.parent[c]);
    }
  }

  /** A contact that is loose, or stays in its group. */
  lemma ComesWhole(s: State, s': State, c: Node, g: Node, a: Ptr)
    requires MayCome(s, c, g, a) && !Elsewhere(s, c, g)
    requires s'.kids == Rehomed(s, c, g, a) && s'.info == Minus(s.info, Casualties(s, c, g))
    ensures ContactComes(s, s', c, g, a)
  {
    hide Valid, NoDup, InsertAfter, Without, Others, Stands, Taken, Kept;
    ComesFrom(s, c, g, a);
    var t := s.kids[Some(g)];
    if s.links.parent[c] == None {
      InsertedStands(t, a, c);
      OthersNone(t, c);
    } else {
      MovedStands(t, a, c);
    }
    assert !Emigrates(s, c, g);
    assert s'.info == s.info;
  }

  /** A contact none of whose buddies can come. */
  lemma ComesToNothing(s: State, s': State, c: Node, g: Node, a: Ptr)
    requires MayCome(s, c, g, a) && Perishes(s, c, g)
    requires s'.kids == Rehomed(s, c, g, a) && s'.info == Minus(s.info, Casualties(s, c, g))
    ensures ContactComes(s, s', c, g, a)
  {
    hide Valid, NoDup, InsertAfter, Without, Others, Stands, Taken, Kept, Free;
    ComesFrom(s, c, g, a);
    KeptAre(s, s.kids[Some(c)], g);
    forall b | b in s.kids[Some(c)] ensures Taken(s, b, g) {
      TakenIs(s, b, g);
    }
    var q := s.links.parent[c];
    WithoutOthers(s.kids[q], c);
    OthersNone(s.kids[Some(g)], c);
    assert Elements(s.kids[Some(c)]) + {c} == Casualties(s, c, g);
  }

  /** A contact that comes from another group with some of its buddies, or had none. */
  lemma ComesInPart(s: State, s': State, c: Node, g: Node, a: Ptr)
    requires MayCome(s, c, g, a) && Elsewhere(s, c, g) && !Perishes(s, c, g)
    requires s'.kids == Rehomed(s, c, g, a) && s'.info == Minus(s.info, Casualties(s, c, g))
    ensures ContactComes(s, s', c, g, a)
  {
    hide Valid, NoDup, InsertAfter, Without, Others, Stands, Taken, Kept, Free, InOrder;
    ComesFrom(s, c, g, a);
    var q, l, t := s.links.parent[c], s.kids[Some(c)], s.kids[Some(g)];
    KeptAre(s, l, g);
    KeptInOrder(s, l, g);
    forall b | b in l ensures Taken(s, b, g) <==> !Free(s, b, g) {
      TakenIs(s, b, g);
    }
    WithoutOthers(s.kids[q], c);
    InsertedStands(t, a, c);
    OthersNone(t, c);
    assert Emigrates(s, c, g);
    if l != [] {
      assert Kept(s, l, g)[0] in Kept(s, l, g);
    }
    var lost := Casualties(s, c, g);
    assert forall n :: n in lost <==> n in l && !Free(s, n, g);
    var k := KidsMinus(s.kids[Some(c) := Kept(s, l, g)], lost);
    assert q in k && k[q] == s.kids[q] && Some(g) in k && k[Some(g)] == t;
    assert Some(c) in k && k[Some(c)] == Kept(s, l, g);
    assert s'.kids == k[q := Without(s.kids[q], c)][Some(g) := InsertAfter(t, a, c)];
  }

  lemma RehomedComes(s: State, s': State, c: Node, g: Node, a: Ptr)
    requires MayCome(s, c, g, a)
    requires s'.kids == Rehomed(s, c, g, a) && s'.info == Minus(s.info, Casualties(s, c, g))
    ensures ContactComes(s, s', c, g, a)
  {
    hide Valid, Rehomed, Casualties, ContactComes, Kept;
    if !Elsewhere(s, c, g) {
      ComesWhole(s, s', c, g, a);
    } else if Perishes(s, c, g) {
      ComesToNothing(s, s', c, g, a);
    } else {
      ComesInPart(s, s', c, g, a);
    }
  }

  /** The same lists and nodes, but that group `g` is in the list of groups. */
  ghost predicate WithHost(s: State, s1: State, c: Node, g: Node) {
    && (forall n :: At(s1.kids, Some(n)) == At(s.kids, Some(n)))
    && At(s1.kids, None) == (if g in At(s.kids, None) then At(s.kids, None) else At(s.kids, None) + [g])
    && (forall n :: n in s.info ==> n in s1.info && s1.info[n] == s.info[n])
    && (forall n {:trigger n in s1.info} :: n in s1.info ==> n in s.info || n == g)
    && c in s.links.parent && c in s1.links.parent && s1.links.parent[c] == s.links.parent[c]
    && s1.env == s.env && s1.tables.buddies == s.tables.buddies
  }

  lemma HostedWithHost(s: State, s1: State, c: Node, g: Node, spare: Node, name: string)
    requires None in s.kids && SameHome(s1, Hosted(s, g, spare, name)) && c in s.links.parent && c != spare
    requires (g in s.kids[None] && g != spare) || (g == spare && spare !in s.info && Some(spare) !in s.kids)
    ensures WithHost(s, s1, c, g)
  {
  }

  /** The same with the group put into the list first. */
  lemma ComesHosted(s: State, s1: State, s': State, c: Node, g: Node, a: Ptr)
    requires WithHost(s, s1, c, g) && c in s.info && ContactComes(s1, s', c, g, a)
    requires forall n :: n in At(s.kids, Some(c)) ==> n in s.info
    ensures ContactComes(s, s', c, g, a)
  {
    hide InOrder, Stands, Others, At;
    forall n | n in s.info ensures Taken(s1, n, g) <==> Taken(s, n, g) {
    }
    hide Taken;
    assert Elsewhere(s1, c, g) <==> Elsewhere(s, c, g);
    assert At(s1.kids, Some(c)) == At(s.kids, Some(c));
    assert BuddiesCome(s1, s', c, g) <==> BuddiesCome(s, s', c, g);
  }

  /** A node that is not there is in no list and has none. */
  lemma NotThere(s: State, n: Node)
    requires Valid(s) && n !in s.info
    ensures None in s.kids && n !in s.kids[None] && Some(n) !in s.kids
  {
    hide Sized, Indexed, Filed, Named, Prioritized, Typed, TotalPreorder, Placed, Chain;
    Soundly(s, NOTHING);
    LinksDomain(s, NOTHING);
    if n in s.kids[None] {
      ChildOf(s.links, s.kids, s.info, {}, None, n);
    }
  }

  lemma HeldBy(s: State, g: Node, c: Node)
    requires Valid(s) && Some(g) in s.kids && c in s.kids[Some(g)]
    ensures c in s.links.parent && s.links.parent[c] == Some(g)
  {
    hide Linked, Placed, Sized, Indexed, Filed, Named, Prioritized, Typed, TotalPreorder;
    Soundly(s, NOTHING);
    ChildOf(s.links, s.kids, s.info, {}, Some(g), c);
  }

  /** The group that a child goes to is listed, or is the spare one. */
  lemma TargetListed(s: State, g: Node, c: Node, spare: Node, name: string)
    requires Valid(s) && None in s.kids && c in s.info && s.info[c].Contact? && spare !in s.info
    requires g in s.kids[None] || g == Default(s, None, name, spare)
    ensures (g in s.kids[None] && g != spare) || (g == spare && Some(spare) !in s.kids)
    ensures forall n :: n in At(s.kids, Some(c)) ==> n in s.info
  {
    hide Valid;
    NotThere(s, spare);
    if s.env.collateKey(name) in s.tables.groups {
      GroupIndexed(s, s.env.collateKey(name));
    }
    ChildStands(s, c);
    KidsThere(s, c);
  }

  lemma KidsThere(s: State, c: Node)
    requires Valid(s) && c in s.info && s.info[c].Contact? && Some(c) in s.kids
    ensures forall n :: n in s.kids[Some(c)] ==> n in s.info
  {
    hide Linked, Placed, Sized, Indexed, Filed, Named, Prioritized, Typed, TotalPreorder;
    BuddyKids(s, {}, c) by { Soundly(s, NOTHING); }
  }

  /** What adding a contact comes to, the group having been put into the list in between. */
  lemma AddedComes(s: State, s1: State, s': State, c: Node, g: Node, a: Ptr, spare: Node)
    requires Valid(s) && None in s.kids && c in s.info && s.info[c].Contact? && spare !in s.info && c in s.links.parent
    requires g in s.kids[None] || g == Default(s, None, s.env.buddiesGroup, spare)
    requires SameHome(s1, Hosted(s, g, spare, s.env.buddiesGroup)) && ContactComes(s1, s', c, g, a)
    ensures ContactComes(s, s', c, g, a)
  {
    hide Valid, SameHome, ContactComes, Default, WithHost;
    TargetListed(s, g, c, spare, s.env.buddiesGroup);
    HostedWithHost(s, s1, c, g, spare, s.env.buddiesGroup);
    ComesHosted(s, s1, s', c, g, a);
  }

  // --------------------------------------------------------------------- chats

  /** Between `s` and `s'` chat `n` has come to group `g`, right behind `a` or in front, and nothing else has moved. */
  ghost predicate ChatComes(s: State, s': State, n: Node, g: Node, a: Ptr) {
    var q := if n in s.links.parent then s.links.parent[n] else None;
    && Stands(At(s'.kids, Some(g)), n, a) && Others(At(s'.kids, Some(g)), n) == Others(At(s.kids, Some(g)), n)
    && (q.Some? && q != Some(g) ==> At(s'.kids, q) == Others(At(s.kids, q), n))
    && (forall m :: m in s.info ==> m in s'.info && s'.info[m] == s.info[m])
    && (forall m :: m in s.info && m != g && Some(m) != q ==> At(s'.kids, Some(m)) == At(s.kids, Some(m)))
    && At(s'.kids, None) == if g in At(s.kids, None) then At(s.kids, None) else At(s.kids, None) + [g]
  }

  lemma MovedComes(s: State, s': State, n: Node, g: Node, a: Ptr)
    requires Valid(s) && None in s.kids && n in s.info && s.info[n].Chat? && n in s.links.parent && a != Some(n)
    requires g in s.kids[None] || At(s.kids, Some(g)) == []
    requires a.Some? ==> a.value in At(s.kids, Some(g))
    requires s'.kids == Moved(Listed(s.kids, g), s.links.parent[n], n, g, a)
    requires forall m :: m in s.info ==> m in s'.info && s'.info[m] == s.info[m]
    requires g in s.kids[None] ==> Some(g) in s.kids
    ensures ChatComes(s, s', n, g, a)
  {
    hide Valid, NoDup, InsertAfter, Without, Others, Stands;
    ChildStands(s, n);
    var q, t := s.links.parent[n], At(s.kids, Some(g));
    assert NoDup(t) by {
      if Some(g) in s.kids { HeadOf(s, Some(g)); } else { NoneTwice(); }
    }
    if q == Some(g) {
      MovedStands(t, a, n);
    } else {
      NotIn(s, n, g);
      InsertedStands(t, a, n);
      OthersNone(t, n);
      if q.Some? {
        HeadOf(s, q);
        WithoutOthers(s.kids[q], n);
      }
    }
  }

  lemma NoneTwice()
    ensures NoDup([])
  {
  }

  lemma NotIn(s: State, n: Node, g: Node)
    requires Valid(s) && n in s.info && n in s.links.parent && s.links.parent[n] != Some(g)
    ensures n !in At(s.kids, Some(g))
  {
    hide Linked, Placed, Sized, Indexed, Filed, Named, Prioritized, Typed, TotalPreorder;
    if n in At(s.kids, Some(g)) {
      ChildOf(s.links, s.kids, s.info, {}, Some(g), n) by { Soundly(s, NOTHING); }
    }
  }

  /** What adding a chat comes to. */
  lemma ChatAdded(s: State, s': State, n: Node, group: Ptr, g: Node, a: Ptr, spare: Node)
    requires Valid(s) && None in s.kids && n in s.info && s.info[n].Chat? && n in s.links.parent && a != Some(n)
    requires spare !in s.info
    requires group.Some? ==> group.value in s.info && s.info[group.value].Group?
    requires if a.Some? then Some(g) in s.kids && a.value in s.kids[Some(g)] && g in s.kids[None]
             else g == Default(s, group, s.env.chatsGroup, spare)
    requires s'.kids == Moved(Listed(s.kids, g), s.links.parent[n], n, g, a)
    requires s'.info == if g == spare then s.info[spare := Group(s.env.chatsGroup)] else s.info
    ensures ChatComes(s, s', n, g, a)
  {
    hide Valid, Moved, Listed, ChatComes;
    NotThere(s, spare);
    if s.env.collateKey(s.env.chatsGroup) in s.tables.groups {
      GroupIndexed(s, s.env.collateKey(s.env.chatsGroup));
    }
    if g in s.info && s.info[g].Group? {
      GroupListed(s, g);
    }
    MovedComes(s, s', n, g, a);
  }

  // ------------------------------------------------------------------- buddies

  /** The contact that buddy `b` leaves empty when it goes to contact `c`, if it does. */
  function Deserted(s: State, b: Node, c: Node): Ptr {
    if b in s.links.parent && s.links.parent[b].Some? && s.links.parent[b] != Some(c)
       && At(s.kids, s.links.parent[b]) == [b]
    then s.links.parent[b] else None
  }

  /** The list of `n` without the contact `d` that is gone, if it was in it. */
  function Left(s: State, n: Node, d: Ptr): seq<Node> {
    if d.Some? then Others(At(s.kids, Some(n)), d.value) else At(s.kids, Some(n))
  }

  /**
   Between `s` and `s'` buddy `b` has come to contact `c`, right behind `a` or in front; the contact it left is gone if
   there was nobody else in it, and nothing else has moved.
  */
  ghost predicate BuddyComes(s: State, s': State, b: Node, c: Node, a: Ptr) {
    var q, d := if b in s.links.parent then s.links.parent[b] else None, Deserted(s, b, c);
    && Stands(At(s'.kids, Some(c)), b, a) && Others(At(s'.kids, Some(c)), b) == Others(At(s.kids, Some(c)), b)
    && (q.Some? && q != Some(c) && q != d ==> At(s'.kids, q) == Others(At(s.kids, q), b))
    && (forall n :: n in s.info ==> (n in s'.info <==> Some(n) != d) && (n in s'.info ==> s'.info[n] == s.info[n]))
    && (forall n :: n in s.info && n != c && Some(n) != q ==> At(s'.kids, Some(n)) == Left(s, n, d))
    && At(s'.kids, None) == At(s.kids, None)
  }

  lemma RepositionsComes(s: State, s': State, b: Node, c: Node, g: Node, a: Ptr)
    requires Valid(s) && b in s.info && s.info[b].Buddy? && b in s.links.parent && a != Some(b)
    requires c in s.info && s.info[c].Contact? && Some(c) in s.kids
    requires c in s.links.parent && s.links.parent[c] == Some(g)
    requires a.Some? ==> a.value in s.kids[Some(c)]
    requires a == None ==> s.links.parent[b] != Some(c) || First(s.kids[Some(c)]) != Some(b)
    requires Repositions(s, s', b, c, g, a)
    ensures BuddyComes(s, s', b, c, a)
  {
    hide Valid, NoDup, InsertAfter, Others, Stands, Without, Repositions, BuddyComes;
    HeadOf(s, Some(c));
    TypedNames(s);
    var q := s.links.parent[b];
    if q != Some(c) {
      NotInContact(s, b, c);
    }
    if q == None {
      LooseComes(s, s', b, c, g, a);
    } else {
      BuddyStands(s, NOTHING, b) by { ValidIs(s); }
      if q == Some(c) {
        WithinComes(s, s', b, c, g, a);
      } else {
        AcrossOrLast(s, s', b, c, g, a, q.value, s.links.parent[q.value].value);
      }
    }
  }

  lemma AcrossOrLast(s: State, s': State, b: Node, c: Node, g: Node, a: Ptr, c0: Node, g0: Node)
    requires Valid(s) && BuddyAt(s, b, c0, g0) && c0 != c && a != Some(b)
    requires c in s.info && s.info[c].Contact? && Some(c) in s.kids && None in s.kids
    requires a.Some? ==> a.value in s.kids[Some(c)]
    requires b !in s.kids[Some(c)] && NoDup(s.kids[Some(c)])
    requires Repositions(s, s', b, c, g, a)
    ensures BuddyComes(s, s', b, c, a)
  {
    hide Valid, NoDup, Repositions, BuddyComes;
    if Empties(s.kids, b, c0) {
      LastComes(s, s', b, c, g, a, c0, g0);
    } else {
      AcrossComes(s, s', b, c, g, a, c0, g0);
    }
  }

  lemma NotInContact(s: State, b: Node, c: Node)
    requires Valid(s) && b in s.info && b in s.links.parent && s.links.parent[b] != Some(c)
    ensures b !in At(s.kids, Some(c))
  {
    hide Valid;
    NotIn(s, b, c);
  }

  lemma LooseComes(s: State, s': State, b: Node, c: Node, g: Node, a: Ptr)
    requires b in s.links.parent && s.links.parent[b] == None && Some(c) in s.kids && NoDup(s.kids[Some(c)])
    requires b !in s.kids[Some(c)] && (a.Some? ==> a.value in s.kids[Some(c)]) && None in s.kids
    requires Repositions(s, s', b, c, g, a)
    ensures BuddyComes(s, s', b, c, a)
  {
    hide NoDup, InsertAfter, Others, Stands;
    InsertedStands(s.kids[Some(c)], a, b);
    OthersNone(s.kids[Some(c)], b);
  }

  lemma WithinComes(s: State, s': State, b: Node, c: Node, g: Node, a: Ptr)
    requires b in s.links.parent && s.links.parent[b] == Some(c) && c in s.links.parent && s.links.parent[c] == Some(g)
    requires Some(c) in s.kids && NoDup(s.kids[Some(c)]) && b in s.kids[Some(c)] && None in s.kids && a != Some(b)
    requires a.Some? ==> a.value in s.kids[Some(c)]
    requires a == None ==> First(s.kids[Some(c)]) != Some(b)
    requires Repositions(s, s', b, c, g, a)
    ensures BuddyComes(s, s', b, c, a)
  {
    hide NoDup, InsertAfter, Others, Stands, Without;
    var t := s.kids[Some(c)];
    WithoutKeeps(t, b);
    MovedStands(t, a, b);
    var o := if a.Some? then a.value else t[0];
    assert o in t && o != b;
    assert !Empties(s.kids, b, c);
  }

  /** Out of contact `c0` of group `g0`, in which others stay. */
  lemma AcrossComes(s: State, s': State, b: Node, c: Node, g: Node, a: Ptr, c0: Node, g0: Node)
    requires Valid(s) && BuddyAt(s, b, c0, g0) && c0 != c && a != Some(b) && !Empties(s.kids, b, c0)
    requires c in s.info && s.info[c].Contact? && Some(c) in s.kids && None in s.kids
    requires a.Some? ==> a.value in s.kids[Some(c)]
    requires b !in s.kids[Some(c)] && NoDup(s.kids[Some(c)])
    requires Repositions(s, s', b, c, g, a)
    ensures BuddyComes(s, s', b, c, a)
  {
    hide Valid, NoDup, InsertAfter, Others, Stands, Without;
    var t, t0 := s.kids[Some(c)], s.kids[Some(c0)];
    HeadOf(s, Some(c0));
    WithoutOthers(t0, b);
    InsertedStands(t, a, b);
    OthersNone(t, b);
    OnlyOne(t0, b);
  }

  /** Out of contact `c0` of group `g0`, which goes, there being nobody else in it. */
  lemma LastComes(s: State, s': State, b: Node, c: Node, g: Node, a: Ptr, c0: Node, g0: Node)
    requires Valid(s) && BuddyAt(s, b, c0, g0) && c0 != c && a != Some(b) && Empties(s.kids, b, c0)
    requires c in s.info && s.info[c].Contact? && Some(c) in s.kids && None in s.kids
    requires a.Some? ==> a.value in s.kids[Some(c)]
    requires b !in s.kids[Some(c)] && NoDup(s.kids[Some(c)])
    requires Repositions(s, s', b, c, g, a)
    ensures BuddyComes(s, s', b, c, a)
  {
    hide Valid, NoDup, InsertAfter, Others, Stands, Without, KidsLeft;
    var t, t0 := s.kids[Some(c)], s.kids[Some(c0)];
    HeadOf(s, Some(c0));
    InsertedStands(t, a, b);
    OthersNone(t, b);
    OnlyOne(t0, b);
    LastLeft(s, b, c0, g0);
  }

  /** What the lists are without the contact that is left empty. */
  lemma LastLeft(s: State, b: Node, c0: Node, g0: Node)
    requires Valid(s) && BuddyAt(s, b, c0, g0) && Empties(s.kids, b, c0)
    ensures forall n :: n != c0 ==> At(KidsLeft(s.kids, b, c0, g0), Some(n)) == Others(At(s.kids, Some(n)), c0)
    ensures forall n :: n != c0 && n != g0 ==> Others(At(s.kids, Some(n)), c0) == At(s.kids, Some(n))
    ensures At(KidsLeft(s.kids, b, c0, g0), None) == At(s.kids, None)
  {
    hide Valid, NoDup, Others, Without;
    HeadOf(s, Some(g0));
    WithoutOthers(s.kids[Some(g0)], c0);
    forall n | n != g0 ensures Others(At(s.kids, Some(n)), c0) == At(s.kids, Some(n)) {
      GroupKid(s, b, c0, g0, n);
      OthersNone(At(s.kids, Some(n)), c0);
    }
  }

  /** A list is empty without one of its nodes if it has no other. */
  lemma OnlyOne(t: seq<Node>, n: Node)
    requires NoDup(t) && n in t
    ensures Without(t, n) == [] <==> t == [n]
  {
    WithoutKeeps(t, n);
  }

  lemma GroupKid(s: State, b: Node, c0: Node, g0: Node, n: Node)
    requires Valid(s) && BuddyAt(s, b, c0, g0) && n != g0
    ensures c0 !in At(s.kids, Some(n))
  {
    hide Valid;
    NotIn(s, c0, n);
  }

  /** The contact in which buddy `b` is the only one, if it is. */
  function OnlyContact(s: State, b: Node): Ptr {
    if b in s.links.parent && s.links.parent[b].Some? && At(s.kids, s.links.parent[b]) == [b] then s.links.parent[b]
    else None
  }

  /**
   Between `s` and `s'` buddy `b` has gone, and its contact if there was nobody else in it; nothing else has moved.
  */
  ghost predicate BuddyLeaves(s: State, s': State, b: Node) {
    var q, d := if b in s.links.parent then s.links.parent[b] else None, OnlyContact(s, b);
    && (forall n :: n in s'.info <==> n in s.info && n != b && Some(n) != d)
    && (forall n :: n in s'.info ==> s'.info[n] == s.info[n])
    && (q.Some? && q != d ==> At(s'.kids, q) == Others(At(s.kids, q), b))
    && (forall n :: n in s'.info && Some(n) != q ==> At(s'.kids, Some(n)) == Left(s, n, d))
    && At(s'.kids, None) == At(s.kids, None)
  }

  lemma DroppedLists(s: State, b: Node, c: Node, g: Node)
    requires Valid(s) && BuddyAt(s, b, c, g)
    ensures var k, last := KidsDropped(s.kids, b, c, g), At(s.kids, Some(c)) == [b];
            && (last <==> Without(s.kids[Some(c)], b) == []) && At(k, None) == At(s.kids, None)
            && (!last ==> At(k, Some(c)) == Others(At(s.kids, Some(c)), b))
            && forall n :: n != b && n != c ==>
                 At(k, Some(n)) == if last then Others(At(s.kids, Some(n)), c) else At(s.kids, Some(n))
  {
    hide Valid, NoDup, Others, Without;
    HeadOf(s, Some(c));
    HeadOf(s, Some(g));
    OnlyOne(s.kids[Some(c)], b);
    WithoutOthers(s.kids[Some(c)], b);
    WithoutOthers(s.kids[Some(g)], c);
    forall n | n != g
      ensures Others(At(s.kids, Some(n)), c) == At(s.kids, Some(n))
    {
      GroupKid(s, b, c, g, n);
      OthersNone(At(s.kids, Some(n)), c);
    }
  }

  lemma DroppedLeaves(s: State, s': State, b: Node, c: Node, g: Node)
    requires Valid(s) && BuddyAt(s, b, c, g) && g in s.drift && Dropped(s, s', b, c, g)
    ensures BuddyLeaves(s, s', b)
  {
    hide Valid, Others, Without, KidsDropped, At, BuddyLeaves;
    DroppedLists(s, b, c, g);
    DroppedWith(s, s', b, c);
  }

  lemma DroppedWith(s: State, s': State, b: Node, c: Node)
    requires b in s.links.parent && s.links.parent[b] == Some(c)
    requires var last := At(s.kids, Some(c)) == [b];
             && s'.info == (if last then Less(Less(s.info, b), c) else Less(s.info, b))
             && At(s'.kids, None) == At(s.kids, None)
             && (!last ==> At(s'.kids, Some(c)) == Others(At(s.kids, Some(c)), b))
             && forall n :: n != b && n != c ==>
                  At(s'.kids, Some(n)) == if last then Others(At(s.kids, Some(n)), c) else At(s.kids, Some(n))
    ensures BuddyLeaves(s, s', b)
  {
    hide Others, At;
  }

  lemma LooseLeaves(s: State, s': State, b: Node)
    requires b in s.info && b in s.links.parent && s.links.parent[b] == None
    requires s'.info == Less(s.info, b) && s'.kids == Less(s.kids, Some(b))
    ensures BuddyLeaves(s, s', b)
  {
  }

  /** Between `s` and `s'` buddy `b` has come into a new contact `c` of its own at the end of group `g`. */
  ghost predicate BuddyComesAlone(s: State, s': State, b: Node, c: Node, g: Node) {
    var q, d := if b in s.links.parent then s.links.parent[b] else None, Deserted(s, b, c);
    && c !in s.info && c in s'.info && s'.info[c] == Contact && At(s'.kids, Some(c)) == [b]
    && At(s'.kids, Some(g)) == Left(s, g, d) + [c]
    && (q.Some? && q != d ==> At(s'.kids, q) == Others(At(s.kids, q), b))
    && (forall n :: n in s.info ==> (n in s'.info <==> Some(n) != d) && (n in s'.info ==> s'.info[n] == s.info[n]))
    && (forall n :: n in s.info && n != g && Some(n) != q ==> At(s'.kids, Some(n)) == Left(s, n, d))
    && At(s'.kids, None) == if g in At(s.kids, None) then At(s.kids, None) else At(s.kids, None) + [g]
  }

  /** The same lists and nodes, but for a new contact `c` at the end of group `g`, which is in the list. */
  ghost predicate WithNovel(s: State, s1: State, b: Node, c: Node, g: Node) {
    && (forall n :: n != g && n != c ==> At(s1.kids, Some(n)) == At(s.kids, Some(n)))
    && At(s1.kids, Some(c)) == [] && At(s1.kids, Some(g)) == At(s.kids, Some(g)) + [c]
    && At(s1.kids, None) == (if g in At(s.kids, None) then At(s.kids, None) else At(s.kids, None) + [g])
    && (forall n :: n in s.info ==> n in s1.info && s1.info[n] == s.info[n])
    && c !in s.info && c in s1.info && s1.info[c] == Contact && g != c && g in s1.info
    && b in s.links.parent && b in s1.links.parent && s1.links.parent[b] == s.links.parent[b]
  }

  lemma NovelIs(s: State, s1: State, b: Node, c: Node, g: Node, spare: Node, name: string)
    requires None in s.kids && c !in s.info && g != c && SameHome(s1, Novel(s, c, g, spare, name))
    requires g in s.kids[None] || At(s.kids, Some(g)) == []
    requires b in s.links.parent && b in s.info && spare !in s.info && (g == spare || g in s.info)
    ensures WithNovel(s, s1, b, c, g)
  {
  }

  lemma ComesAlone(s: State, s1: State, s': State, b: Node, c: Node, g: Node)
    requires WithNovel(s, s1, b, c, g) && BuddyComes(s1, s', b, c, None)
    requires s.links.parent[b] != Some(c) && s.links.parent[b] != Some(g)
    ensures BuddyComesAlone(s, s', b, c, g)
  {
    hide Others, At, Stands;
    var d := Deserted(s, b, c);
    assert d == Deserted(s1, b, c);
    if d.Some? {
      OthersBoth(At(s.kids, Some(g)), [c], d.value);
      OthersNone([c], d.value);
    }
    AloneIs(At(s'.kids, Some(c)), b) by { OthersNone([], b); }
  }

  lemma AloneIs(t: seq<Node>, n: Node)
    requires Stands(t, n, None) && Others(t, n) == []
    ensures t == [n]
  {
    hide Others;
    assert t == [n] + t[1..];
    OthersBoth([n], t[1..], n);
    OthersNone(t[1..], n);
    OthersOne(n);
  }

  /** What adding a buddy without a contact comes to; in between a contact was made for it. */
  lemma AddedAlone(s: State, s1: State, s': State, b: Node, c: Node, group: Ptr, g: Node, spare: Node)
    requires Valid(s) && Valid(s1) && None in s.kids && b in s.info && s.info[b].Buddy? && b in s.links.parent
    requires c !in s.info && spare !in s.info && g != c && g == Default(s, group, s.env.buddiesGroup, spare)
    requires group.Some? ==> group.value in s.info && s.info[group.value].Group?
    requires SameHome(s1, Novel(s, c, g, spare, s.env.buddiesGroup))
    requires c in s1.info && s1.info[c].Contact? && c in s1.links.parent && s1.links.parent[c] == Some(g)
    requires Some(c) in s1.kids && Repositions(s1, s', b, c, g, None)
    ensures BuddyComesAlone(s, s', b, c, g)
  {
    hide Valid, Novel, SameHome, Repositions, BuddyComes, BuddyComesAlone, WithNovel;
    NotThere(s, spare);
    if s.env.collateKey(s.env.buddiesGroup) in s.tables.groups {
      GroupIndexed(s, s.env.collateKey(s.env.buddiesGroup));
    }
    if g in s.info && s.info[g].Group? {
      GroupListed(s, g);
    }
    if s.links.parent[b].Some? {
      BuddyStands(s, NOTHING, b) by { ValidIs(s); }
    }
    NovelIs(s, s1, b, c, g, spare, s.env.buddiesGroup);
    SameBuddyThere(s, s1, b, c, g);
    RepositionsComes(s1, s', b, c, g, None);
    ComesAlone(s, s1, s', b, c, g);
  }

  lemma SameBuddyThere(s: State, s1: State, b: Node, c: Node, g: Node)
    requires WithNovel(s, s1, b, c, g) && b in s.info
    ensures b in s1.info && s1.info[b] == s.info[b] && b in s1.links.parent && s1.links.parent[b] == s.links.parent[b]
  {
  }

  /** What adding a buddy to a contact, or behind another, comes to. */
  lemma BoundComes(s: State, s': State, b: Node, contact: Ptr, node: Ptr, c: Node, g: Node)
    requires Valid(s) && b in s.info && s.info[b].Buddy? && b in s.links.parent && !Overtop(s, b, contact, node)
    requires node.Some? ==> node.value in s.info && s.info[node.value].Buddy? && node.value in s.links.parent
    requires node == None ==> contact.Some? && contact.value in s.info && s.info[contact.value].Contact?
    requires Bound(s, contact, node, c, g) && Repositions(s, s', b, c, g, node)
    ensures BuddyComes(s, s', b, c, node)
  {
    hide Valid, Repositions, BuddyComes;
    if node.Some? {
      BuddyStands(s, NOTHING, node.value) by { ValidIs(s); }
    } else {
      ContactStands(s, NOTHING, c) by { ValidIs(s); }
      HeadOf(s, Some(c));
      LinksDomain(s, NOTHING) by { ValidIs(s); }
    }
    RepositionsComes(s, s', b, c, g, node);
  }
}
