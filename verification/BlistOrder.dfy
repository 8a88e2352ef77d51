/** In which order a walk meets the nodes of the tree, node by node. */
module BlistOrder {
  import opened BlistSeq
  import opened Options
  import opened BlistLinks
  import opened BlistModel
  import opened BlistBuddies
  import opened BlistScan
  import opened BlistWalk
  import BlistPlaces

  /** Node `n` is `m` or below it. */
  ghost predicate Under(kids: Lists, n: Node, m: Node) {
    n == m || n in At(kids, Some(m)) || exists c :: c in At(kids, Some(m)) && n in At(kids, Some(c))
  }

  ghost predicate Before(l: seq<Node>, n: Node, m: Node) {
    BlistPlaces.Comes(l, n, m)
  }

  lemma BeforeBoth(a: seq<Node>, b: seq<Node>, n: Node, m: Node)
    requires n in a && m in b
    ensures Before(a + b, n, m)
  {
    var i :| 0 <= i < |a| && a[i] == n;
    var j :| 0 <= j < |b| && b[j] == m;
    assert (a + b)[i] == n && (a + b)[|a| + j] == m;
  }

  lemma BeforeWithin(a: seq<Node>, b: seq<Node>, c: seq<Node>, n: Node, m: Node)
    requires Before(b, n, m)
    ensures Before(a + b + c, n, m)
  {
    var i, j :| 0 <= i < j < |b| && b[i] == n && b[j] == m;
    assert (a + b + c)[|a| + i] == n && (a + b + c)[|a| + j] == m;
  }

  /** A group and all that is below it. */
  function GroupBlock(kids: Lists, g: Node): seq<Node> {
    [g] + ChildListing(kids, At(kids, Some(g)))
  }

  function ChildBlock(kids: Lists, c: Node): seq<Node> {
    [c] + At(kids, Some(c))
  }

  lemma Regroup(b: seq<Node>, p: seq<Node>, x: seq<Node>, r: seq<Node>)
    ensures b + (p + x + r) == b + p + x + r
  {
  }

  lemma {:induction false} GroupBlockAt(kids: Lists, gs: seq<Node>, i: nat)
    requires i < |gs|
    ensures Listing(kids, gs) == Listing(kids, gs[..i]) + GroupBlock(kids, gs[i]) + Listing(kids, gs[i + 1..])
  {
    if i == 0 {
      assert Listing(kids, gs[..0]) == [] && [] + GroupBlock(kids, gs[0]) == GroupBlock(kids, gs[0]);
    } else {
      assert GroupBlock(kids, gs[0]) == [gs[0]] + ChildListing(kids, At(kids, Some(gs[0])));
      hide GroupBlock, ChildListing;
      GroupBlockAt(kids, gs[1..], i - 1);
      assert gs[..i][1..] == gs[1..][..i - 1] && gs[1..][i..] == gs[i + 1..];
      var b, p := GroupBlock(kids, gs[0]), Listing(kids, gs[1..][..i - 1]);
      assert Listing(kids, gs[..i]) == b + p;
      Regroup(b, p, GroupBlock(kids, gs[i]), Listing(kids, gs[i + 1..]));
    }
  }

  lemma {:induction false} ChildBlockAt(kids: Lists, l: seq<Node>, i: nat)
    requires i < |l|
    ensures ChildListing(kids, l)
         == ChildListing(kids, l[..i]) + ChildBlock(kids, l[i]) + ChildListing(kids, l[i + 1..])
  {
    if i == 0 {
      assert ChildListing(kids, l[..0]) == [] && [] + ChildBlock(kids, l[0]) == ChildBlock(kids, l[0]);
    } else {
      assert ChildBlock(kids, l[0]) == [l[0]] + At(kids, Some(l[0]));
      hide ChildBlock, At;
      ChildBlockAt(kids, l[1..], i - 1);
      assert l[..i][1..] == l[1..][..i - 1] && l[1..][i..] == l[i + 1..];
      var b, p := ChildBlock(kids, l[0]), ChildListing(kids, l[1..][..i - 1]);
      assert ChildListing(kids, l[..i]) == b + p;
      Regroup(b, p, ChildBlock(kids, l[i]), ChildListing(kids, l[i + 1..]));
    }
  }

  lemma InGroupBlock(kids: Lists, g: Node, n: Node)
    ensures n in GroupBlock(kids, g) <==> Under(kids, n, g)
  {
    InChildListing(kids, At(kids, Some(g)), n);
  }

  /** Whatever is under one group comes before whatever is under a later one. */
  lemma GroupsInOrder(s: State, i: nat, j: nat, n: Node, m: Node)
    requires i < j < |At(s.kids, None)|
    requires Under(s.kids, n, At(s.kids, None)[i]) && Under(s.kids, m, At(s.kids, None)[j])
    ensures Before(Preorder(s), n, m)
  {
    hide Listing, GroupBlock, Under, BlistPlaces.Comes;
    var gs, k := At(s.kids, None), s.kids;
    GroupBlockAt(k, gs, i);
    GroupBlockAt(k, gs[i + 1..], j - i - 1);
    InGroupBlock(k, gs[i], n);
    InGroupBlock(k, gs[j], m);
    assert gs[i + 1..][j - i - 1] == gs[j];
    BeforeBoth(Listing(k, gs[..i]) + GroupBlock(k, gs[i]), Listing(k, gs[i + 1..]), n, m);
  }

  /** What is ordered among what is below a group is so in the whole. */
  lemma BelowInOrder(s: State, g: Node, n: Node, m: Node)
    requires g in At(s.kids, None) && Before(GroupBlock(s.kids, g), n, m)
    ensures Before(Preorder(s), n, m)
  {
    hide Listing, GroupBlock, BlistPlaces.Comes;
    var gs, k := At(s.kids, None), s.kids;
    var i :| 0 <= i < |gs| && gs[i] == g;
    GroupBlockAt(k, gs, i);
    BeforeWithin(Listing(k, gs[..i]), GroupBlock(k, g), Listing(k, gs[i + 1..]), n, m);
  }

  /** A group comes before all that is below it. */
  lemma GroupFirst(s: State, g: Node, n: Node)
    requires g in At(s.kids, None) && Under(s.kids, n, g) && n != g
    ensures Before(Preorder(s), g, n)
  {
    hide Listing, ChildListing, BlistPlaces.Comes;
    InGroupBlock(s.kids, g, n);
    BeforeBoth([g], ChildListing(s.kids, At(s.kids, Some(g))), g, n);
    BelowInOrder(s, g, g, n);
  }

  /** Within a group, a child and its buddies come before a later child and its buddies. */
  lemma ChildrenInOrder(s: State, g: Node, i: nat, j: nat, n: Node, m: Node)
    requires g in At(s.kids, None) && i < j < |At(s.kids, Some(g))|
    requires n == At(s.kids, Some(g))[i] || n in At(s.kids, Some(At(s.kids, Some(g))[i]))
    requires m == At(s.kids, Some(g))[j] || m in At(s.kids, Some(At(s.kids, Some(g))[j]))
    ensures Before(Preorder(s), n, m)
  {
    hide ChildListing, Listing, BlistPlaces.Comes;
    var l, k := At(s.kids, Some(g)), s.kids;
    ChildBlockAt(k, l, i);
    ChildBlockAt(k, l[i + 1..], j - i - 1);
    assert l[i + 1..][j - i - 1] == l[j];
    var p, b, r := ChildListing(k, l[..i]), ChildBlock(k, l[i]), ChildListing(k, l[i + 1..]);
    BeforeBoth([g] + p + b, r, n, m);
    assert [g] + p + b + r == GroupBlock(k, g);
    BelowInOrder(s, g, n, m);
  }

  /** A contact comes before its buddies, and those come in order. */
  lemma BuddiesInOrder(s: State, g: Node, c: Node, i: nat, j: nat)
    requires g in At(s.kids, None) && c in At(s.kids, Some(g)) && i < |At(s.kids, Some(c))|
    ensures Before(Preorder(s), c, At(s.kids, Some(c))[i])
    ensures i < j < |At(s.kids, Some(c))| ==> Before(Preorder(s), At(s.kids, Some(c))[i], At(s.kids, Some(c))[j])
  {
    hide ChildListing, Listing;
    var l, k, t := At(s.kids, Some(g)), s.kids, At(s.kids, Some(c));
    var x :| 0 <= x < |l| && l[x] == c;
    ChildBlockAt(k, l, x);
    var p, b, r := ChildListing(k, l[..x]), ChildBlock(k, c), ChildListing(k, l[x + 1..]);
    assert [g] + p + b + r == GroupBlock(k, g);
    assert b[0] == c && b[i + 1] == t[i];
    BeforeWithin([g] + p, b, r, c, t[i]);
    BelowInOrder(s, g, c, t[i]);
    if i < j < |t| {
      assert b[j + 1] == t[j];
      BeforeWithin([g] + p, b, r, t[i], t[j]);
      BelowInOrder(s, g, t[i], t[j]);
    }
  }

  /** Without the offline, a walk leaves out exactly the buddies of accounts that are not connected. */
  lemma {:induction false} VisibleAre(s: State, l: seq<Node>, n: Node)
    ensures n in Visible(s, l)
       <==> n in l && !(n in s.info && s.info[n].Buddy? && s.info[n].account !in s.connected)
  {
    if l != [] {
      VisibleAre(s, l[1..], n);
    }
  }

  // ---------------------------------------------------------- in the same order

  /** The nodes of `p` are nodes of `l`, and come in the order they have there. */
  ghost predicate Within(p: seq<Node>, l: seq<Node>) {
    && (forall n :: n in p ==> n in l)
    && forall n, m :: Before(p, n, m) ==> Before(l, n, m)
  }

  lemma WithinBoth(p: seq<Node>, l: seq<Node>, q: seq<Node>, r: seq<Node>)
    requires Within(p, l) && Within(q, r)
    ensures Within(p + q, l + r)
  {
    hide BlistPlaces.Comes;
    forall n, m | Before(p + q, n, m)
      ensures Before(l + r, n, m)
    {
      BeforeWhere(p, q, n, m);
      if Before(p, n, m) {
        BeforeWithin([], l, r, n, m);
        assert [] + l + r == l + r;
      } else if Before(q, n, m) {
        BeforeWithin(l, r, [], n, m);
        assert l + r + [] == l + r;
      } else {
        BeforeBoth(l, r, n, m);
      }
    }
  }

  lemma BeforeWhere(p: seq<Node>, q: seq<Node>, n: Node, m: Node)
    requires Before(p + q, n, m)
    ensures Before(p, n, m) || Before(q, n, m) || (n in p && m in q)
  {
    var v := p + q;
    var i, j :| 0 <= i < j < |v| && v[i] == n && v[j] == m;
    if j < |p| {
      assert p[i] == n && p[j] == m;
    } else if i < |p| {
      assert p[i] == n && q[j - |p|] == m;
    } else {
      assert q[i - |p|] == n && q[j - |p|] == m;
    }
  }

  lemma WithinSelf(p: seq<Node>)
    ensures Within(p, p)
  {
  }

  lemma WithinOne(x: Node, b: bool)
    ensures Within(if b then [x] else [], [x])
  {
  }

  /** The walk without the offline meets the others in the same order. */
  lemma {:induction false} VisibleWithin(s: State, l: seq<Node>)
    ensures Within(Visible(s, l), l)
  {
    if l != [] {
      hide Within;
      VisibleWithin(s, l[1..]);
      WithinOne(l[0], !Hidden(s, l[0]));
      WithinBoth(if Hidden(s, l[0]) then [] else [l[0]], [l[0]], Visible(s, l[1..]), l[1..]);
      assert l == [l[0]] + l[1..];
    }
  }

  /** A scan finds exactly the buddies on the account whose normalized name is `k`. */
  lemma {:induction false} MatchingAre(s: State, account: Account, k: string, l: seq<Node>, b: Node)
    ensures b in Matching(s, account, k, l)
       <==> b in l && b in s.info && s.info[b].Buddy? && s.info[b].account == account
            && s.env.normalize(account, s.info[b].name) == k
  {
    if l != [] {
      MatchingAre(s, account, k, l[1..], b);
    }
  }

  /** It finds them in order. */
  lemma {:induction false} MatchingWithin(s: State, account: Account, k: string, l: seq<Node>)
    ensures Within(Matching(s, account, k, l), l)
  {
    if l != [] {
      hide Within;
      var b := Matches(s, account, k, l[0]);
      MatchingWithin(s, account, k, l[1..]);
      WithinOne(l[0], b);
      WithinBoth(if b then [l[0]] else [], [l[0]], Matching(s, account, k, l[1..]), l[1..]);
      assert l == [l[0]] + l[1..];
    }
  }

  lemma {:induction false} BuddiesWithin(kids: Lists, l: seq<Node>)
    ensures Within(BuddiesIn(kids, l), ChildListing(kids, l))
  {
    if l != [] {
      hide Within;
      var p := At(kids, Some(l[0]));
      BuddiesWithin(kids, l[1..]);
      WithinOne(l[0], false);
      WithinSelf(p);
      WithinBoth([], [l[0]], p, p);
      WithinBoth([] + p, [l[0]] + p, BuddiesIn(kids, l[1..]), ChildListing(kids, l[1..]));
      assert [] + p == p;
    }
  }

  lemma {:induction false} AllBuddiesWithin(kids: Lists, gs: seq<Node>)
    ensures Within(AllBuddies(kids, gs), Listing(kids, gs))
  {
    if gs != [] {
      hide Within, ChildListing, BuddiesIn;
      var l := At(kids, Some(gs[0]));
      AllBuddiesWithin(kids, gs[1..]);
      BuddiesWithin(kids, l);
      WithinOne(gs[0], false);
      WithinBoth([], [gs[0]], BuddiesIn(kids, l), ChildListing(kids, l));
      WithinBoth([] + BuddiesIn(kids, l), [gs[0]] + ChildListing(kids, l), AllBuddies(kids, gs[1..]),
                 Listing(kids, gs[1..]));
      assert [] + BuddiesIn(kids, l) == BuddiesIn(kids, l);
    }
  }

  /** What is scanned: the buddies of the contacts of the groups, in the order of the walk. */
  lemma ScannedAre(s: State, b: Node)
    ensures b in AllBuddies(s.kids, At(s.kids, None))
       <==> exists g, c :: g in At(s.kids, None) && c in At(s.kids, Some(g)) && b in At(s.kids, Some(c))
    ensures Within(AllBuddies(s.kids, At(s.kids, None)), Preorder(s))
  {
    hide AllBuddies, BuddiesIn;
    var gs, k := At(s.kids, None), s.kids;
    AllBuddiesWithin(k, gs);
    InAllBuddies(k, gs, b);
    forall g | g in gs
      ensures b in BuddiesIn(k, At(k, Some(g))) <==> exists c :: c in At(k, Some(g)) && b in At(k, Some(c))
    {
      InBuddies(k, At(k, Some(g)), b);
    }
  }

  /** The last one first. */
  lemma {:induction false} LastFirst(l: seq<Node>, i: nat)
    requires i < |l|
    ensures |Reversed(l)| == |l| && Reversed(l)[|l| - 1 - i] == l[i]
  {
    if i > 0 {
      LastFirst(l[1..], i - 1);
    } else if |l| > 1 {
      LastFirst(l[1..], 0);
    }
  }
}
