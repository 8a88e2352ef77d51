/** Walking the tree node by node, in preorder. */
module BlistWalk {
  import opened BlistSeq
  import opened Options
  import opened BlistLinks
  import opened BlistModel
  import opened BlistTree
  import opened BlistSteps
  import opened BlistGroups
  import opened BlistBuddies
  import opened BlistRename
  import opened BlistScan

  /** The children `l` of a group, each followed by its buddies. */
  function ChildListing(kids: Lists, l: seq<Node>): seq<Node> {
    if l == [] then [] else [l[0]] + At(kids, Some(l[0])) + ChildListing(kids, l[1..])
  }

  /** The groups `gs`, each followed by all that is below it. */
  function Listing(kids: Lists, gs: seq<Node>): seq<Node> {
    if gs == [] then [] else [gs[0]] + ChildListing(kids, At(kids, Some(gs[0]))) + Listing(kids, gs[1..])
  }

  function Preorder(s: State): seq<Node> {
    Listing(s.kids, At(s.kids, None))
  }

  /** What comes behind `n` in `l`. */
  function Behind(l: seq<Node>, n: Node): seq<Node> {
    if l == [] then [] else if l[0] == n then l[1..] else Behind(l[1..], n)
  }

  lemma {:induction false} BehindAt(l: seq<Node>, i: nat)
    requires NoDup(l) && i < |l|
    ensures Behind(l, l[i]) == l[i + 1..]
  {
    if i > 0 {
      assert l[0] != l[i] && l[1..][i - 1] == l[i];
      BehindAt(l[1..], i - 1);
    }
  }

  function Above(s: State, n: Node): Ptr {
    if n in s.links.parent then s.links.parent[n] else None
  }

  predicate Reachable(s: State, n: Node) {
    n in s.info && n in s.links.parent && n in At(s.kids, s.links.parent[n])
  }

  /** What is left of the preorder behind group `g` and all below it, and so on for contacts, chats and buddies. */
  function PastGroup(s: State, g: Ptr): seq<Node> {
    if g.Some? then Listing(s.kids, Behind(At(s.kids, None), g.value)) else []
  }

  function PastChild(s: State, c: Ptr): seq<Node> {
    if c.Some?
    then ChildListing(s.kids, Behind(At(s.kids, Above(s, c.value)), c.value)) + PastGroup(s, Above(s, c.value)) else []
  }

  function PastBuddy(s: State, b: Node): seq<Node> {
    Behind(At(s.kids, Above(s, b)), b) + PastChild(s, Above(s, b))
  }

  /** What is left of the preorder behind node `n`, without what is below it. */
  function Past(s: State, n: Node): seq<Node> {
    if n !in s.info then []
    else match s.info[n]
         case Group(_) => PastGroup(s, Some(n))
         case Contact => PastChild(s, Some(n))
         case Chat(_) => PastChild(s, Some(n))
         case Buddy(_, _, _) => PastBuddy(s, n)
  }

  /** What is below node `n`. */
  function Below(s: State, n: Node): seq<Node> {
    if n in s.info && s.info[n].Group? then ChildListing(s.kids, At(s.kids, Some(n))) else At(s.kids, Some(n))
  }

  /** What is left of the preorder behind node `n`. */
  function Rest(s: State, n: Node): seq<Node> {
    Below(s, n) + Past(s, n)
  }

  /** The kinds up the tree. */
  lemma TreeKinds(s: State, n: Node)
    requires Valid(s) && Reachable(s, n)
    ensures n in s.info && NoDup(At(s.kids, s.links.parent[n]))
    ensures s.info[n].Group? <==> s.links.parent[n] == None
    ensures s.links.parent[n].Some? ==>
              var p := s.links.parent[n].value;
              && Reachable(s, p) && Some(p) in s.kids
              && (if s.info[n].Buddy? then s.info[p].Contact? else s.info[p].Group?)
    ensures s.info[n].Buddy? || s.info[n].Chat? ==> At(s.kids, Some(n)) == []
  {
    hide Linked, Sized, Indexed, Filed, Named, Prioritized, Typed, TotalPreorder;
    Soundly(s, NOTHING);
    var q := s.links.parent[n];
    HeadOf(s, q);
    ChildOf(s.links, s.kids, s.info, {}, q, n);
    StandsAt(s.links, s.kids, s.info, {}, n);
    if q.Some? {
      StandsAt(s.links, s.kids, s.info, {}, q.value);
    }
  }

  /** A node's place among its siblings. */
  lemma Place(s: State, n: Node) returns (i: nat)
    requires Valid(s) && Reachable(s, n)
    ensures var l := At(s.kids, s.links.parent[n]); i < |l| && l[i] == n && Behind(l, n) == l[i + 1..] && NoDup(l)
  {
    var l := At(s.kids, s.links.parent[n]);
    HeadOf(s, s.links.parent[n]);
    i :| 0 <= i < |l| && l[i] == n;
    BehindAt(l, i);
  }

  /** The i-th child of `q` is in the tree. */
  lemma ChildInTree(s: State, q: Ptr, i: nat)
    requires Valid(s) && i < |At(s.kids, q)|
    ensures Reachable(s, At(s.kids, q)[i]) && s.links.parent[At(s.kids, q)[i]] == q
  {
    hide Valid;
    InKids(s, q, At(s.kids, q)[i]);
  }

  // ------------------------------------------- where the rest of the preorder leads

  /** From the groups `top[i..]` on: the first of them, and then what is left behind it. */
  lemma GroupsGoOn(s: State, i: nat)
    requires Valid(s) && i < |At(s.kids, None)|
    ensures var l := At(s.kids, None);
            && Reachable(s, l[i]) && s.links.parent[l[i]] == None && Listing(s.kids, l[i..]) == [l[i]] + Rest(s, l[i])
  {
    hide Valid, ChildListing;
    var l := At(s.kids, None);
    ChildInTree(s, None, i);
    TreeKinds(s, l[i]);
    BehindAt(l, i);
    assert l[i..][0] == l[i] && l[i..][1..] == l[i + 1..];
    assert Rest(s, l[i]) == ChildListing(s.kids, At(s.kids, Some(l[i]))) + Listing(s.kids, l[i + 1..]);
  }

  /** From the children of group `g` on. */
  lemma ChildrenGoOn(s: State, g: Node, j: nat)
    requires Valid(s) && Reachable(s, g) && s.info[g].Group? && j < |At(s.kids, Some(g))|
    ensures var l := At(s.kids, Some(g));
            && Reachable(s, l[j]) && s.links.parent[l[j]] == Some(g)
            && ChildListing(s.kids, l[j..]) + PastGroup(s, Some(g)) == [l[j]] + Rest(s, l[j])
  {
    hide Valid, Listing;
    var l := At(s.kids, Some(g));
    ChildInTree(s, Some(g), j);
    TreeKinds(s, l[j]);
    BehindAt(l, j);
    assert l[j..][0] == l[j] && l[j..][1..] == l[j + 1..];
    var p, q, r := At(s.kids, Some(l[j])), ChildListing(s.kids, l[j + 1..]), PastGroup(s, Some(g));
    assert Rest(s, l[j]) == p + (q + r);
    assert [l[j]] + p + q + r == [l[j]] + (p + (q + r));
  }

  /** From the buddies of contact `c` on. */
  lemma BuddiesGoOn(s: State, c: Node, i: nat)
    requires Valid(s) && Reachable(s, c) && s.info[c].Contact? && i < |At(s.kids, Some(c))|
    ensures var l := At(s.kids, Some(c));
            && Reachable(s, l[i]) && s.links.parent[l[i]] == Some(c)
            && l[i..] + PastChild(s, Some(c)) == [l[i]] + Rest(s, l[i])
  {
    hide Valid, Listing, ChildListing, Behind, PastChild;
    var l := At(s.kids, Some(c));
    ChildInTree(s, Some(c), i);
    TreeKinds(s, l[i]);
    BehindAt(l, i);
    BuddyRest(s, c, l[i]);
    assert l[i..] == [l[i]] + l[i + 1..];
    Regroup([l[i]], l[i + 1..], PastChild(s, Some(c)));
  }

  lemma BuddyRest(s: State, c: Node, b: Node)
    requires b in s.info && s.info[b].Buddy? && Above(s, b) == Some(c) && At(s.kids, Some(b)) == []
    ensures Rest(s, b) == Behind(At(s.kids, Some(c)), b) + PastChild(s, Some(c))
  {
    hide PastChild, Behind;
    var r := Past(s, b);
    assert [] + r == r;
  }

  lemma Regroup(p: seq<Node>, q: seq<Node>, r: seq<Node>)
    ensures p + q + r == p + (q + r)
  {
  }

  /** Behind a node without descending: its next sibling, or what is behind its parent. */
  lemma PastGoesOn(s: State, n: Node)
    requires Valid(s) && Reachable(s, n)
    ensures n in s.links.next
    ensures s.links.next[n].Some? ==>
              && Reachable(s, s.links.next[n].value)
              && Past(s, n) == [s.links.next[n].value] + Rest(s, s.links.next[n].value)
    ensures s.links.next[n] == None && s.links.parent[n].Some? ==>
              Reachable(s, s.links.parent[n].value) && Past(s, n) == Past(s, s.links.parent[n].value)
    ensures s.links.next[n] == None && s.links.parent[n] == None ==> Past(s, n) == []
  {
    hide Valid, Listing, ChildListing;
    TreeKinds(s, n);
    var i := Place(s, n);
    var q := s.links.parent[n];
    var l := At(s.kids, q);
    SiblingAt(s, q, i);
    if i + 1 < |l| {
      match s.info[n] {
        case Group(_) => GroupsGoOn(s, i + 1);
        case Contact => ChildrenGoOn(s, q.value, i + 1);
        case Chat(_) => ChildrenGoOn(s, q.value, i + 1);
        case Buddy(_, _, _) => BuddiesGoOn(s, q.value, i + 1);
      }
    } else {
      assert l[i + 1..] == [];
      NoListing(s);
    }
  }

  lemma NoListing(s: State)
    ensures Listing(s.kids, []) == [] && ChildListing(s.kids, []) == []
    ensures forall r: seq<Node> {:trigger [] + r} :: [] + r == r
  {
  }

  /** Below a node: its first child, if it has one. */
  lemma BelowGoesOn(s: State, n: Node)
    requires Valid(s) && Reachable(s, n)
    ensures n in s.links.child && Some(n) in s.kids
    ensures s.links.child[n].Some? ==>
              && Reachable(s, s.links.child[n].value)
              && Rest(s, n) == [s.links.child[n].value] + Rest(s, s.links.child[n].value)
    ensures s.links.child[n] == None ==> Rest(s, n) == Past(s, n)
  {
    hide Valid, Listing, ChildListing;
    TreeKinds(s, n);
    HasKids(s, n);
    HeadOf(s, Some(n));
    NoListing(s);
    var l := At(s.kids, Some(n));
    if l != [] {
      assert l[0..] == l;
      if s.info[n].Group? {
        ChildrenGoOn(s, n, 0);
      } else {
        BuddiesGoOn(s, n, 0);
      }
    }
  }

  lemma HasKids(s: State, n: Node)
    requires Valid(s) && n in s.info
    ensures Some(n) in s.kids
  {
    hide Linked, Sized, Indexed, Filed, Named, Prioritized, Typed, TotalPreorder;
    Soundly(s, NOTHING);
    StandsAt(s.links, s.kids, s.info, {}, n);
  }

  // --------------------------------------------------------- without the offline

  /** A buddy on an account that is not connected. */
  predicate Hidden(s: State, n: Node) {
    n in s.info && s.info[n].Buddy? && s.info[n].account !in s.connected
  }

  function Visible(s: State, l: seq<Node>): seq<Node> {
    if l == [] then [] else (if Hidden(s, l[0]) then [] else [l[0]]) + Visible(s, l[1..])
  }

  lemma VisibleNext(s: State, n: Node, l: seq<Node>)
    ensures Visible(s, [n] + l) == (if Hidden(s, n) then [] else [n]) + Visible(s, l)
  {
    assert ([n] + l)[1..] == l;
  }

  // ---------------------------------------------------------- each node once

  lemma {:induction false} InChildListing(kids: Lists, l: seq<Node>, n: Node)
    ensures n in ChildListing(kids, l) <==> n in l || exists c :: c in l && n in At(kids, Some(c))
  {
    if l != [] {
      InChildListing(kids, l[1..], n);
      assert forall c :: c in l <==> c == l[0] || c in l[1..];
    }
  }

  lemma {:induction false} InListing(kids: Lists, gs: seq<Node>, n: Node)
    ensures n in Listing(kids, gs) <==> n in gs || exists g :: g in gs && n in ChildListing(kids, At(kids, Some(g)))
  {
    if gs != [] {
      InListing(kids, gs[1..], n);
      assert forall g :: g in gs <==> g == gs[0] || g in gs[1..];
    }
  }

  /** The preorder holds exactly the nodes of the tree. */
  lemma PreorderIsAll(s: State, n: Node)
    requires Valid(s)
    ensures n in Preorder(s) <==> Reachable(s, n)
  {
    hide Valid, Listing, ChildListing;
    InListing(s.kids, At(s.kids, None), n);
    if n in Preorder(s) {
      if n in At(s.kids, None) {
        InKids(s, None, n);
      } else {
        var g :| g in At(s.kids, None) && n in ChildListing(s.kids, At(s.kids, Some(g)));
        InChildListing(s.kids, At(s.kids, Some(g)), n);
        if n in At(s.kids, Some(g)) {
          InKids(s, Some(g), n);
        } else {
          var c :| c in At(s.kids, Some(g)) && n in At(s.kids, Some(c));
          InKids(s, Some(c), n);
        }
      }
    }
    if Reachable(s, n) {
      TreeKinds(s, n);
      if s.links.parent[n].Some? {
        var p := s.links.parent[n].value;
        TreeKinds(s, p);
        InChildListing(s.kids, At(s.kids, Some(p)), n);
        if s.info[n].Buddy? {
          var g := s.links.parent[p].value;
          TreeKinds(s, g);
          InChildListing(s.kids, At(s.kids, Some(g)), n);
        }
      }
    }
  }

  lemma ParentIs(s: State, q: Ptr, n: Node)
    requires Valid(s) && n in At(s.kids, q)
    ensures Above(s, n) == q
  {
    hide Valid;
    InKids(s, q, n);
  }

  lemma {:induction false} ChildrenOnce(s: State, g: Node, l: seq<Node>)
    requires Valid(s) && NoDup(l) && forall c :: c in l ==> Above(s, c) == Some(g) && c != g && c in At(s.kids, Some(g))
    requires forall c, b :: c in l && b in At(s.kids, Some(c)) ==> c != b
    ensures NoDup(ChildListing(s.kids, l))
  {
    hide Valid;
    if l != [] {
      ChildrenOnce(s, g, l[1..]);
      var c, p, r := l[0], At(s.kids, Some(l[0])), ChildListing(s.kids, l[1..]);
      if Some(c) in s.kids {
        HeadOf(s, Some(c));
      }
      forall b | b in [c] + p ensures b !in r {
        InChildListing(s.kids, l[1..], b);
        if b in p {
          ParentIs(s, Some(c), b);
          forall d | d in l[1..] ensures b != d && b !in At(s.kids, Some(d)) {
            assert d in l && c in l;
            Apart(s, Some(c), Some(d), b);
          }
        } else {
          forall d | d in l[1..] ensures b != d && b !in At(s.kids, Some(d)) {
            Apart(s, Some(g), Some(d), b);
          }
        }
      }
      NoDupBoth([c], p);
      NoDupBoth([c] + p, r);
    }
  }

  /** What is below a group is not in another. */
  lemma BelowGroup(s: State, g: Node, n: Node)
    requires Valid(s) && g in At(s.kids, None) && n in ChildListing(s.kids, At(s.kids, Some(g)))
    ensures n in s.info && !s.info[n].Group? && Above(s, n).Some?
    ensures Above(s, n) == Some(g) || (s.info[n].Buddy? && Above(s, Above(s, n).value) == Some(g))
  {
    hide Valid, ChildListing;
    TopIsGroup(s, g);
    InChildListing(s.kids, At(s.kids, Some(g)), n);
    GroupKids(s, g);
    if n in At(s.kids, Some(g)) {
      ParentIs(s, Some(g), n);
    } else {
      var c :| c in At(s.kids, Some(g)) && n in At(s.kids, Some(c));
      ParentIs(s, Some(c), n);
      ParentIs(s, Some(g), c);
      InKids(s, Some(c), n);
      TreeKinds(s, n);
    }
  }

  lemma GroupOnce(s: State, g: Node)
    requires Valid(s) && g in At(s.kids, None)
    ensures NoDup([g] + ChildListing(s.kids, At(s.kids, Some(g))))
  {
    hide Valid, ChildListing;
    TopIsGroup(s, g);
    GroupKids(s, g);
    HeadOf(s, Some(g));
    var l := At(s.kids, Some(g));
    forall c | c in l ensures Above(s, c) == Some(g) {
      ParentIs(s, Some(g), c);
    }
    forall c, b | c in l && b in At(s.kids, Some(c)) ensures c != b {
      ParentIs(s, Some(c), b);
      InKids(s, Some(c), b);
      TreeKinds(s, b);
    }
    ChildrenOnce(s, g, l);
    forall n | n in [g] ensures n !in ChildListing(s.kids, l) {
      if n in ChildListing(s.kids, l) {
        BelowGroup(s, g, n);
      }
    }
    NoDupBoth([g], ChildListing(s.kids, l));
  }

  lemma {:induction false} GroupsOnce(s: State, gs: seq<Node>)
    requires Valid(s) && NoDup(gs) && forall g :: g in gs ==> g in At(s.kids, None)
    ensures NoDup(Listing(s.kids, gs))
  {
    hide Valid, ChildListing;
    if gs != [] {
      GroupsOnce(s, gs[1..]);
      var g := gs[0];
      var p, r := [g] + ChildListing(s.kids, At(s.kids, Some(g))), Listing(s.kids, gs[1..]);
      GroupOnce(s, g);
      forall n | n in p ensures n !in r {
        InListing(s.kids, gs[1..], n);
        OtherGroups(s, g, gs[1..], n);
      }
      NoDupBoth(p, r);
    }
  }

  lemma OtherGroups(s: State, g: Node, gs: seq<Node>, n: Node)
    requires Valid(s) && g !in gs && g in At(s.kids, None) && forall h :: h in gs ==> h in At(s.kids, None)
    requires n == g || n in ChildListing(s.kids, At(s.kids, Some(g)))
    ensures n !in gs && forall h :: h in gs ==> n !in ChildListing(s.kids, At(s.kids, Some(h)))
  {
    hide Valid, ChildListing;
    TopIsGroup(s, g);
    if n != g {
      BelowGroup(s, g, n);
    }
    forall h | h in gs ensures n != h && n !in ChildListing(s.kids, At(s.kids, Some(h))) {
      TopIsGroup(s, h);
      if n in ChildListing(s.kids, At(s.kids, Some(h))) {
        BelowGroup(s, h, n);
        GrandparentIsNoParent(s, n);
      }
    }
  }

  lemma GrandparentIsNoParent(s: State, n: Node)
    requires Valid(s) && n in s.info && Above(s, n).Some?
    ensures s.info[n].Buddy? ==> Above(s, n).value in s.info && s.info[Above(s, n).value].Contact?
  {
    hide Linked, Placed, Sized, Indexed, Filed, Named, Prioritized, Typed, TotalPreorder;
    if s.info[n].Buddy? {
      BuddyStands(s, NOTHING, n);
    }
  }

  /** The preorder holds every node once. */
  lemma PreorderOnce(s: State)
    requires Valid(s)
    ensures NoDup(Preorder(s))
  {
    hide Valid, Listing;
    if None in s.kids {
      HeadOf(s, None);
    }
    GroupsOnce(s, At(s.kids, None));
  }

  /** What the next node makes of the visible rest. */
  lemma RestEnds(s: State, n: Node, r: Ptr)
    requires Valid(s) && Reachable(s, n) && r == First(Rest(s, n))
    requires r.Some? ==> Reachable(s, r.value) && Rest(s, n) == [r.value] + Rest(s, r.value)
    ensures r.Some? ==> r.value in s.info
                        && Visible(s, Rest(s, n))
                             == (if Hidden(s, r.value) then [] else [r.value]) + Visible(s, Rest(s, r.value))
    ensures r == None ==> Visible(s, Rest(s, n)) == []
  {
    hide Valid, Rest;
    if r.Some? {
      VisibleNext(s, r.value, Rest(s, r.value));
    }
  }

  /** What a walk has still to visit from node `n` on. */
  function Todo(s: State, n: Ptr, offline: bool): seq<Node> {
    if n == None then [] else [n.value] + if offline then Rest(s, n.value) else Visible(s, Rest(s, n.value))
  }

  lemma TodoNext(done: seq<Node>, n: Node, r: seq<Node>)
    ensures done + [n] + r == done + ([n] + r)
  {
  }

  /** The root is the first node of the preorder, and not hidden. */
  lemma RootFirst(s: State)
    requires Valid(s) && None in s.kids
    ensures s.kids[None] == [] ==> Preorder(s) == [] && Visible(s, []) == []
    ensures s.kids[None] != [] ==>
              var g := s.kids[None][0];
              && Reachable(s, g) && Preorder(s) == [g] + Rest(s, g)
              && Visible(s, Preorder(s)) == [g] + Visible(s, Rest(s, g))
  {
    hide Valid, Rest;
    if s.kids[None] != [] {
      var g := s.kids[None][0];
      GroupsGoOn(s, 0);
      assert s.kids[None][0..] == s.kids[None];
      TopIsGroup(s, g);
      VisibleNext(s, g, Rest(s, g));
    }
  }
}
