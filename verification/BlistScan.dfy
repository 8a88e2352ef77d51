/** Plain scans of the tree: what looking something up, and walking from node to node, must come to. */
module BlistScan {
  import opened BlistSeq
  import opened Options
  import opened BlistLinks
  import opened BlistModel
  import opened BlistSteps
  import opened BlistGroups
  import opened BlistBuddies
  import opened BlistRename

  // ------------------------------------------------------------- buddies in order

  /** The buddies of the contacts `l`, from left to right. */
  function BuddiesIn(kids: Lists, l: seq<Node>): seq<Node> {
    if l == [] then [] else At(kids, Some(l[0])) + BuddiesIn(kids, l[1..])
  }

  /** The buddies of the groups `gs`, from left to right. */
  function AllBuddies(kids: Lists, gs: seq<Node>): seq<Node> {
    if gs == [] then [] else BuddiesIn(kids, At(kids, Some(gs[0]))) + AllBuddies(kids, gs[1..])
  }

  predicate Matches(s: State, account: Account, k: string, b: Node) {
    b in s.info && s.info[b].Buddy? && s.info[b].account == account && s.env.normalize(account, s.info[b].name) == k
  }

  /** Those on `account` whose normalized name is `k`, in order. */
  function Matching(s: State, account: Account, k: string, l: seq<Node>): seq<Node> {
    if l == [] then []
    else (if Matches(s, account, k, l[0]) then [l[0]] else []) + Matching(s, account, k, l[1..])
  }

  function Reversed(l: seq<Node>): seq<Node> {
    if l == [] then [] else Reversed(l[1..]) + [l[0]]
  }

  lemma {:induction false} MatchingBoth(s: State, account: Account, k: string, l: seq<Node>, r: seq<Node>)
    ensures Matching(s, account, k, l + r) == Matching(s, account, k, l) + Matching(s, account, k, r)
  {
    if l == [] {
      assert l + r == r;
    } else {
      assert (l + r)[1..] == l[1..] + r;
      MatchingBoth(s, account, k, l[1..], r);
    }
  }

  lemma {:induction false} ReversedBoth(l: seq<Node>, r: seq<Node>)
    ensures Reversed(l + r) == Reversed(r) + Reversed(l)
  {
    if l == [] {
      assert l + r == r && Reversed(r) + [] == Reversed(r);
    } else {
      assert (l + r)[1..] == l[1..] + r;
      ReversedBoth(l[1..], r);
    }
  }

  /** If exactly one place matches, that is what is selected. */
  lemma {:induction false} MatchingOne(s: State, account: Account, k: string, l: seq<Node>, b: Node)
    requires NoDup(l) && b in l && forall n :: n in l ==> (Matches(s, account, k, n) <==> n == b)
    ensures Matching(s, account, k, l) == [b]
  {
    if l[0] == b {
      assert b !in l[1..];
      MatchingNone(s, account, k, l[1..]);
    } else {
      MatchingOne(s, account, k, l[1..], b);
    }
  }

  lemma {:induction false} MatchingNone(s: State, account: Account, k: string, l: seq<Node>)
    requires forall n :: n in l ==> !Matches(s, account, k, n)
    ensures Matching(s, account, k, l) == []
  {
    if l != [] {
      MatchingNone(s, account, k, l[1..]);
    }
  }

  lemma {:induction false} InBuddies(kids: Lists, l: seq<Node>, b: Node)
    ensures b in BuddiesIn(kids, l) <==> exists c :: c in l && b in At(kids, Some(c))
  {
    if l != [] {
      InBuddies(kids, l[1..], b);
      assert forall c :: c in l <==> c == l[0] || c in l[1..];
    }
  }

  lemma {:induction false} InAllBuddies(kids: Lists, gs: seq<Node>, b: Node)
    ensures b in AllBuddies(kids, gs) <==> exists g :: g in gs && b in BuddiesIn(kids, At(kids, Some(g)))
  {
    if gs != [] {
      InAllBuddies(kids, gs[1..], b);
      assert forall g :: g in gs <==> g == gs[0] || g in gs[1..];
    }
  }

  /** No buddy stands twice in a group. */
  lemma {:induction false} BuddiesDistinct(s: State, l: seq<Node>)
    requires Valid(s) && NoDup(l)
    ensures NoDup(BuddiesIn(s.kids, l))
  {
    if l != [] {
      BuddiesDistinct(s, l[1..]);
      var p, r := At(s.kids, Some(l[0])), BuddiesIn(s.kids, l[1..]);
      if Some(l[0]) in s.kids {
        HeadOf(s, Some(l[0]));
      }
      forall b | b in p ensures b !in r {
        InBuddies(s.kids, l[1..], b);
        forall c | c in l[1..] ensures b !in At(s.kids, Some(c)) {
          Apart(s, Some(l[0]), Some(c), b);
        }
      }
      NoDupBoth(p, r);
    }
  }

  lemma Apart(s: State, q: Ptr, r: Ptr, n: Node)
    requires Valid(s) && q != r && n in At(s.kids, q)
    ensures n !in At(s.kids, r)
  {
    hide Valid;
    if r in s.kids {
      OnlyUnder(s, q, r, n);
    }
  }

  lemma NoDupBoth(p: seq<Node>, r: seq<Node>)
    requires NoDup(p) && NoDup(r) && forall b :: b in p ==> b !in r
    ensures NoDup(p + r)
  {
    var l := p + r;
    forall i, j | 0 <= i < j < |l| ensures l[i] != l[j] {
      if i < |p| {
        assert l[i] == p[i] && p[i] in p;
      } else {
        assert l[i] == r[i - |p|];
      }
      if j < |p| {
        assert l[j] == p[j];
      } else {
        assert l[j] == r[j - |p|] && r[j - |p|] in r;
      }
    }
  }

  /** The buddies found in a group are those attached to it. */
  lemma GroupBuddies(s: State, g: Node, b: Node)
    requires Valid(s) && g in s.info && s.info[g].Group? && Some(g) in s.kids
    ensures b in BuddiesIn(s.kids, s.kids[Some(g)]) <==>
              b in s.info && s.info[b].Buddy? && Attached(s.links, s.info, b)
                  && s.links.parent[s.links.parent[b].value] == Some(g)
  {
    hide Linked, Placed, Sized, Indexed, Filed, Named, Prioritized, Typed, TotalPreorder;
    InBuddies(s.kids, s.kids[Some(g)], b);
    if b in BuddiesIn(s.kids, s.kids[Some(g)]) {
      var c :| c in s.kids[Some(g)] && b in At(s.kids, Some(c));
      InKids(s, Some(g), c);
      InKids(s, Some(c), b);
      GroupKids(s, g);
      ContactKids(s, c);
    }
    if b in s.info && s.info[b].Buddy? && Attached(s.links, s.info, b)
       && s.links.parent[s.links.parent[b].value] == Some(g) {
      BuddyStands(s, NOTHING, b);
      assert b in At(s.kids, s.links.parent[b]);
    }
  }

  function FoundAt(s: State, k: Key): seq<Node> {
    if k in s.tables.buddies then [s.tables.buddies[k]] else []
  }

  /** What the buddy table holds under a key is what scanning the group finds. */
  lemma LookupIsScan(s: State, account: Account, name: string, g: Node)
    requires Valid(s) && g in s.info && s.info[g].Group? && Some(g) in s.kids
    ensures Matching(s, account, s.env.normalize(account, name), BuddiesIn(s.kids, s.kids[Some(g)]))
         == FoundAt(s, Key(s.env.normalize(account, name), account, g))
  {
    hide Linked, Placed, Sized, Named, Prioritized, Typed, TotalPreorder, Filed;
    var n := s.env.normalize(account, name);
    var l, k := BuddiesIn(s.kids, s.kids[Some(g)]), Key(n, account, g);
    HeadOf(s, Some(g));
    BuddiesDistinct(s, s.kids[Some(g)]);
    Soundly(s, NOTHING);
    forall b | b in l ensures Matches(s, account, n, b) <==> k in s.tables.buddies && s.tables.buddies[k] == b {
      GroupBuddies(s, g, b);
      FiledAt(s, NOTHING.adrift + NOTHING.unfiled, b);
    }
    if k in s.tables.buddies {
      var b := s.tables.buddies[k];
      FiledAt(s, NOTHING.adrift + NOTHING.unfiled, b);
      GroupBuddies(s, g, b);
      MatchingOne(s, account, n, l, b);
    } else {
      MatchingNone(s, account, n, l);
    }
  }

  /** Scanning one more group. */
  lemma ScanNext(s: State, account: Account, k: string, gs: seq<Node>, i: nat)
    requires i < |gs|
    ensures Matching(s, account, k, AllBuddies(s.kids, gs[i..]))
         == Matching(s, account, k, BuddiesIn(s.kids, At(s.kids, Some(gs[i]))))
          + Matching(s, account, k, AllBuddies(s.kids, gs[i + 1..]))
  {
    assert gs[i..][1..] == gs[i + 1..];
    MatchingBoth(s, account, k, BuddiesIn(s.kids, At(s.kids, Some(gs[i]))), AllBuddies(s.kids, gs[i + 1..]));
  }

  /** An account's own table holds exactly its buddies in the tree. */
  lemma CacheIsScan(s: State, account: Account)
    requires Valid(s) && account in s.tables.cache && None in s.kids
    ensures s.tables.cache[account].Values
         == set b | b in AllBuddies(s.kids, s.kids[None]) && b in s.info && s.info[b].Buddy?
              && s.info[b].account == account
  {
    hide Linked, Placed, Sized, Named, Prioritized, Typed, TotalPreorder, Filed;
    var all := set b | b in AllBuddies(s.kids, s.kids[None]) && b in s.info && s.info[b].Buddy?
          && s.info[b].account == account;
    Soundly(s, NOTHING);
    assert s.tables.cache[account] == OfAccount(s.tables.buddies, account);
    forall b ensures b in s.tables.cache[account].Values <==> b in all {
      FiledAt(s, NOTHING.adrift + NOTHING.unfiled, b);
      InTreeAll(s, b);
      if b in s.tables.cache[account].Values {
        var k :| k in s.tables.cache[account] && s.tables.cache[account][k] == b;
      }
      if b in all {
        var k := s.keyed[b];
        assert k in s.tables.cache[account] && s.tables.cache[account][k] == b;
      }
    }
  }

  /** A buddy is in the tree exactly if a scan of all groups comes across it. */
  lemma InTreeAll(s: State, b: Node)
    requires Valid(s) && None in s.kids
    ensures b in AllBuddies(s.kids, s.kids[None]) <==> b in s.info && s.info[b].Buddy? && Attached(s.links, s.info, b)
  {
    hide Linked, Placed, Sized, Indexed, Filed, Named, Prioritized, Typed, TotalPreorder;
    InAllBuddies(s.kids, s.kids[None], b);
    if b in AllBuddies(s.kids, s.kids[None]) {
      var g :| g in s.kids[None] && b in BuddiesIn(s.kids, At(s.kids, Some(g)));
      TopIsGroup(s, g);
      GroupBuddies(s, g, b);
    }
    if b in s.info && s.info[b].Buddy? && Attached(s.links, s.info, b) {
      BuddyStands(s, NOTHING, b);
      var g := s.links.parent[s.links.parent[b].value].value;
      GroupListed(s, g);
      GroupBuddies(s, g, b);
      assert At(s.kids, Some(g)) == s.kids[Some(g)];
    }
  }

  /** A group without children has no buddies. */
  lemma NoBuddies(kids: Lists, s: State, account: Account, k: string)
    ensures BuddiesIn(kids, []) == [] && Matching(s, account, k, []) == []
    ensures forall r: seq<Node> {:trigger [] + r} :: [] + r == r
  {
  }

  lemma NoneLeft(s: State, account: Account, k: string)
    ensures Matching(s, account, k, AllBuddies(s.kids, [])) == [] && Reversed([]) == []
  {
  }

  // -------------------------------------------------------- accounts' tables

  lemma TablesValid(s: State, s': State)
    requires Valid(s) && s' == s.(tables := s'.tables) && s'.tables.groups == s.tables.groups
    requires Indexed(s'.tables, s'.keyed) && Typed(s'.env, s'.info, s'.links.parent, s'.tables.cache, s'.connected)
    ensures Valid(s')
  {
    hide Linked, Placed, Sized, Indexed, Filed, Named, Prioritized, Typed, TotalPreorder;
    Soundly(s, NOTHING);
    SizedSame(s, s');
    FiledSame(s, s', NOTHING.adrift + NOTHING.unfiled, {});
    PrioritizedSame(s, s', {}, {});
    ValidBy(s');
  }

  lemma NewTable(s: State, a: Account, s': State)
    requires Valid(s) && s' == s.(tables := s.tables.(cache := s.tables.cache[a := map[]]))
    ensures Valid(s') <==> forall k :: k in s.tables.buddies ==> k.account != a
  {
    hide Linked, Placed, Sized, Filed, Named, Prioritized, TotalPreorder;
    Soundly(s, NOTHING);
    if forall k :: k in s.tables.buddies ==> k.account != a {
      assert OfAccount(s.tables.buddies, a) == map[];
      TablesValid(s, s');
    } else {
      var k :| k in s.tables.buddies && k.account == a;
      assert k in OfAccount(s.tables.buddies, a) && s'.tables.cache[a] != OfAccount(s.tables.buddies, a);
      NotIndexed(s', a);
    }
  }

  lemma NotIndexed(s: State, a: Account)
    requires a in s.tables.cache && s.tables.cache[a] != OfAccount(s.tables.buddies, a)
    ensures !Valid(s)
  {
    hide Linked, Placed, Sized, Filed, Named, Prioritized, TotalPreorder, Typed, OfAccount;
  }

  lemma OldTable(s: State, a: Account, s': State)
    requires Valid(s) && s' == s.(tables := s.tables.(cache := Less(s.tables.cache, a)))
    ensures Valid(s') <==> forall b :: b in s.info && s.info[b].Buddy? ==> s.info[b].account != a
  {
    hide Linked, Placed, Sized, Filed, Named, Prioritized, TotalPreorder;
    Soundly(s, NOTHING);
    if forall b :: b in s.info && s.info[b].Buddy? ==> s.info[b].account != a {
      forall k | k in s.tables.buddies ensures k.account != a {
        FiledAt(s, NOTHING.adrift + NOTHING.unfiled, s.tables.buddies[k]);
      }
      TablesValid(s, s');
    } else {
      var b :| b in s.info && s.info[b].Buddy? && s.info[b].account == a;
      NotTyped(s', b);
    }
  }

  lemma NotTyped(s: State, b: Node)
    requires b in s.info && s.info[b].Buddy? && s.info[b].account !in s.tables.cache
    ensures !Valid(s)
  {
    hide Linked, Placed, Sized, Filed, Named, Prioritized, TotalPreorder, Indexed;
  }

  /** The empty list is in order. */
  lemma NothingIsValid(s: State)
    requires TotalPreorder(s.env) && !s.env.isOnline(s.env.offline) && s.env.buddiesGroup != ""
    requires s.env.chatsGroup != ""
    requires s.links == Links(None, map[], map[], map[], map[]) && s.info == map[] && s.kids == map[None := []]
    requires s.linked == s.kids
    requires s.keyed == map[] && s.tables.buddies == map[] && s.tables.groups == map[]
    requires forall a :: a in s.tables.cache ==> s.tables.cache[a] == map[]
    ensures Valid(s)
  {
    hide TotalPreorder;
    forall a | a in s.tables.cache ensures s.tables.cache[a] == OfAccount(s.tables.buddies, a) {
    }
    assert Linked(s.links, s.linked);
    assert Placed(s.links, s.kids, s.info, {}) by { PlacedNothing(s); }
  }

  lemma PlacedNothing(s: State)
    requires s.links == Links(None, map[], map[], map[], map[]) && s.info == map[] && s.kids == map[None := []]
    ensures Placed(s.links, s.kids, s.info, {})
  {
    assert Siblings(s.links, s.info, {}, None, []);
  }
}
