/** libpurple/account.c, purple_accounts_delete: a walk over the tree that removes nodes under its own feet. */
module BlistPurge {
  import opened BlistSeq
  import opened Options
  import opened BlistLinks
  import opened BlistModel
  import opened BlistTree
  import opened BlistSteps
  import opened BlistGroups
  import opened BlistBuddies
  import opened BlistPlaces
  import opened BlistRename
  import opened BlistScan

  /** `l` without the nodes `gone`. */
  function FilterOut(l: seq<Node>, gone: set<Node>): seq<Node> {
    if l == [] then [] else (if l[0] in gone then [] else [l[0]]) + FilterOut(l[1..], gone)
  }

  /** The tree without the nodes `gone`, everything else where it was. */
  function KidsWithout(kids: Lists, gone: set<Node>): Lists {
    map q | q in kids && !(q.Some? && q.value in gone) :: FilterOut(kids[q], gone)
  }

  /** The contacts among the nodes `gone`. */
  function ContactsIn(s: State, gone: set<Node>): set<Node> {
    set n | n in gone && n in s.info && s.info[n].Contact?
  }

  lemma {:induction false} FilterBoth(l: seq<Node>, r: seq<Node>, gone: set<Node>)
    ensures FilterOut(l + r, gone) == FilterOut(l, gone) + FilterOut(r, gone)
  {
    if l == [] {
      assert l + r == r;
    } else {
      assert (l + r)[1..] == l[1..] + r;
      FilterBoth(l[1..], r, gone);
    }
  }

  lemma {:induction false} FilterNone(l: seq<Node>, gone: set<Node>)
    requires forall n :: n in l ==> n !in gone
    ensures FilterOut(l, gone) == l
  {
    if l != [] {
      FilterNone(l[1..], gone);
    }
  }

  lemma {:induction false} InFilter(l: seq<Node>, gone: set<Node>, n: Node)
    ensures n in FilterOut(l, gone) <==> n in l && n !in gone
  {
    if l != [] {
      InFilter(l[1..], gone, n);
    }
  }

  lemma {:induction false} FilterSame(l: seq<Node>, gone: set<Node>, gone': set<Node>)
    requires forall n :: n in l ==> (n in gone <==> n in gone')
    ensures FilterOut(l, gone) == FilterOut(l, gone')
  {
    if l != [] {
      FilterSame(l[1..], gone, gone');
    }
  }

  /** Removing one more. */
  lemma {:induction false} FilterWithout(l: seq<Node>, gone: set<Node>, b: Node)
    requires NoDup(l) && b !in gone
    ensures Without(FilterOut(l, gone), b) == FilterOut(l, gone + {b})
  {
    hide Without;
    if l == [] {
      WithoutAbsent([], b);
    } else {
      FilterWithout(l[1..], gone, b);
      WithoutFirst(l[0], FilterOut(l[1..], gone), b);
      if l[0] == b {
        assert b !in l[1..];
        FilterSame(l[1..], gone, gone + {b});
      }
    }
  }

  lemma WithoutFirst(x: Node, r: seq<Node>, b: Node)
    ensures Without([x] + r, b) == if x == b then r else [x] + Without(r, b)
    ensures [] + r == r
  {
    assert ([x] + r)[1..] == r;
  }

  /**
   Between `s` and `s'` exactly the nodes `gone` were removed; every group's total drifted by its emptied contacts.
  */
  ghost predicate Purged(s: State, s': State, gone: set<Node>) {
    && Valid(s) && Valid(s') && s'.env == s.env && s'.connected == s.connected
    && s'.tables.cache.Keys == s.tables.cache.Keys
    && s'.kids == KidsWithout(s.kids, gone) && s'.info == Minus(s.info, gone)
    && (forall n :: n in gone ==> n in s.info && !s.info[n].Group?)
    && (forall g {:trigger g in s'.drift} :: g in s.info && s.info[g].Group? ==>
          g in s.drift && g in s'.drift && s'.drift[g] == s.drift[g] + Count(At(s.kids, Some(g)), ContactsIn(s, gone)))
  }

  lemma DriftAt(s: State, s': State, gone: set<Node>, g: Node)
    requires Purged(s, s', gone) && g in s.info && s.info[g].Group?
    ensures g in s.drift && g in s'.drift && s'.drift[g] == s.drift[g] + Count(At(s.kids, Some(g)), ContactsIn(s, gone))
  {
    assert g in s'.drift;
  }

  lemma PurgeStarts(s: State)
    requires Valid(s)
    ensures Purged(s, s, {})
  {
    hide Linked, Placed, Sized, Indexed, Filed, Named, Prioritized, Typed, TotalPreorder, Valid;
    MinusNone(s.info);
    forall q | q in s.kids ensures FilterOut(s.kids[q], {}) == s.kids[q] {
      FilterNone(s.kids[q], {});
    }
    assert KidsWithout(s.kids, {}) == s.kids;
    forall g | g in s.info && s.info[g].Group?
      ensures g in s.drift && s.drift[g] == s.drift[g] + Count(At(s.kids, Some(g)), ContactsIn(s, {}))
    {
      GroupDrift(s, NOTHING, g) by { ValidIs(s); }
      CountZero(At(s.kids, Some(g)), ContactsIn(s, {}));
    }
  }

  /**
   The i-th node under `q`, when neither it nor any later one has been removed: still there, and its next pointer still
   good.
  */
  lemma StillThere(s: State, s': State, gone: set<Node>, q: Ptr, i: nat)
    requires Purged(s, s', gone) && q in s.kids && !(q.Some? && q.value in gone) && i < |s.kids[q]|
    requires forall k :: i <= k < |s.kids[q]| ==> s.kids[q][k] !in gone
    ensures var l := s.kids[q];
            && l[i] in s'.info && l[i] in s.info && s'.info[l[i]] == s.info[l[i]] && Live(s'.links, l[i])
            && s'.links.parent[l[i]] == q && s'.links.next[l[i]] == First(l[i + 1..]) && q in s'.kids
            && l[i] in s'.kids[q]
  {
    hide Valid;
    var l := s.kids[q];
    var p := FilterOut(l[..i], gone);
    assert l == l[..i] + l[i..];
    FilterBoth(l[..i], l[i..], gone);
    forall n | n in l[i..] ensures n !in gone {
      LaterAt(l, i, n);
    }
    FilterNone(l[i..], gone);
    var l' := s'.kids[q];
    assert l' == p + l[i..] && l'[|p|] == l[i];
    SiblingAt(s', q, |p|);
    assert i + 1 < |l| ==> l'[|p| + 1] == l[i + 1];
    InKids(s, q, l[i]);
    MinusAt(s.info, gone, l[i]);
  }

  /** The children of a node that has not been removed, none of them removed either. */
  lemma StillFirst(s: State, s': State, gone: set<Node>, q: Ptr)
    requires Purged(s, s', gone) && q in s.kids && !(q.Some? && q.value in gone)
    requires forall n :: n in s.kids[q] ==> n !in gone
    ensures HasHead(s'.links, q) && Head(s'.links, q) == First(s.kids[q]) && NoDup(s.kids[q])
  {
    hide Valid;
    FilterNone(s.kids[q], gone);
    HeadOf(s', q);
    HeadOf(s, q);
  }

  // --------------------------------------------------------- one node less

  /** Buddy `b` of contact `c` goes, and the contact if nobody is left in it. */
  function WithBuddy(s: State, gone: set<Node>, b: Node, c: Node): set<Node> {
    gone + {b} + if FilterOut(At(s.kids, Some(c)), gone + {b}) == [] then {c} else {}
  }

  /** A node that is under `q` is under no other. */
  lemma FilterOther(s: State, gone: set<Node>, q: Ptr, r: Ptr, n: Node)
    requires Valid(s) && q in s.kids && n in s.kids[q] && r != q
    ensures FilterOut(At(s.kids, r), gone + {n}) == FilterOut(At(s.kids, r), gone)
  {
    hide Valid;
    Apart(s, q, r, n);
    FilterSame(At(s.kids, r), gone + {n}, gone);
  }

  /** The tree after a node without children that is under `q` has gone. */
  lemma KidsOneLess(s: State, gone: set<Node>, q: Ptr, n: Node)
    requires Valid(s) && q in s.kids && n in s.kids[q] && n !in gone && !(q.Some? && q.value in gone) && q != Some(n)
    ensures q in KidsWithout(s.kids, gone)
    ensures var k := KidsWithout(s.kids, gone);
            Less(k[q := Without(k[q], n)], Some(n)) == KidsWithout(s.kids, gone + {n})
  {
    hide Valid, Without, FilterOut;
    HeadOf(s, q);
    FilterWithout(s.kids[q], gone, n);
    var k := KidsWithout(s.kids, gone);
    var k', k2 := Less(k[q := Without(k[q], n)], Some(n)), KidsWithout(s.kids, gone + {n});
    forall r | r in k2 ensures r in k' && k'[r] == k2[r] {
      if r != q {
        FilterOther(s, gone, q, r, n);
      }
    }
    assert k'.Keys == k2.Keys;
  }

  lemma DriftCounts(s: State, gone: set<Node>, c: Node, g: Node, h: Node)
    requires Valid(s) && g in s.info && s.info[g].Group? && Some(g) in s.kids && c in s.kids[Some(g)] && c !in gone
    requires c in s.info && s.info[c].Contact? && h in s.info && s.info[h].Group?
    ensures Count(At(s.kids, Some(h)), ContactsIn(s, gone + {c}))
              == Count(At(s.kids, Some(h)), ContactsIn(s, gone)) + (if h == g then 1 else 0)
  {
    hide Valid;
    assert ContactsIn(s, gone + {c}) == ContactsIn(s, gone) + {c};
    if h == g {
      HeadOf(s, Some(g));
      CountGrows(s.kids[Some(g)], ContactsIn(s, gone), c);
    } else {
      Apart(s, Some(g), Some(h), c);
      CountSame(At(s.kids, Some(h)), ContactsIn(s, gone + {c}), ContactsIn(s, gone));
    }
  }

  lemma SameContacts(s: State, gone: set<Node>, b: Node)
    requires b in s.info && !s.info[b].Contact?
    ensures ContactsIn(s, gone + {b}) == ContactsIn(s, gone)
  {
  }

  lemma PurgeBuddy(s: State, s1: State, s': State, gone: set<Node>, b: Node, c: Node, g: Node)
    requires Purged(s, s1, gone) && BuddyAt(s1, b, c, g) && g in s1.drift && Dropped(s1, s', b, c, g) && Valid(s')
    ensures Purged(s, s', WithBuddy(s, gone, b, c))
  {
    hide Linked, Placed, Sized, Indexed, Filed, Named, Prioritized, Typed, TotalPreorder, Valid, Without, Less, Minus,
         KidsWithout, FilterOut;
    BuddyWas(s, s1, gone, b, c, g);
    var l := s.kids[Some(c)];
    HeadOf(s, Some(c));
    FilterWithout(l, gone, b);
    KidsOneLess(s, gone, Some(c), b);
    MinusLess(s.info, gone, b);
    SameContacts(s, gone, b);
    WithoutAt1(s, gone, c);
    WithoutAt1(s, gone, g);
    if FilterOut(l, gone + {b}) == [] {
      KidsOneLess(s, gone + {b}, Some(g), c);
      MinusLess(s.info, gone + {b}, c);
      assert WithBuddy(s, gone, b, c) == gone + {b} + {c};
    } else {
      assert WithBuddy(s, gone, b, c) == gone + {b};
    }
    PurgedDrift(s, s1, s', gone, b, c, g);
  }

  lemma WithoutAt1(s: State, gone: set<Node>, c: Node)
    requires Some(c) in s.kids && c !in gone
    ensures Some(c) in KidsWithout(s.kids, gone)
    ensures KidsWithout(s.kids, gone)[Some(c)] == FilterOut(s.kids[Some(c)], gone)
  {
  }

  /** What is there now was there before. */
  lemma BuddyWas(s: State, s1: State, gone: set<Node>, b: Node, c: Node, g: Node)
    requires Purged(s, s1, gone) && BuddyAt(s1, b, c, g)
    ensures Some(c) in s.kids && Some(g) in s.kids && b in s.kids[Some(c)] && c in s.kids[Some(g)] && b !in gone
    ensures c !in gone && g !in gone
    ensures b in s.info && s.info[b].Buddy? && c in s.info && s.info[c].Contact? && g in s.info && s.info[g].Group?
  {
    hide Valid, Minus, KidsWithout;
    KeptKid(s, gone, Some(c), b);
    KeptKid(s, gone, Some(g), c);
    MinusAt(s.info, gone, b);
    MinusAt(s.info, gone, c);
    MinusAt(s.info, gone, g);
  }

  lemma PurgedDrift(s: State, s1: State, s': State, gone: set<Node>, b: Node, c: Node, g: Node)
    requires Purged(s, s1, gone) && BuddyAt(s1, b, c, g) && g in s1.drift && Dropped(s1, s', b, c, g)
    requires Some(c) in s.kids && Without(s1.kids[Some(c)], b) == FilterOut(s.kids[Some(c)], gone + {b})
    ensures forall h {:trigger h in s.info} :: h in s.info && s.info[h].Group? ==>
              h in s.drift && h in s'.drift
                  && s'.drift[h] == s.drift[h] + Count(At(s.kids, Some(h)), ContactsIn(s, WithBuddy(s, gone, b, c)))
  {
    hide Linked, Placed, Sized, Indexed, Filed, Named, Prioritized, Typed, TotalPreorder, Valid, Without, Less, Minus,
         KidsWithout, FilterOut;
    BuddyWas(s, s1, gone, b, c, g);
    SameContacts(s, gone, b);
    assert gone + {b} + {} == gone + {b};
    forall h | h in s.info && s.info[h].Group?
      ensures h in s.drift && h in s'.drift
      ensures s'.drift[h] == s.drift[h] + Count(At(s.kids, Some(h)), ContactsIn(s, WithBuddy(s, gone, b, c)))
    {
      DriftAt(s, s1, gone, h);
      assert s1.drift[h] == s.drift[h] + Count(At(s.kids, Some(h)), ContactsIn(s, gone));
      LessAt(s1.drift, b, h);
      if FilterOut(s.kids[Some(c)], gone + {b}) == [] {
        DriftCounts(s, gone + {b}, c, g, h);
        LessAt(Less(s1.drift, b)[g := s1.drift[g] + 1], c, h);
      }
    }
  }

  lemma PurgeChat(s: State, s1: State, s': State, gone: set<Node>, n: Node, g: Node)
    requires Purged(s, s1, gone) && Valid(s') && n in s.info && s.info[n].Chat? && n !in gone
    requires Some(g) in s.kids && n in s.kids[Some(g)] && g in s.info && s.info[g].Group?
    requires s'.env == s1.env && s'.connected == s1.connected && s'.tables == s1.tables
    requires s'.info == Less(s1.info, n) && s'.drift == Less(s1.drift, n)
    requires Some(g) in s1.kids && s'.kids == Less(s1.kids[Some(g) := Without(s1.kids[Some(g)], n)], Some(n))
    ensures Purged(s, s', gone + {n})
  {
    hide Linked, Placed, Sized, Indexed, Filed, Named, Prioritized, Typed, TotalPreorder, Valid, Without, Less, Minus,
         KidsWithout, FilterOut;
    KidsOneLess(s, gone, Some(g), n);
    MinusLess(s.info, gone, n);
    SameContacts(s, gone, n);
    forall h | h in s.info && s.info[h].Group?
      ensures h in s.drift && h in s'.drift
      ensures s'.drift[h] == s.drift[h] + Count(At(s.kids, Some(h)), ContactsIn(s, gone + {n}))
    {
      DriftAt(s, s1, gone, h);
      assert s1.drift[h] == s.drift[h] + Count(At(s.kids, Some(h)), ContactsIn(s, gone));
      LessAt(s1.drift, n, h);
    }
  }

  // ----------------------------------------------------------- who has to go

  predicate On(s: State, a: Account, n: Node) {
    n in s.info && (s.info[n].Buddy? || s.info[n].Chat?) && s.info[n].account == a
  }

  /** Contact `c` has buddies, and all of them are on account `a`. */
  predicate AllOn(s: State, a: Account, c: Node) {
    At(s.kids, Some(c)) != [] && forall b :: b in At(s.kids, Some(c)) ==> On(s, a, b)
  }

  /** The nodes to go among child `n` of a group and what is below it. */
  function Victims(s: State, a: Account, n: Node): set<Node> {
    (set b | b in At(s.kids, Some(n)) && On(s, a, b))
    + if On(s, a, n) || AllOn(s, a, n) then {n} else {}
  }

  function ChildVictims(s: State, a: Account, l: seq<Node>): set<Node> {
    if l == [] then {} else ChildVictims(s, a, l[..|l| - 1]) + Victims(s, a, l[|l| - 1])
  }

  /** Everything that belongs to account `a` in the groups `gs`. */
  function GroupVictims(s: State, a: Account, gs: seq<Node>): set<Node> {
    if gs == [] then {} else GroupVictims(s, a, gs[..|gs| - 1]) + ChildVictims(s, a, At(s.kids, Some(gs[|gs| - 1])))
  }

  lemma VictimsNext(s: State, a: Account, l: seq<Node>, j: nat)
    requires j < |l|
    ensures ChildVictims(s, a, l[..j + 1]) == ChildVictims(s, a, l[..j]) + Victims(s, a, l[j])
    ensures GroupVictims(s, a, l[..j + 1]) == GroupVictims(s, a, l[..j]) + ChildVictims(s, a, At(s.kids, Some(l[j])))
  {
    assert l[..j + 1][..j] == l[..j];
  }

  lemma {:induction false} InChildVictims(s: State, a: Account, l: seq<Node>, n: Node)
    ensures n in ChildVictims(s, a, l) <==> exists c :: c in l && n in Victims(s, a, c)
  {
    if l != [] {
      InChildVictims(s, a, l[..|l| - 1], n);
      assert l == l[..|l| - 1] + [l[|l| - 1]];
    }
  }

  lemma {:induction false} InGroupVictims(s: State, a: Account, gs: seq<Node>, n: Node)
    ensures n in GroupVictims(s, a, gs) <==> exists g :: g in gs && n in ChildVictims(s, a, At(s.kids, Some(g)))
  {
    if gs != [] {
      InGroupVictims(s, a, gs[..|gs| - 1], n);
      assert gs == gs[..|gs| - 1] + [gs[|gs| - 1]];
    }
  }

  // --------------------------------------------------------- along the lists

  /** What has gone after the first `i` buddies of contact `c` have been looked at. */
  function SoFar(s: State, a: Account, gone: set<Node>, c: Node, i: nat): set<Node>
    requires i <= |At(s.kids, Some(c))|
  {
    var l := At(s.kids, Some(c));
    gone + (set b | b in l[..i] && On(s, a, b)) + if i == |l| && AllOn(s, a, c) then {c} else {}
  }

  lemma SoFarStarts(s: State, a: Account, gone: set<Node>, c: Node)
    ensures SoFar(s, a, gone, c, 0) == gone
  {
  }

  lemma SoFarEnds(s: State, a: Account, gone: set<Node>, c: Node)
    requires c in s.info && s.info[c].Contact?
    ensures SoFar(s, a, gone, c, |At(s.kids, Some(c))|) == gone + Victims(s, a, c)
  {
    var l := At(s.kids, Some(c));
    assert l[..|l|] == l;
  }

  lemma SoFarNext(s: State, a: Account, gone: set<Node>, c: Node, i: nat)
    requires NoDup(At(s.kids, Some(c))) && i < |At(s.kids, Some(c))|
    requires (forall b :: b in At(s.kids, Some(c)) ==> b !in gone)
    ensures var l := At(s.kids, Some(c));
            && SoFar(s, a, gone, c, i + 1) == if On(s, a, l[i]) then WithBuddy(s, SoFar(s, a, gone, c, i), l[i], c)
                 else SoFar(s, a, gone, c, i)
  {
    hide FilterOut;
    var l := At(s.kids, Some(c));
    var b, done := l[i], SoFar(s, a, gone, c, i);
    assert l[..i + 1] == l[..i] + [b];
    if On(s, a, b) {
      FilterEmpty(l, done + {b});
      if i + 1 < |l| {
        assert l[i + 1] in l && l[i + 1] !in done + {b};
      } else {
        assert l[..i + 1] == l;
      }
    } else {
      assert b in l && !AllOn(s, a, c);
    }
  }

  lemma FilterEmpty(l: seq<Node>, gone: set<Node>)
    ensures FilterOut(l, gone) == [] <==> forall n :: n in l ==> n in gone
  {
    hide FilterOut;
    forall n ensures n in FilterOut(l, gone) <==> n in l && n !in gone {
      InFilter(l, gone, n);
    }
    if FilterOut(l, gone) != [] {
      assert FilterOut(l, gone)[0] in FilterOut(l, gone);
    }
  }

  /** A node is a victim on account of itself or of its parent only. */
  lemma VictimOf(s: State, a: Account, c: Node, n: Node)
    requires Valid(s) && n in Victims(s, a, c) && c in s.info && (s.info[c].Contact? || s.info[c].Chat?)
    ensures n in s.info && !s.info[n].Group?
    ensures (n == c || (s.info[n].Buddy? && n in s.links.parent && s.links.parent[n] == Some(c)))
  {
    hide Valid;
    if n != c {
      InKids(s, Some(c), n);
      ParentKind(s, n);
    }
  }

  lemma ParentKind(s: State, n: Node)
    requires Valid(s) && n in s.info && n in s.links.parent && s.links.parent[n].Some?
    ensures var p := s.links.parent[n].value;
            p in s.info && (if s.info[n].Buddy? then s.info[p].Contact? else s.info[p].Group?)
  {
    hide Linked, Placed, Sized, Indexed, Filed, Named, Prioritized, Typed, TotalPreorder;
    if s.info[n].Buddy? {
      BuddyStands(s, NOTHING, n);
    } else if s.info[n].Group? {
      GroupListed(s, n);
    } else {
      ChildStands(s, n);
    }
  }

  /** Neither a later child of the group nor what is below it has gone yet. */
  lemma LaterChild(s: State, a: Account, g: Node, j: nat, k: nat, n: Node)
    requires Valid(s) && g in s.info && s.info[g].Group? && Some(g) in s.kids && j <= k < |s.kids[Some(g)]|
    requires n == s.kids[Some(g)][k] || n in At(s.kids, Some(s.kids[Some(g)][k]))
    ensures n !in ChildVictims(s, a, s.kids[Some(g)][..j])
  {
    hide Valid, Victims, ChildVictims;
    var l := s.kids[Some(g)];
    GroupKids(s, g);
    HeadOf(s, Some(g));
    InChildVictims(s, a, l[..j], n);
    if n != l[k] {
      InKids(s, Some(l[k]), n);
    }
    InKids(s, Some(g), l[k]);
    forall c | c in l[..j] ensures n !in Victims(s, a, c) {
      var i :| 0 <= i < j && l[i] == c;
      assert c != l[k];
      if n in Victims(s, a, c) {
        VictimOf(s, a, c, n);
        ParentKind(s, n);
      }
    }
  }

  /** What goes in a group is below it. */
  lemma VictimsBelow(s: State, a: Account, g: Node, n: Node)
    requires Valid(s) && g in s.info && s.info[g].Group? && n in ChildVictims(s, a, At(s.kids, Some(g)))
    ensures n in s.info && !s.info[n].Group? && n in s.links.parent && s.links.parent[n].Some?
    ensures s.info[n].Buddy? ==>
              s.links.parent[n].value in s.links.parent && s.links.parent[s.links.parent[n].value] == Some(g)
    ensures !s.info[n].Buddy? ==> s.links.parent[n] == Some(g)
  {
    hide Valid, Victims, ChildVictims;
    InChildVictims(s, a, At(s.kids, Some(g)), n);
    var c :| c in At(s.kids, Some(g)) && n in Victims(s, a, c);
    GroupKids(s, g);
    InKids(s, Some(g), c);
    VictimOf(s, a, c, n);
  }

  /** A later group and what is below it are untouched. */
  lemma LaterGroup(s: State, a: Account, i: nat, n: Node)
    requires Valid(s) && None in s.kids && i < |s.kids[None]|
    requires var g := s.kids[None][i];
             n == g || n in At(s.kids, Some(g)) || exists c :: c in At(s.kids, Some(g)) && n in At(s.kids, Some(c))
    ensures n !in GroupVictims(s, a, s.kids[None][..i])
  {
    hide Valid, ChildVictims, GroupVictims;
    var l := s.kids[None];
    var g := l[i];
    HeadOf(s, None);
    TopIsGroup(s, g);
    InGroupVictims(s, a, l[..i], n);
    forall h | h in l[..i] ensures n !in ChildVictims(s, a, At(s.kids, Some(h))) {
      var k :| 0 <= k < i && l[k] == h;
      TopIsGroup(s, h);
      if n in ChildVictims(s, a, At(s.kids, Some(h))) {
        VictimsBelow(s, a, h, n);
        UnderOther(s, g, h, n);
      }
    }
  }

  lemma UnderOther(s: State, g: Node, h: Node, n: Node)
    requires Valid(s) && g in s.info && s.info[g].Group? && n in s.info && !s.info[n].Group? && g != h
    requires n in At(s.kids, Some(g)) || exists c :: c in At(s.kids, Some(g)) && n in At(s.kids, Some(c))
    ensures s.info[n].Buddy? ==>
              !(n in s.links.parent && s.links.parent[n].Some? && s.links.parent[n].value in s.links.parent
                                   && s.links.parent[s.links.parent[n].value] == Some(h))
    ensures !s.info[n].Buddy? ==> !(n in s.links.parent && s.links.parent[n] == Some(h))
  {
    hide Valid;
    GroupKids(s, g);
    if n in At(s.kids, Some(g)) {
      InKids(s, Some(g), n);
      ParentKind(s, n);
    } else {
      var c :| c in At(s.kids, Some(g)) && n in At(s.kids, Some(c));
      InKids(s, Some(c), n);
      InKids(s, Some(g), c);
      ParentKind(s, n);
    }
  }

  /** No entry of the account is left in the tables. */
  lemma NothingFiled(s: State, s': State, a: Account)
    requires Purged(s, s', GroupVictims(s, a, At(s.kids, None))) && None in s.kids
    ensures forall k :: k in s'.tables.buddies ==> k.account != a
    ensures forall b :: b in AllBuddies(s'.kids, At(s'.kids, None)) ==> !On(s, a, b)
  {
    hide Valid, GroupVictims, Purged, AllBuddies;
    assert Valid(s') && None in s'.kids by { PurgedParts(s, s', GroupVictims(s, a, At(s.kids, None))); }
    forall b | b in AllBuddies(s'.kids, s'.kids[None]) ensures !On(s, a, b) {
      BuddyLeft(s, s', a, b);
    }
    forall k | k in s'.tables.buddies ensures k.account != a {
      var b := FiledBuddy(s', k);
      BuddyLeft(s, s', a, b);
    }
  }

  lemma PurgedParts(s: State, s': State, gone: set<Node>)
    requires Purged(s, s', gone)
    ensures Valid(s) && Valid(s') && s'.kids == KidsWithout(s.kids, gone) && s'.info == Minus(s.info, gone)
    ensures None in s.kids ==> None in s'.kids && s'.kids[None] == s.kids[None]
    ensures s'.connected == s.connected && s'.env == s.env
  {
    hide Valid;
    if None in s.kids {
      forall n | n in s.kids[None] ensures n !in gone {
        TopIsGroup(s, n);
      }
      FilterNone(s.kids[None], gone);
    }
  }

  lemma FiledBuddy(s: State, k: Key) returns (b: Node)
    requires Valid(s) && None in s.kids && k in s.tables.buddies
    ensures b in AllBuddies(s.kids, s.kids[None]) && b in s.info && s.info[b].Buddy? && s.info[b].account == k.account
  {
    hide Linked, Placed, Sized, Named, Prioritized, Typed, TotalPreorder, Filed, AllBuddies;
    Soundly(s, NOTHING);
    b := s.tables.buddies[k];
    FiledAt(s, NOTHING.adrift + NOTHING.unfiled, b);
    InTreeAll(s, b);
  }

  /** A buddy that is still in the tree is not on the account. */
  lemma BuddyLeft(s: State, s': State, a: Account, b: Node)
    requires Purged(s, s', GroupVictims(s, a, At(s.kids, None))) && None in s.kids && None in s'.kids
    requires b in AllBuddies(s'.kids, s'.kids[None])
    ensures !On(s, a, b) && b in s'.info && s'.info[b].Buddy? && b in s.info && s'.info[b] == s.info[b]
  {
    hide Valid, GroupVictims, Purged, AllBuddies, ChildVictims, KidsWithout, Minus;
    var gone := GroupVictims(s, a, s.kids[None]);
    PurgedParts(s, s', gone);
    InTreeAll(s', b);
    MinusAt(s.info, gone, b);
    BuddyAbove(s', b);
    var c := s'.links.parent[b].value;
    var g := s'.links.parent[c].value;
    KeptKid(s, gone, Some(g), c);
    KeptKid(s, gone, Some(c), b);
    InGroupVictims(s, a, s.kids[None], b);
    InChildVictims(s, a, At(s.kids, Some(g)), b);
    GroupAbove(s', g);
    assert g in s.kids[None] && c in At(s.kids, Some(g));
    assert b in At(s.kids, Some(c));
    assert On(s, a, b) ==> b in Victims(s, a, c);
  }

  lemma GroupAbove(s: State, g: Node)
    requires Valid(s) && None in s.kids && g in s.info && s.info[g].Group? && At(s.kids, Some(g)) != []
    ensures g in s.kids[None]
  {
    hide Valid;
    GroupListed(s, g);
  }

  lemma BuddyAbove(s: State, b: Node)
    requires Valid(s) && b in s.info && s.info[b].Buddy? && Attached(s.links, s.info, b)
    ensures var c := s.links.parent[b].value; BuddyAt(s, b, c, s.links.parent[c].value)
  {
    hide Linked, Placed, Sized, Named, Prioritized, Typed, TotalPreorder, Filed, Indexed;
    BuddyStands(s, NOTHING, b);
  }

  lemma KeptKid(s: State, gone: set<Node>, q: Ptr, n: Node)
    requires q in KidsWithout(s.kids, gone) && n in KidsWithout(s.kids, gone)[q]
    ensures q in s.kids && n in s.kids[q] && n !in gone && !(q.Some? && q.value in gone)
  {
    InFilter(s.kids[q], gone, n);
  }

  lemma NoVictims(s: State, a: Account, l: seq<Node>)
    ensures ChildVictims(s, a, l[..0]) == {} && GroupVictims(s, a, l[..0]) == {}
  {
  }

  /** The buddies ahead and the contact they are in are still there. */
  lemma SoFarAhead(s: State, a: Account, gone: set<Node>, c: Node, i: nat)
    requires Valid(s) && c in s.info && s.info[c].Contact? && Some(c) in s.kids && i < |s.kids[Some(c)]| && c !in gone
    requires forall b :: b in s.kids[Some(c)] ==> b !in gone
    ensures c !in SoFar(s, a, gone, c, i) && NoDup(s.kids[Some(c)])
    ensures forall k :: i <= k < |s.kids[Some(c)]| ==> s.kids[Some(c)][k] !in SoFar(s, a, gone, c, i)
  {
    hide Valid;
    var l := s.kids[Some(c)];
    ContactKids(s, c);
    assert c !in l;
    forall k | i <= k < |l| ensures l[k] !in SoFar(s, a, gone, c, i) {
      assert l[k] in l;
    }
  }

  /** A buddy of the contact that has not been removed. */
  lemma BuddyHere(s: State, s': State, gone: set<Node>, c: Node, b: Node)
    requires Purged(s, s', gone) && Some(c) in s.kids && Some(c) in s'.kids && b in s'.kids[Some(c)] && c in s.info
    requires s.info[c].Contact?
    requires b in s'.info && b in s'.links.parent && s'.links.parent[b] == Some(c)
    ensures Valid(s') && s'.info[b].Buddy? && c in s'.links.parent && s'.links.parent[c].Some?
    ensures BuddyAt(s', b, c, s'.links.parent[c].value)
  {
    hide Linked, Placed, Sized, Named, Prioritized, Typed, TotalPreorder, Filed, Indexed;
    KeptKid(s, gone, Some(c), b);
    ContactKids(s, c);
    MinusAt(s.info, gone, b);
    BuddyStands(s', NOTHING, b);
  }

  /** The next child of the group is still there, with all that is below it. */
  lemma ChildAhead(s: State, s': State, a: Account, gone: set<Node>, g: Node, j: nat)
    requires g in s.info && s.info[g].Group? && Some(g) in s.kids && g !in gone && j < |s.kids[Some(g)]|
    requires Purged(s, s', gone + ChildVictims(s, a, s.kids[Some(g)][..j]))
    requires forall n :: n in s.kids[Some(g)] || (exists c :: c in s.kids[Some(g)] && n in At(s.kids, Some(c))) ==>
               n !in gone
    ensures var n, r := s.kids[Some(g)][j], gone + ChildVictims(s, a, s.kids[Some(g)][..j]);
            && Valid(s') && n !in r && (forall b :: b in At(s.kids, Some(n)) ==> b !in r)
            && n in s.info && n in s'.info && s'.info[n] == s.info[n] && (s.info[n].Contact? || s.info[n].Chat?)
            && Some(n) in s.kids
            && n in s'.links.child && n in s'.links.parent && s'.links.parent[n] == Some(g) && Some(g) in s'.kids
            && n in s'.links.next && s'.links.next[n] == First(s.kids[Some(g)][j + 1..])
            && (s.info[n].Chat? ==> Victims(s, a, n) == if s.info[n].account == a then {n} else {})
  {
    hide Valid, ChildVictims;
    var l := s.kids[Some(g)];
    var n, r := l[j], gone + ChildVictims(s, a, l[..j]);
    GroupKids(s, g);
    forall k | j <= k < |l| ensures l[k] !in r {
      LaterChild(s, a, g, j, k, l[k]);
      assert l[k] in l;
    }
    assert n in l;
    forall b | b in At(s.kids, Some(n)) ensures b !in r {
      LaterChild(s, a, g, j, j, b);
    }
    if g in ChildVictims(s, a, l[..j]) {
      hide Purged;
      GroupIsNoVictim(s, a, g, j);
    }
    StillThere(s, s', r, Some(g), j);
  }

  lemma GroupIsNoVictim(s: State, a: Account, g: Node, j: nat)
    requires Valid(s) && g in s.info && s.info[g].Group? && Some(g) in s.kids && j <= |s.kids[Some(g)]|
    ensures g !in ChildVictims(s, a, s.kids[Some(g)][..j])
  {
    hide Valid, Victims;
    var l := s.kids[Some(g)];
    InChildVictims(s, a, l[..j], g);
    GroupKids(s, g);
    forall c | c in l[..j] ensures g !in Victims(s, a, c) {
      InKids(s, Some(g), c);
      if g in Victims(s, a, c) {
        VictimOf(s, a, c, g);
      }
    }
  }

  /** The next group is still there, with all that is below it. */
  lemma GroupAhead(s: State, s': State, a: Account, i: nat)
    requires None in s.kids && i < |s.kids[None]| && Purged(s, s', GroupVictims(s, a, s.kids[None][..i]))
    ensures var g, r := s.kids[None][i], GroupVictims(s, a, s.kids[None][..i]);
            && g in s.info && s.info[g].Group? && Some(g) in s.kids && g !in r && g in s'.links.child
            && forall n :: n in s.kids[Some(g)] || (exists c :: c in s.kids[Some(g)] && n in At(s.kids, Some(c))) ==>
                 n !in r
  {
    hide Valid, GroupVictims;
    var g, r := s.kids[None][i], GroupVictims(s, a, s.kids[None][..i]);
    TopIsGroup(s, g);
    forall n | n in s.kids[Some(g)] || (exists c :: c in s.kids[Some(g)] && n in At(s.kids, Some(c))) ensures n !in r {
      LaterGroup(s, a, i, n);
    }
    LaterGroup(s, a, i, g);
    GroupsStay(s, s', r, i);
  }

  /** Groups are never removed on the way. */
  lemma GroupsStay(s: State, s': State, gone: set<Node>, i: nat)
    requires None in s.kids && i < |s.kids[None]| && Purged(s, s', gone)
    ensures var g := s.kids[None][i]; Live(s'.links, g) && s'.links.next[g] == First(s.kids[None][i + 1..])
  {
    hide Valid;
    forall k | 0 <= k < |s.kids[None]| ensures s.kids[None][k] !in gone {
      TopIsGroup(s, s.kids[None][k]);
    }
    StillThere(s, s', gone, None, i);
  }

  // ------------------------------------------------------------- who is gone

  /**
   Between `s` and `s'` exactly the buddies and chats of the tree on account `a` have gone, and the contacts that had
   buddies and none on another account; everything else is where it was.
  */
  ghost predicate AccountGone(s: State, s': State, a: Account) {
    && (forall n :: n in s.info && (s.info[n].Buddy? || s.info[n].Chat?) && n in s.links.parent ==>
          (n in s'.info <==> s.links.parent[n] == None || s.info[n].account != a))
    && (forall c :: c in s.info && s.info[c].Contact? ==>
          (c in s'.info <==> At(s.kids, Some(c)) == [] || !OnlyOn(s, a, At(s.kids, Some(c)))))
    && (forall g :: g in s.info && s.info[g].Group? ==> g in s'.info)
    && (forall n :: n in s'.info ==> n in s.info && s'.info[n] == s.info[n])
    && (forall n :: n in s'.info ==>
          n in s.links.parent && n in s'.links.parent && s'.links.parent[n] == s.links.parent[n])
    && (forall q :: q == None || q.value in s'.info ==> InOrder(At(s'.kids, q), At(s.kids, q)))
  }

  /** All of `l` are on account `a`. */
  predicate OnlyOn(s: State, a: Account, l: seq<Node>) {
    forall b :: b in l ==> b in s.info && s.info[b].Buddy? && s.info[b].account == a
  }

  lemma {:induction false} FilterInOrder(l: seq<Node>, gone: set<Node>)
    ensures InOrder(FilterOut(l, gone), l)
  {
    hide InOrder;
    if l == [] {
      NoOrder();
    } else {
      FilterInOrder(l[1..], gone);
      InFilterAll(l[1..], gone);
      InOrderFirst(FilterOut(l[1..], gone), l[1..], l[0], l[0] !in gone);
      assert [] + FilterOut(l[1..], gone) == FilterOut(l[1..], gone) && [l[0]] + l[1..] == l;
    }
  }

  lemma InFilterAll(l: seq<Node>, gone: set<Node>)
    ensures forall n :: n in FilterOut(l, gone) <==> n in l && n !in gone
  {
    forall n ensures n in FilterOut(l, gone) <==> n in l && n !in gone {
      InFilter(l, gone, n);
    }
  }

  lemma InOrderFirst(p: seq<Node>, l: seq<Node>, x: Node, more: bool)
    requires InOrder(p, l) && forall n :: n in p ==> n in l
    ensures InOrder(if more then [x] + p else p, [x] + l)
  {
    var t, r := if more then [x] + p else p, [x] + l;
    var d := if more then 1 else 0;
    forall i, j | 0 <= i < j < |t| ensures Comes(r, t[i], t[j]) {
      if i >= d {
        assert p[i - d] == t[i] && p[j - d] == t[j] && Comes(l, p[i - d], p[j - d]);
        var k, m :| 0 <= k < m < |l| && l[k] == p[i - d] && l[m] == p[j - d];
        assert r[k + 1] == t[i] && r[m + 1] == t[j];
      } else {
        assert p[j - d] == t[j] && t[j] in l;
        var m :| 0 <= m < |l| && l[m] == t[j];
        assert r[0] == t[i] && r[m + 1] == t[j];
      }
    }
  }

  /** A child of a group goes if it is on the account, or is a contact with buddies that all are. */
  lemma GroupChildGoes(s: State, a: Account, n: Node)
    requires Valid(s) && None in s.kids && n in s.info && (s.info[n].Contact? || s.info[n].Chat?)
    ensures n in s.links.parent
    ensures n in GroupVictims(s, a, s.kids[None]) <==>
              s.links.parent[n].Some? && (if s.info[n].Chat? then s.info[n].account == a
                                          else At(s.kids, Some(n)) != [] && OnlyOn(s, a, At(s.kids, Some(n))))
  {
    hide Valid, Victims;
    ChildStands(s, n);
    InGroupVictims(s, a, s.kids[None], n);
    forall g ensures n in ChildVictims(s, a, At(s.kids, Some(g))) <==>
                       exists c :: c in At(s.kids, Some(g)) && n in Victims(s, a, c) {
      InChildVictims(s, a, At(s.kids, Some(g)), n);
    }
    ChildVictim(s, a, n);
    if s.links.parent[n].Some? && n in Victims(s, a, n) {
      var g := s.links.parent[n].value;
      assert g in s.kids[None] && n in At(s.kids, Some(g));
    }
    if n in GroupVictims(s, a, s.kids[None]) {
      var g :| g in s.kids[None] && n in ChildVictims(s, a, At(s.kids, Some(g)));
      var c :| c in At(s.kids, Some(g)) && n in Victims(s, a, c);
      ListedChild(s, a, n, c, g);
    }
  }

  /** What makes a child of a group a victim. */
  lemma ChildVictim(s: State, a: Account, n: Node)
    requires Valid(s) && n in s.info && (s.info[n].Contact? || s.info[n].Chat?)
    ensures n in Victims(s, a, n) <==> if s.info[n].Chat? then s.info[n].account == a
                                       else At(s.kids, Some(n)) != [] && OnlyOn(s, a, At(s.kids, Some(n)))
  {
    hide Valid;
    ChildStands(s, n);
    if s.info[n].Contact? {
      ContactKids(s, n);
    }
  }

  lemma ListedChild(s: State, a: Account, n: Node, c: Node, g: Node)
    requires Valid(s) && None in s.kids && n in s.info && (s.info[n].Contact? || s.info[n].Chat?)
    requires g in s.kids[None] && c in At(s.kids, Some(g)) && n in Victims(s, a, c)
    ensures c == n && n in s.links.parent && s.links.parent[n] == Some(g)
  {
    hide Valid;
    TopIsGroup(s, g);
    GroupKids(s, g);
    if s.info[c].Contact? {
      ContactKids(s, c);
    }
  }

  /** A buddy goes if it is in the tree and on the account. */
  lemma BuddyGoes(s: State, a: Account, b: Node)
    requires Valid(s) && None in s.kids && b in s.info && s.info[b].Buddy?
    ensures b in s.links.parent
    ensures b in GroupVictims(s, a, s.kids[None]) <==> s.links.parent[b].Some? && s.info[b].account == a
  {
    hide Valid, GroupVictims, ChildVictims, Victims;
    ParentHas(s, b);
    InGroupVictims(s, a, s.kids[None], b);
    forall g ensures b in ChildVictims(s, a, At(s.kids, Some(g))) <==>
                       exists c :: c in At(s.kids, Some(g)) && b in Victims(s, a, c) {
      InChildVictims(s, a, At(s.kids, Some(g)), b);
    }
    if s.links.parent[b].Some? {
      BuddyStands(s, NOTHING, b) by { ValidIs(s); }
      var c := s.links.parent[b].value;
      var g := s.links.parent[c].value;
      ChildStands(s, c);
      assert g in s.kids[None] && c in At(s.kids, Some(g));
      BuddyVictim(s, a, b, c);
    }
    if b in GroupVictims(s, a, s.kids[None]) {
      var g :| g in s.kids[None] && b in ChildVictims(s, a, At(s.kids, Some(g)));
      var c :| c in At(s.kids, Some(g)) && b in Victims(s, a, c);
      ListedBuddy(s, a, b, c, g);
    }
  }

  lemma BuddyVictim(s: State, a: Account, b: Node, c: Node)
    requires b in At(s.kids, Some(c)) && b in s.info && s.info[b].Buddy?
    ensures s.info[b].account == a ==> b in Victims(s, a, c)
  {
  }

  lemma ListedBuddy(s: State, a: Account, b: Node, c: Node, g: Node)
    requires Valid(s) && None in s.kids && b in s.info && s.info[b].Buddy?
    requires g in s.kids[None] && c in At(s.kids, Some(g)) && b in Victims(s, a, c)
    ensures b in s.links.parent && s.links.parent[b].Some? && s.info[b].account == a
  {
    hide Valid;
    TopIsGroup(s, g);
    GroupKids(s, g);
    VictimOf(s, a, c, b);
  }

  /** What deleting an account comes to. */
  lemma PurgedIs(s: State, s': State, a: Account)
    requires None in s.kids && Purged(s, s', GroupVictims(s, a, s.kids[None]))
    ensures AccountGone(s, s', a)
  {
    hide Valid, GroupVictims, InOrder, FilterOut, OnlyOn;
    var gone := GroupVictims(s, a, s.kids[None]);
    forall n | n in s.info && (s.info[n].Buddy? || s.info[n].Chat?) && n in s.links.parent
      ensures n in gone <==> s.links.parent[n].Some? && s.info[n].account == a
    {
      if s.info[n].Buddy? {
        BuddyGoes(s, a, n);
      } else {
        GroupChildGoes(s, a, n);
      }
    }
    forall c | c in s.info && s.info[c].Contact?
      ensures c in gone <==> At(s.kids, Some(c)) != [] && OnlyOn(s, a, At(s.kids, Some(c)))
    {
      GroupChildGoes(s, a, c);
      ChildStands(s, c);
    }
    forall n | n in s'.info
      ensures n in s.links.parent && n in s'.links.parent && s'.links.parent[n] == s.links.parent[n]
    {
      ParentHas(s, n);
      if s.links.parent[n].Some? {
        ParentKind(s, n);
        if s.info[s.links.parent[n].value].Contact? {
          StaysWithBuddy(s, a, s.links.parent[n].value, n);
        }
      }
      SameParent(s, s', gone, n);
    }
    forall q | q == None || q.value in s'.info ensures InOrder(At(s'.kids, q), At(s.kids, q)) {
      ListInOrder(s, s', gone, q);
    }
  }

  /** A contact stays if one of its buddies does. */
  lemma StaysWithBuddy(s: State, a: Account, c: Node, n: Node)
    requires Valid(s) && None in s.kids && c in s.info && s.info[c].Contact? && n in At(s.kids, Some(c)) && n in s.info
    requires n !in GroupVictims(s, a, s.kids[None])
    ensures c !in GroupVictims(s, a, s.kids[None])
  {
    hide Valid, GroupVictims;
    GroupChildGoes(s, a, c);
    if c in GroupVictims(s, a, s.kids[None]) {
      BuddyGoes(s, a, n);
      HeldBy(s, c, n);
    }
  }

  lemma ListInOrder(s: State, s': State, gone: set<Node>, q: Ptr)
    requires Purged(s, s', gone) && (q == None || q.value in s'.info)
    ensures InOrder(At(s'.kids, q), At(s.kids, q))
  {
    hide Valid, InOrder, FilterOut;
    NoOrder();
    FilterInOrder(At(s.kids, q), gone);
  }

  /** Who has a parent is among its children. */
  lemma ParentHas(s: State, n: Node)
    requires Valid(s) && n in s.info
    ensures n in s.links.parent
    ensures s.links.parent[n].Some? ==> s.links.parent[n] in s.kids && n in s.kids[s.links.parent[n]]
                                        && s.links.parent[n].value in s.info
  {
    hide Sized, Indexed, Filed, Named, Prioritized, Typed, TotalPreorder, Linked;
    Soundly(s, NOTHING);
    StandsAt(s.links, s.kids, s.info, {}, n);
    if s.links.parent[n].Some? {
      ChildOf(s.links, s.kids, s.info, {}, s.links.parent[n], n);
    }
  }

  /** Who stays is where it was, if its parent stays. */
  lemma SameParent(s: State, s': State, gone: set<Node>, n: Node)
    requires Purged(s, s', gone) && n in s'.info
    requires n in s.links.parent && s.links.parent[n].Some? ==> s.links.parent[n].value !in gone
    ensures n in s.links.parent && n in s'.links.parent && s'.links.parent[n] == s.links.parent[n]
  {
    hide Valid, FilterOut;
    assert n in s.info && n !in gone;
    ParentHas(s, n);
    ParentHas(s', n);
    var q, q' := s.links.parent[n], s'.links.parent[n];
    if q.Some? {
      InFilter(s.kids[q], gone, n);
      HeldBy(s', q.value, n);
    } else if q'.Some? {
      InFilter(s.kids[q'], gone, n);
      HeldBy(s, q'.value, n);
    }
  }
}
