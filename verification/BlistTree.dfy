/** How the tree as the parent fields tell it follows the steps of the list's operations. */
module BlistTree {
  import opened BlistSeq
  import opened Options
  import opened BlistLinks
  import opened BlistModel

  lemma ChildOf(l: Links, kids: Lists, info: map<Node, Info>, adrift: set<Node>, q: Ptr, n: Node)
    requires Placed(l, kids, info, adrift) && q in kids && n in kids[q]
    ensures Child(l, info, adrift, q, n)
  {
    assert Siblings(l, info, adrift, q, kids[q]);
  }

  lemma StandsAt(l: Links, kids: Lists, info: map<Node, Info>, adrift: set<Node>, n: Node)
    requires Placed(l, kids, info, adrift) && n in info
    ensures Standing(l, kids, info, adrift, n)
  {
    assert Standing(l, kids, info, adrift, n);
  }

  lemma KidsDistinct(l: Links, kids: Lists, info: map<Node, Info>, adrift: set<Node>, q: Ptr)
    requires Placed(l, kids, info, adrift) && q in kids
    ensures NoDup(kids[q])
  {
    assert Siblings(l, info, adrift, q, kids[q]);
  }

  /** A node is under one parent only. */
  lemma OneParent(l: Links, kids: Lists, info: map<Node, Info>, adrift: set<Node>, q: Ptr, r: Ptr, n: Node)
    requires Placed(l, kids, info, adrift) && q in kids && r in kids && n in kids[q] && n in kids[r]
    ensures q == r
  {
    ChildOf(l, kids, info, adrift, q, n);
    ChildOf(l, kids, info, adrift, r, n);
  }

  /** Links that differ only in prev and next of nodes that are not loose. */
  ghost predicate SameParents(l: Links, l': Links, kids: Lists) {
    && l'.parent == l.parent && l'.child.Keys == l.child.Keys
    && l'.prev.Keys == l.prev.Keys && l'.next.Keys == l.next.Keys
    && forall n :: Loose(l, n) && (None !in kids || n !in kids[None]) ==> Loose(l', n)
  }

  /** `n` leaves the children of `q` and is adrift. */
  lemma Departs(l: Links, kids: Lists, info: map<Node, Info>, adrift: set<Node>, q: Ptr, n: Node, l': Links)
    requires Placed(l, kids, info, adrift) && q in kids && n in kids[q]
    requires SameParents(l, l', kids)
    ensures Placed(l', kids[q := Without(kids[q], n)], info, adrift + {n})
  {
    var kids' := kids[q := Without(kids[q], n)];
    KidsDistinct(l, kids, info, adrift, q);
    WithoutKeeps(kids[q], n);
    forall r | r in kids' ensures Siblings(l', info, adrift + {n}, r, kids'[r]) {
      assert Siblings(l, info, adrift, r, kids[r]);
      forall m | m in kids'[r] ensures Child(l', info, adrift + {n}, r, m) {
        ChildOf(l, kids, info, adrift, r, m);
        if m == n {
          OneParent(l, kids, info, adrift, q, r, n);
        }
      }
    }
    forall m | m in info ensures Standing(l', kids', info, adrift + {n}, m) {
      StandsAt(l, kids, info, adrift, m);
    }
  }

  /** `q` may have children: it is the top, or stands in the tree. */
  ghost predicate InTree(l: Links, kids: Lists, q: Ptr) {
    q in kids && (q.Some? ==> q.value in l.parent && l.parent[q.value] in kids && q.value in kids[l.parent[q.value]])
  }

  /** The adrift node `n` goes under `q`, behind `a` or in front. */
  lemma Arrives(l: Links, kids: Lists, info: map<Node, Info>, adrift: set<Node>, q: Ptr, n: Node, a: Ptr, l': Links)
    requires Placed(l, kids, info, adrift) && n in adrift && n in info && (a.Some? ==> q in kids && a.value in kids[q])
    requires Fits(info, q, n) && InTree(l, kids, q) && q != Some(n)
    requires Some(n) in kids && kids[Some(n)] != [] ==> info[n].Contact? || info[n].Group?
    requires l'.parent == l.parent[n := q]
    requires l'.child.Keys == l.child.Keys && l'.prev.Keys == l.prev.Keys && l'.next.Keys == l.next.Keys
    requires forall m :: Loose(l, m) && m != n && m !in kids[None] ==> Loose(l', m)
    ensures Placed(l', kids[q := InsertAfter(kids[q], a, n)], info, adrift - {n})
  {
    var kids' := kids[q := InsertAfter(kids[q], a, n)];
    NotListed(l, kids, info, adrift, n, q);
    KidsDistinct(l, kids, info, adrift, q);
    InsertKeeps(kids[q], a, n);
    forall r | r in kids' ensures Siblings(l', info, adrift - {n}, r, kids'[r]) {
      assert Siblings(l, info, adrift, r, kids[r]);
      forall m | m in kids'[r] ensures Child(l', info, adrift - {n}, r, m) {
        if m != n {
          ChildOf(l, kids, info, adrift, r, m);
        } else if r != q {
          NotListed(l, kids, info, adrift, n, r);
        }
      }
    }
    forall m | m in info ensures Standing(l', kids', info, adrift - {n}, m) {
      StandsAt(l, kids, info, adrift, m);
    }
  }

  lemma NotListed(l: Links, kids: Lists, info: map<Node, Info>, adrift: set<Node>, n: Node, q: Ptr)
    requires Placed(l, kids, info, adrift) && n in adrift && q in kids
    ensures n !in kids[q]
  {
    if n in kids[q] {
      ChildOf(l, kids, info, adrift, q, n);
    }
  }

  /** A loose node may as well be called adrift. */
  lemma CastOff(l: Links, kids: Lists, info: map<Node, Info>, adrift: set<Node>, n: Node)
    requires Placed(l, kids, info, adrift) && n in info && Loose(l, n) && n !in kids[None]
    ensures Placed(l, kids, info, adrift + {n}) && Unlisted(kids, n)
    ensures Some(n) in kids && (n !in adrift ==> kids[Some(n)] == [])
  {
    StandsAt(l, kids, info, adrift, n);
    forall r | r in kids ensures Siblings(l, info, adrift + {n}, r, kids[r]) && n !in kids[r] {
      assert Siblings(l, info, adrift, r, kids[r]);
      if n in kids[r] {
        ChildOf(l, kids, info, adrift, r, n);
      }
    }
    forall m | m in info ensures Standing(l, kids, info, adrift + {n}, m) {
      StandsAt(l, kids, info, adrift, m);
    }
  }

  /** Freeing an adrift childless node. */
  lemma Vanishes(l: Links, kids: Lists, info: map<Node, Info>, adrift: set<Node>, n: Node)
    requires Placed(l, kids, info, adrift) && n in adrift && n in info && Some(n) in kids && kids[Some(n)] == []
    ensures Placed(Freed(l, n), kids - {Some(n)}, info - {n}, adrift - {n})
  {
    var l', kids', info' := Freed(l, n), kids - {Some(n)}, info - {n};
    forall r | r in kids' ensures Siblings(l', info', adrift - {n}, r, kids'[r]) {
      assert Siblings(l, info, adrift, r, kids[r]);
      forall m | m in kids'[r] ensures Child(l', info', adrift - {n}, r, m) {
        ChildOf(l, kids, info, adrift, r, m);
      }
    }
    forall m | m in info' ensures Standing(l', kids', info', adrift - {n}, m) {
      StandsAt(l, kids, info, adrift, m);
    }
  }

  /** A new node is loose. */
  lemma Appears(l: Links, kids: Lists, info: map<Node, Info>, n: Node, x: Info)
    requires Placed(l, kids, info, {}) && n !in info
    ensures Placed(Allocated(l, n), kids[Some(n) := []], info[n := x], {})
    ensures Some(n) !in kids && Loose(Allocated(l, n), n) && n !in kids[None]
  {
    var l', kids', info' := Allocated(l, n), kids[Some(n) := []], info[n := x];
    assert Some(n) in kids ==> Siblings(l, info, {}, Some(n), kids[Some(n)]);
    if n in kids[None] {
      ChildOf(l, kids, info, {}, None, n);
    }
    forall r | r in kids' ensures Siblings(l', info', {}, r, kids'[r]) {
      if r != Some(n) {
        assert Siblings(l, info, {}, r, kids[r]);
        forall m | m in kids'[r] ensures Child(l', info', {}, r, m) {
          ChildOf(l, kids, info, {}, r, m);
        }
      }
    }
    forall m | m in info' ensures Standing(l', kids', info', {}, m) {
      if m != n {
        StandsAt(l, kids, info, {}, m);
      }
    }
  }

  /** Unlinking by pointers moves no parent and makes no loose node known. */
  lemma UnlinkSameParents(l: Links, linked: Lists, kids: Lists, q: Ptr, n: Node)
    requires Linked(l, linked) && q in linked && n in linked[q]
    requires None in kids && None in linked && forall m :: m in linked[None] ==> m in kids[None]
    ensures Live(l, n) && l.parent[n] == q && HasHead(l, q)
    ensures SameParents(l, Unlinked(l, n), kids)
  {
    UnlinkDomains(l, linked, q, n);
    Neighbours(l, linked, q, n);
    var l' := Unlinked(l, n);
    forall m | Loose(l, m) && m !in kids[None] ensures Loose(l', m) {
      UnlinkedFields(l, n, m, q);
      NeighbourListed(l, linked, q, n);
    }
  }

  lemma NeighbourListed(l: Links, linked: Lists, q: Ptr, n: Node)
    requires Linked(l, linked) && q in linked && n in linked[q]
    ensures Live(l, n)
    ensures l.prev[n].Some? ==> l.prev[n].value in linked[q]
    ensures l.next[n].Some? ==> l.next[n].value in linked[q]
  {
    var s := linked[q];
    var i :| 0 <= i < |s| && s[i] == n;
    ChainAt(l, q, s, i);
  }

  /** Linking by pointers changes one parent field only and makes no loose node known. */
  lemma LinkSameParents(l: Links, linked: Lists, kids: Lists, q: Ptr, n: Node, a: Ptr)
    requires Linked(l, linked) && q in linked && Live(l, n) && Unlisted(linked, n) && (a.Some? ==> a.value in linked[q])
    requires None in kids && None in linked && forall m :: m in linked[None] ==> m in kids[None]
    ensures HasHead(l, q) && (a.Some? ==> Live(l, a.value) && l.parent[a.value] == q)
    ensures var l' := Relinked(l, n, q, a);
            && l'.parent == l.parent[n := q]
            && l'.child.Keys == l.child.Keys && l'.prev.Keys == l.prev.Keys && l'.next.Keys == l.next.Keys
            && forall m :: Loose(l, m) && m != n && m !in kids[None] ==> Loose(l', m)
  {
    ChainDup(l, q, linked[q]);
    var i := Position(linked[q], a);
    if i >= 0 {
      ChainAt(l, q, linked[q], i);
    }
    if i + 1 < |linked[q]| {
      ChainAt(l, q, linked[q], i + 1);
    }
    hide Chain;
    RelinkedOwn(l, n, q, a);
    var l' := Relinked(l, n, q, a);
    forall m | Loose(l, m) && m != n && m !in kids[None] ensures Loose(l', m) {
      RelinkedFields(l, n, q, a, m, q);
    }
  }
}
