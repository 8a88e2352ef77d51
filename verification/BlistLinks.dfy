/**
 The pointer layer of libpurple/blist.c: root and the prev, next, parent and child fields of
 all live nodes, against the sibling lists they are meant to spell. Parent None is the top
 level, whose first sibling is `root`.
*/
module BlistLinks {
  import opened BlistSeq
  import opened Options

  datatype Links = Links(root: Ptr, prev: map<Node, Ptr>, next: map<Node, Ptr>,
                         parent: map<Node, Ptr>, child: map<Node, Ptr>)

  /** Sibling lists by parent. */
  type Lists = map<Ptr, seq<Node>>

  predicate Live(l: Links, n: Node) {
    n in l.prev && n in l.next && n in l.parent && n in l.child
  }

  predicate HasHead(l: Links, q: Ptr) {
    q.Some? ==> q.value in l.child
  }

  function Head(l: Links, q: Ptr): Ptr
    requires HasHead(l, q)
  {
    if q.Some? then l.child[q.value] else l.root
  }

  function WithHead(l: Links, q: Ptr, h: Ptr): Links {
    if q.Some? then l.(child := l.child[q.value := h]) else l.(root := h)
  }

  /** The siblings under `q` are exactly `s`: first child, mutual prev and next, parent, no repetition. */
  ghost predicate Chain(l: Links, q: Ptr, s: seq<Node>) {
    && HasHead(l, q) && Head(l, q) == First(s)
    && NoDup(s)
    && (forall i {:trigger s[i]} :: 0 <= i < |s| ==> Live(l, s[i]) && l.parent[s[i]] == q)
    && (forall i {:trigger l.prev[s[i]]} :: 0 <= i < |s| ==> s[i] in l.prev && l.prev[s[i]] == Before(s, i))
    && (forall i {:trigger l.next[s[i]]} :: 0 <= i < |s| ==> s[i] in l.next && l.next[s[i]] == After(s, i))
  }

  ghost predicate Linked(l: Links, lists: Lists) {
    && l.prev.Keys == l.next.Keys == l.parent.Keys == l.child.Keys
    && (forall q :: q in lists <==> HasHead(l, q))
    && (forall q :: q in lists ==> Chain(l, q, lists[q]))
  }

  /** In no sibling list. */
  ghost predicate Unlisted(lists: Lists, n: Node) {
    forall q :: q in lists ==> n !in lists[q]
  }

  // -------------------------------------------------------------- surgeries

  /** Takes `n` out from between its siblings; its own fields keep what they had. */
  function Unlinked(l: Links, n: Node): Links
    requires Live(l, n) && HasHead(l, l.parent[n])
  {
    var l1 := if Head(l, l.parent[n]) == Some(n) then WithHead(l, l.parent[n], l.next[n]) else l;
    var l2 := if l.prev[n].Some? then l1.(next := l1.next[l.prev[n].value := l.next[n]]) else l1;
    if l.next[n].Some? then l2.(prev := l2.prev[l.next[n].value := l.prev[n]]) else l2
  }

  /** Puts `n` right behind its new sibling `a`. */
  function LinkedBehind(l: Links, n: Node, a: Node): Links
    requires a in l.next && a in l.parent
  {
    var b := l.next[a];
    var l1 := if b.Some? then l.(prev := l.prev[b.value := Some(n)]) else l;
    l1.(next := l1.next[n := b][a := Some(n)], prev := l1.prev[n := Some(a)], parent := l1.parent[n := l.parent[a]])
  }

  /** Puts `n` in front of the children of `q`. */
  function LinkedFirst(l: Links, n: Node, q: Ptr): Links
    requires HasHead(l, q)
  {
    var h := Head(l, q);
    var l1 := if h.Some? then l.(prev := l.prev[h.value := Some(n)]) else l;
    WithHead(l1.(prev := l1.prev[n := None], next := l1.next[n := h], parent := l1.parent[n := q]), q, Some(n))
  }

  function Relinked(l: Links, n: Node, q: Ptr, a: Ptr): Links
    requires HasHead(l, q) && (a.Some? ==> a.value in l.next && a.value in l.parent)
  {
    if a.Some? then LinkedBehind(l, n, a.value) else LinkedFirst(l, n, q)
  }

  /** Forgets a freed node. */
  function Freed(l: Links, n: Node): Links {
    l.(prev := Less(l.prev, n), next := Less(l.next, n), parent := Less(l.parent, n), child := Less(l.child, n))
  }

  // ------------------------------------------------------------------ proofs

  lemma OnlyParent(l: Links, lists: Lists, q: Ptr, n: Node)
    requires Linked(l, lists) && q in lists && n in lists[q]
    ensures Live(l, n) && l.parent[n] == q
  {
    var i :| 0 <= i < |lists[q]| && lists[q][i] == n;
  }

  lemma ChainAt(l: Links, q: Ptr, s: seq<Node>, i: nat)
    requires Chain(l, q, s) && i < |s|
    ensures Live(l, s[i]) && l.parent[s[i]] == q
    ensures l.prev[s[i]] == Before(s, i) && l.next[s[i]] == After(s, i)
    ensures HasHead(l, q) && Head(l, q) == First(s)
  {
  }

  /** What unlinking `n` does to the fields of any node and to the head of any sibling list. */
  lemma UnlinkedFields(l: Links, n: Node, m: Node, r: Ptr)
    requires Live(l, n) && HasHead(l, l.parent[n]) && HasHead(l, r) && Live(l, m)
    ensures var l' := Unlinked(l, n);
            && l'.parent == l.parent && Live(l', m) && HasHead(l', r)
            && l'.next[m] == (if l.prev[n] == Some(m) then l.next[n] else l.next[m])
            && l'.prev[m] == (if l.next[n] == Some(m) then l.prev[n] else l.prev[m])
            && Head(l', r) == (if r == l.parent[n] && Head(l, r) == Some(n) then l.next[n] else Head(l, r))
  {
  }

  /** The fields of the k-th sibling that stays, when the i-th is taken out. */
  lemma UnlinkAt(l: Links, q: Ptr, s: seq<Node>, i: nat, k: nat)
    requires Chain(l, q, s) && i < |s| && k + 1 < |s|
    ensures Live(l, s[i]) && l.parent[s[i]] == q && HasHead(l, q)
    ensures var t, l' := s[..i] + s[i + 1..], Unlinked(l, s[i]);
            Live(l', t[k]) && l'.parent[t[k]] == q && l'.prev[t[k]] == Before(t, k) && l'.next[t[k]] == After(t, k)
  {
    hide Chain, Unlinked;
    var j := if k < i then k else k + 1;
    ChainAt(l, q, s, i);
    ChainAt(l, q, s, j);
    UnlinkedFields(l, s[i], s[j], q);
    ChainDistinct(l, q, s, i - 1, j);
    ChainDistinct(l, q, s, i + 1, j);
    CutAt(s, i, k);
  }

  lemma ChainDistinct(l: Links, q: Ptr, s: seq<Node>, i: int, j: nat)
    requires Chain(l, q, s) && j < |s|
    ensures 0 <= i < |s| && i != j ==> s[i] != s[j]
  {
  }

  lemma CutAt(s: seq<Node>, i: nat, k: nat)
    requires i < |s| && k + 1 < |s|
    ensures var t, j := s[..i] + s[i + 1..], if k < i then k else k + 1;
            && t[k] == s[j]
            && Before(t, k) == (if j == i + 1 then Before(s, i) else Before(s, j))
            && After(t, k) == (if j == i - 1 then After(s, i) else After(s, j))
  {
  }

  lemma UnlinkChain(l: Links, q: Ptr, s: seq<Node>, i: nat)
    requires Chain(l, q, s) && i < |s|
    ensures Live(l, s[i]) && l.parent[s[i]] == q && HasHead(l, q)
    ensures Chain(Unlinked(l, s[i]), q, Without(s, s[i]))
  {
    hide Unlinked, Without;
    ChainAt(l, q, s, i);
    var n := s[i];
    var t := Without(s, n);
    WithoutAt(s, i);
    WithoutKeeps(s, n);
    var l' := Unlinked(l, n);
    UnlinkedFields(l, n, n, q);
    assert Head(l', q) == First(t) by {
      ChainDistinct(l, q, s, i, 0);
    }
    forall k | 0 <= k < |t| ensures Live(l', t[k]) && l'.parent[t[k]] == q {
      UnlinkAt(l, q, s, i, k);
    }
    forall k | 0 <= k < |t| ensures t[k] in l'.prev && l'.prev[t[k]] == Before(t, k) {
      UnlinkAt(l, q, s, i, k);
    }
    forall k | 0 <= k < |t| ensures t[k] in l'.next && l'.next[t[k]] == After(t, k) {
      UnlinkAt(l, q, s, i, k);
    }
  }

  /** A listed node's neighbours are its siblings. */
  lemma Neighbours(l: Links, lists: Lists, q: Ptr, n: Node)
    requires Linked(l, lists) && q in lists && n in lists[q]
    ensures Live(l, n) && l.parent[n] == q
    ensures l.prev[n].Some? ==> Live(l, l.prev[n].value) && l.parent[l.prev[n].value] == q
    ensures l.next[n].Some? ==> Live(l, l.next[n].value) && l.parent[l.next[n].value] == q
  {
    var s := lists[q];
    var i :| 0 <= i < |s| && s[i] == n;
    ChainAt(l, q, s, i);
    if i > 0 {
      ChainAt(l, q, s, i - 1);
    }
    if i + 1 < |s| {
      ChainAt(l, q, s, i + 1);
    }
  }

  lemma UnlinkOther(l: Links, lists: Lists, q: Ptr, n: Node, r: Ptr)
    requires Linked(l, lists) && q in lists && n in lists[q] && r in lists && r != q
    ensures Live(l, n) && l.parent[n] == q && Chain(Unlinked(l, n), r, lists[r])
  {
    Neighbours(l, lists, q, n);
    var l' := Unlinked(l, n);
    var t := lists[r];
    UnlinkedFields(l, n, n, r);
    forall k | 0 <= k < |t| ensures Live(l', t[k]) && l'.parent[t[k]] == r {
      ChainAt(l, r, t, k);
      UnlinkedFields(l, n, t[k], r);
    }
    forall k | 0 <= k < |t| ensures t[k] in l'.prev && l'.prev[t[k]] == Before(t, k) {
      ChainAt(l, r, t, k);
      UnlinkedFields(l, n, t[k], r);
    }
    forall k | 0 <= k < |t| ensures t[k] in l'.next && l'.next[t[k]] == After(t, k) {
      ChainAt(l, r, t, k);
      UnlinkedFields(l, n, t[k], r);
    }
  }

  /** Unlinking removes the node from its sibling list and from no other. */
  lemma UnlinkKeeps(l: Links, lists: Lists, q: Ptr, n: Node)
    requires Linked(l, lists) && q in lists && n in lists[q]
    ensures Live(l, n) && l.parent[n] == q
    ensures Linked(Unlinked(l, n), lists[q := Without(lists[q], n)])
    ensures Unlisted(lists[q := Without(lists[q], n)], n)
  {
    hide Unlinked, Without, Chain, Head;
    OnlyParent(l, lists, q, n);
    var i :| 0 <= i < |lists[q]| && lists[q][i] == n;
    var l', lists' := Unlinked(l, n), lists[q := Without(lists[q], n)];
    UnlinkChain(l, q, lists[q], i);
    UnlinkDomains(l, lists, q, n);
    forall r | r in lists' ensures Chain(l', r, lists'[r]) && n !in lists'[r] {
      if r != q {
        UnlinkOther(l, lists, q, n, r);
        if n in lists[r] {
          OnlyParent(l, lists, r, n);
        }
      } else {
        assert NoDup(lists[q]) by { ChainDup(l, q, lists[q]); }
        WithoutKeeps(lists[q], n);
      }
    }
    UnlinkedHeads(l, n);
  }

  lemma ChainDup(l: Links, q: Ptr, s: seq<Node>)
    requires Chain(l, q, s)
    ensures NoDup(s) && HasHead(l, q) && Head(l, q) == First(s)
  {
  }

  lemma UnlinkedHeads(l: Links, n: Node)
    requires Live(l, n) && HasHead(l, l.parent[n])
    ensures forall r :: HasHead(Unlinked(l, n), r) <==> HasHead(l, r)
  {
  }

  lemma UnlinkDomains(l: Links, lists: Lists, q: Ptr, n: Node)
    requires Linked(l, lists) && q in lists && n in lists[q]
    ensures Live(l, n) && l.parent[n] == q
    ensures var l' := Unlinked(l, n);
            && l'.prev.Keys == l.prev.Keys && l'.next.Keys == l.next.Keys
            && l'.parent == l.parent && l'.child.Keys == l.child.Keys
  {
    Neighbours(l, lists, q, n);
    hide Chain;
  }

  // ---------------------------------------------------------------- linking

  lemma RelinkedFields(l: Links, n: Node, q: Ptr, a: Ptr, m: Node, r: Ptr)
    requires HasHead(l, q) && HasHead(l, r) && Live(l, m) && m != n && Live(l, n)
    requires a.Some? ==> a.value != n && Live(l, a.value) && l.parent[a.value] == q
    requires var b := if a.Some? then l.next[a.value] else Head(l, q); b.Some? ==> b.value != n && Live(l, b.value)
    ensures var l', b := Relinked(l, n, q, a), if a.Some? then l.next[a.value] else Head(l, q);
            && Live(l', n) && l'.prev[n] == a && l'.next[n] == b && l'.parent[n] == q
            && Live(l', m) && l'.parent[m] == l.parent[m]
            && l'.prev[m] == (if b == Some(m) then Some(n) else l.prev[m])
            && l'.next[m] == (if a == Some(m) then Some(n) else l.next[m])
            && HasHead(l', r) && Head(l', r) == (if r == q && a == None then Some(n) else Head(l, r))
  {
  }

  /** `n`, in no list, goes behind the i-th sibling (in front for -1): the k-th sibling after that. */
  lemma RelinkAt(l: Links, q: Ptr, s: seq<Node>, n: Node, i: int, k: nat)
    requires Chain(l, q, s) && Live(l, n) && n !in s && -1 <= i < |s| && k <= |s|
    ensures HasHead(l, q)
    ensures Before(s, i + 1).Some? ==> Live(l, s[i])
    ensures var t, l' := s[..i + 1] + [n] + s[i + 1..], Relinked(l, n, q, Before(s, i + 1));
            Live(l', t[k]) && l'.parent[t[k]] == q && l'.prev[t[k]] == Before(t, k) && l'.next[t[k]] == After(t, k)
  {
    hide Chain, Relinked;
    var t := s[..i + 1] + [n] + s[i + 1..];
    ChainDup(l, q, s);
    if i >= 0 {
      ChainAt(l, q, s, i);
    }
    if i + 1 < |s| {
      ChainAt(l, q, s, i + 1);
    }
    var m := if k == i + 1 then n else t[k];
    if k == i + 1 {
      RelinkedOwn(l, n, q, Before(s, i + 1));
      assert t[k] == n;
    } else {
      var j := if k <= i then k else k - 1;
      assert t[k] == s[j];
      ChainAt(l, q, s, j);
      RelinkedFields(l, n, q, Before(s, i + 1), s[j], q);
      ChainDistinct(l, q, s, i, j);
      ChainDistinct(l, q, s, i + 1, j);
    }
  }

  lemma RelinkedOwn(l: Links, n: Node, q: Ptr, a: Ptr)
    requires HasHead(l, q) && Live(l, n)
    requires a.Some? ==> a.value != n && Live(l, a.value) && l.parent[a.value] == q
    requires var b := if a.Some? then l.next[a.value] else Head(l, q); b.Some? ==> b.value != n && Live(l, b.value)
    ensures var l', b := Relinked(l, n, q, a), if a.Some? then l.next[a.value] else Head(l, q);
            && Live(l', n) && l'.prev[n] == a && l'.next[n] == b && l'.parent[n] == q
            && HasHead(l', q) && Head(l', q) == (if a == None then Some(n) else Head(l, q))
            && (forall r :: HasHead(l', r) <==> HasHead(l, r))
            && l'.prev.Keys == l.prev.Keys && l'.next.Keys == l.next.Keys
            && l'.parent.Keys == l.parent.Keys && l'.child.Keys == l.child.Keys
  {
  }

  /** Where `a` stands in `s`; -1 stands for the front. */
  lemma Position(s: seq<Node>, a: Ptr) returns (i: int)
    requires a.Some? ==> a.value in s
    ensures -1 <= i < |s| && Before(s, i + 1) == a
  {
    if a.Some? {
      i :| 0 <= i < |s| && s[i] == a.value;
    } else {
      i := -1;
    }
  }

  lemma RelinkChain(l: Links, q: Ptr, s: seq<Node>, n: Node, a: Ptr)
    requires Chain(l, q, s) && Live(l, n) && n !in s && (a.Some? ==> a.value in s)
    ensures HasHead(l, q) && (a.Some? ==> Live(l, a.value) && l.parent[a.value] == q)
    ensures Chain(Relinked(l, n, q, a), q, InsertAfter(s, a, n))
  {
    hide Chain, Relinked, InsertAfter;
    ChainDup(l, q, s);
    var i := Position(s, a);
    if i >= 0 {
      ChainAt(l, q, s, i);
    }
    if i + 1 < |s| {
      ChainAt(l, q, s, i + 1);
    }
    var t := InsertAfter(s, a, n);
    InsertAt(s, i, n);
    InsertKeeps(s, a, n);
    var l' := Relinked(l, n, q, a);
    RelinkedOwn(l, n, q, a);
    forall k | 0 <= k < |t|
      ensures Live(l', t[k]) && l'.parent[t[k]] == q && l'.prev[t[k]] == Before(t, k) && l'.next[t[k]] == After(t, k)
    {
      RelinkAt(l, q, s, n, i, k);
    }
    ChainBy(l', q, t);
  }

  lemma ChainBy(l: Links, q: Ptr, s: seq<Node>)
    requires HasHead(l, q) && Head(l, q) == First(s) && NoDup(s)
    requires forall i :: 0 <= i < |s| ==>
               Live(l, s[i]) && l.parent[s[i]] == q && l.prev[s[i]] == Before(s, i) && l.next[s[i]] == After(s, i)
    ensures Chain(l, q, s)
  {
    forall i | 0 <= i < |s| ensures s[i] in l.prev && l.prev[s[i]] == Before(s, i) {
    }
    forall i | 0 <= i < |s| ensures s[i] in l.next && l.next[s[i]] == After(s, i) {
    }
  }

  lemma RelinkOther(l: Links, lists: Lists, q: Ptr, n: Node, a: Ptr, r: Ptr)
    requires Linked(l, lists) && Live(l, n) && Unlisted(lists, n) && q in lists && (a.Some? ==> a.value in lists[q])
    requires r in lists && r != q
    ensures HasHead(l, q) && (a.Some? ==> Live(l, a.value) && l.parent[a.value] == q)
    ensures Chain(Relinked(l, n, q, a), r, lists[r])
  {
    hide Chain, Relinked;
    var s, t := lists[q], lists[r];
    ChainDup(l, q, s);
    ChainDup(l, r, t);
    var i := Position(s, a);
    if i >= 0 {
      ChainAt(l, q, s, i);
    }
    if i + 1 < |s| {
      ChainAt(l, q, s, i + 1);
    }
    var l' := Relinked(l, n, q, a);
    RelinkedOwn(l, n, q, a);
    forall k | 0 <= k < |t|
      ensures Live(l', t[k]) && l'.parent[t[k]] == r && l'.prev[t[k]] == Before(t, k) && l'.next[t[k]] == After(t, k)
    {
      ChainAt(l, r, t, k);
      RelinkedFields(l, n, q, a, t[k], r);
    }
    if t != [] {
      ChainAt(l, r, t, 0);
      RelinkedFields(l, n, q, a, t[0], r);
    } else if a.None? {
      RelinkedHead(l, n, q, a, r);
    } else {
      RelinkedHead(l, n, q, a, r);
    }
    ChainBy(l', r, t);
  }

  lemma RelinkedHead(l: Links, n: Node, q: Ptr, a: Ptr, r: Ptr)
    requires HasHead(l, q) && HasHead(l, r) && r != q
    requires a.Some? ==> Live(l, a.value)
    ensures HasHead(Relinked(l, n, q, a), r) && Head(Relinked(l, n, q, a), r) == Head(l, r)
  {
  }

  /** Linking an unlisted node puts it behind `a` under `q`, or in front, and changes no other sibling list. */
  lemma LinkKeeps(l: Links, lists: Lists, q: Ptr, n: Node, a: Ptr)
    requires Linked(l, lists) && Live(l, n) && Unlisted(lists, n) && q in lists && (a.Some? ==> a.value in lists[q])
    ensures HasHead(l, q) && (a.Some? ==> Live(l, a.value) && l.parent[a.value] == q)
    ensures Linked(Relinked(l, n, q, a), lists[q := InsertAfter(lists[q], a, n)])
  {
    hide Chain, Relinked, InsertAfter;
    RelinkChain(l, q, lists[q], n, a);
    var l', lists' := Relinked(l, n, q, a), lists[q := InsertAfter(lists[q], a, n)];
    forall r | r in lists' ensures Chain(l', r, lists'[r]) {
      if r != q {
        RelinkOther(l, lists, q, n, a, r);
      }
    }
    var i := Position(lists[q], a);
    ChainDup(l, q, lists[q]);
    if i >= 0 {
      ChainAt(l, q, lists[q], i);
    }
    if i + 1 < |lists[q]| {
      ChainAt(l, q, lists[q], i + 1);
    }
    RelinkedOwn(l, n, q, a);
  }

  /** Freeing an unlisted childless node changes no sibling list. */
  lemma FreeKeeps(l: Links, lists: Lists, n: Node)
    requires Linked(l, lists) && Live(l, n) && Unlisted(lists, n)
    ensures Linked(Freed(l, n), lists - {Some(n)})
  {
    var l', lists' := Freed(l, n), lists - {Some(n)};
    forall r | r in lists' ensures Chain(l', r, lists'[r]) {
      var t := lists[r];
      ChainDup(l, r, t);
      forall k | 0 <= k < |t|
        ensures Live(l', t[k]) && l'.parent[t[k]] == r && l'.prev[t[k]] == Before(t, k) && l'.next[t[k]] == After(t, k)
      {
        ChainAt(l, r, t, k);
      }
      ChainBy(l', r, t);
    }
  }

  function Allocated(l: Links, n: Node): Links {
    l.(prev := l.prev[n := None], next := l.next[n := None], parent := l.parent[n := None], child := l.child[n := None])
  }

  /** A new node has no relatives. */
  lemma AllocateKeeps(l: Links, lists: Lists, n: Node)
    requires Linked(l, lists) && n !in l.prev
    ensures Linked(Allocated(l, n), lists[Some(n) := []]) && Unlisted(lists[Some(n) := []], n)
  {
    var l', lists' := Allocated(l, n), lists[Some(n) := []];
    forall r | r in lists' ensures Chain(l', r, lists'[r]) && n !in lists'[r] {
      if r != Some(n) {
        var t := lists[r];
        ChainDup(l, r, t);
        forall k | 0 <= k < |t|
          ensures Live(l', t[k]) && t[k] != n && l'.parent[t[k]] == r
                  && l'.prev[t[k]] == Before(t, k) && l'.next[t[k]] == After(t, k)
        {
          ChainAt(l, r, t, k);
        }
        ChainBy(l', r, t);
      }
    }
  }

  /** Unlinking a node that is out already, between the same neighbours, changes nothing. */
  lemma UnlinkTwice(l: Links, n: Node)
    requires Live(l, n) && Outside(l, n)
    ensures Unlinked(l, n) == l
  {
  }

  /** The stale fields of an unlinked node still name neighbours that have closed ranks. */
  predicate Outside(l: Links, n: Node)
    requires Live(l, n)
  {
    && HasHead(l, l.parent[n])
    && Head(l, l.parent[n]) != Some(n)
    && (l.prev[n].Some? ==> var a := l.prev[n].value;
        Live(l, a) && l.parent[a] == l.parent[n] && l.next[a] == l.next[n])
    && (l.next[n].Some? ==> var a := l.next[n].value;
        Live(l, a) && l.parent[a] == l.parent[n] && l.prev[a] == l.prev[n])
  }

  lemma UnlinkedIsOutside(l: Links, lists: Lists, q: Ptr, n: Node)
    requires Linked(l, lists) && q in lists && n in lists[q]
    ensures Live(l, n) && l.parent[n] == q && Outside(Unlinked(l, n), n)
  {
    Neighbours(l, lists, q, n);
    UnlinkedFields(l, n, n, q);
    var s := lists[q];
    var i :| 0 <= i < |s| && s[i] == n;
    ChainAt(l, q, s, i);
    ChainDistinct(l, q, s, i - 1, i);
    ChainDistinct(l, q, s, i + 1, i);
    if i > 0 {
      UnlinkedFields(l, n, s[i - 1], q);
    }
    if i + 1 < |s| {
      UnlinkedFields(l, n, s[i + 1], q);
    }
  }
}
