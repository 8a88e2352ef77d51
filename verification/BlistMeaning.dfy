/** What a list in order is, told by the fields: the pointers, the counters, the tables and the priority buddies. */
module BlistMeaning {
  import opened BlistSeq
  import opened Options
  import opened BlistLinks
  import opened BlistModel
  import opened BlistGroups
  import opened BlistRename

  /** A buddy of a connected account, and one whose presence is online, too. */
  predicate Connected(s: State, n: Node) {
    n in s.info && s.info[n].Buddy? && s.info[n].account in s.connected
  }

  predicate Online(s: State, n: Node) {
    Connected(s, n) && s.env.isOnline(s.info[n].presence)
  }

  /** A child that its group counts: a contact that itself counts somebody, or a chat of a connected account. */
  predicate Counts(s: State, size: map<Node, int>, n: Node) {
    n in s.info && match s.info[n]
                   case Contact => n in size && size[n] > 0
                   case Chat(account) => account in s.connected
                   case _ => false
  }

  /** The children of `q`: each knows its parent and its neighbours, and the parent the first one. */
  lemma PointersMean(s: State, q: Ptr)
    requires Valid(s) && q in s.kids
    ensures var l, first := s.kids[q], if s.kids[q] == [] then None else Some(s.kids[q][0]);
            if q == None then s.links.root == first
            else q.value in s.links.child && s.links.child[q.value] == first
    ensures forall i :: 0 <= i < |s.kids[q]| ==> Neighbours(s.links, q, s.kids[q], i)
  {
    hide Valid;
    HeadOf(s, q);
    forall i | 0 <= i < |s.kids[q]|
      ensures Neighbours(s.links, q, s.kids[q], i)
    {
      SiblingAt(s, q, i);
    }
  }

  predicate Neighbours(k: Links, q: Ptr, l: seq<Node>, i: nat) {
    && i < |l| && l[i] in k.parent && l[i] in k.prev && l[i] in k.next
    && k.parent[l[i]] == q
    && k.prev[l[i]] == (if i > 0 then Some(l[i - 1]) else None)
    && k.next[l[i]] == if i < |l| - 1 then Some(l[i + 1]) else None
  }

  function Among(l: seq<Node>, f: set<Node>): set<Node> {
    set n | n in l && n in f
  }

  lemma {:induction false} CountIs(l: seq<Node>, f: set<Node>)
    requires NoDup(l)
    ensures Count(l, f) == |Among(l, f)|
  {
    if l != [] {
      var rest := Among(l[1..], f);
      CountIs(l[1..], f);
      assert l[0] !in rest;
      assert forall n :: n in l <==> n == l[0] || n in l[1..];
      assert Among(l, f) == if l[0] in f then rest + {l[0]} else rest;
    }
  }

  /** A contact's counters: its buddies, those of connected accounts, and those that are online. */
  lemma ContactCounts(s: State, c: Node)
    requires Valid(s) && c in s.info && s.info[c].Contact?
    ensures Some(c) in s.kids && c in s.sizes.total && c in s.sizes.current && c in s.sizes.online
    ensures s.sizes.total[c] == |s.kids[Some(c)]|
    ensures s.sizes.current[c] == |set b | b in s.kids[Some(c)] && Connected(s, b)|
    ensures s.sizes.online[c] == |set b | b in s.kids[Some(c)] && Online(s, b)|
  {
    hide Linked, Placed, Indexed, Filed, Named, Prioritized, Typed, TotalPreorder;
    assert ContactSized(s, c);
    var l, f, g := s.kids[Some(c)], ConnectedNodes(s.info, s.connected), OnlineNodes(s.env, s.info, s.connected);
    ContactKids(s, c);
    CountIs(l, f);
    CountIs(l, g);
    assert Among(l, f) == set b | b in l && Connected(s, b);
    assert Among(l, g) == set b | b in l && Online(s, b);
  }

  /** A group's: its children and the contacts deleted from it, and those that count. */
  lemma GroupCounts(s: State, g: Node)
    requires Valid(s) && g in s.info && s.info[g].Group?
    ensures Some(g) in s.kids && g in s.sizes.total && g in s.sizes.current && g in s.sizes.online && g in s.drift
    ensures s.sizes.total[g] == |s.kids[Some(g)]| + s.drift[g]
    ensures s.sizes.current[g] == |set n | n in s.kids[Some(g)] && Counts(s, s.sizes.current, n)|
    ensures s.sizes.online[g] == |set n | n in s.kids[Some(g)] && Counts(s, s.sizes.online, n)|
  {
    hide Linked, Placed, Indexed, Filed, Named, Prioritized, Typed, TotalPreorder;
    assert GroupSized(s, g);
    var l := s.kids[Some(g)];
    HeadOf(s, Some(g));
    CountedAre(s, l, s.sizes.current);
    CountedAre(s, l, s.sizes.online);
  }

  lemma CountedAre(s: State, l: seq<Node>, size: map<Node, int>)
    requires NoDup(l)
    ensures Count(l, Counting(s.info, s.connected, size)) == |set n | n in l && Counts(s, size, n)|
  {
    var f := Counting(s.info, s.connected, size);
    CountIs(l, f);
    assert Among(l, f) == set n | n in l && Counts(s, size, n);
  }

  /** The key of buddy `b` in the tree: its normalized name, its account, and the group of its contact. */
  predicate HasKey(s: State, b: Node, k: Key) {
    && b in s.info && s.info[b].Buddy? && b in s.links.parent && s.links.parent[b].Some?
    && s.links.parent[b].value in s.links.parent
    && s.links.parent[s.links.parent[b].value] == Some(k.group)
    && k.account == s.info[b].account && k.name == s.env.normalize(s.info[b].account, s.info[b].name)
  }

  /** The tables: under a key is the one buddy in the tree that has it, and each account's table is its part of that. */
  lemma TablesMean(s: State, k: Key, b: Node)
    requires Valid(s)
    ensures k in s.tables.buddies && s.tables.buddies[k] == b <==> HasKey(s, b, k)
    ensures k.account in s.tables.cache ==>
              (k in s.tables.cache[k.account] && s.tables.cache[k.account][k] == b <==> HasKey(s, b, k))
    ensures HasKey(s, b, k) ==> k.account in s.tables.cache
  {
    hide Linked, Placed, Sized, Named, Prioritized, Typed, TotalPreorder;
    assert BuddyFiled(s, NOTHING.adrift + NOTHING.unfiled, b);
    if k in s.tables.buddies && s.tables.buddies[k] == b {
      assert b in s.keyed && s.keyed[b] == k;
    }
  }

  /** The index of names: under a key is the one group of the list whose name has it. */
  lemma NamesMean(s: State, k: string, g: Node)
    requires Valid(s)
    ensures None in s.kids
    ensures k in s.tables.groups && s.tables.groups[k] == g
       <==> g in s.kids[None] && g in s.info && s.info[g].Group? && s.env.collateKey(s.info[g].name) == k
  {
    hide Linked, Placed, Sized, Indexed, Filed, Prioritized, Typed, TotalPreorder;
  }

  /**
   A priority buddy that is marked valid: nobody on a connected account has a presence that compares as more available,
   and among equals it is the first, or the last if that is preferred; if nobody is connected it is the first of all.
  */
  lemma BestMeans(s: State, c: Node, j: nat)
    requires Valid(s) && c in s.info && s.info[c].Contact? && Some(c) in s.kids && j < |s.kids[Some(c)]|
    requires c in s.priorities.valid && s.priorities.valid[c]
    ensures c in s.priorities.buddy && s.priorities.buddy[c].Some? && s.priorities.buddy[c].value in s.kids[Some(c)]
    ensures var l, p := s.kids[Some(c)], s.priorities.buddy[c].value;
            if Connected(s, p) then
              Connected(s, l[j]) && l[j] != p ==>
                var d := s.env.compare(s.info[p].presence, s.info[l[j]].presence);
                d < 0 || (d == 0 && (p in l[..j] <==> !s.env.lastMatch))
            else p == l[0] && !Connected(s, l[j])
  {
    hide Linked, Placed, Sized, Indexed, Filed, Named, Typed;
    assert ContactPrioritized(s, c);
    var l, p := s.kids[Some(c)], s.priorities.buddy[c].value;
    HeadOf(s, Some(c));
    var i :| 0 <= i < |l| && l[i] == p && BestAt(s.env, s.info, s.connected, l, i);
    if Connected(s, p) && Connected(s, l[j]) && l[j] != p {
      assert Preferred(s.env, s.info, s.connected, l, i, j);
      assert i < j ==> l[..j][i] == p;
      assert j < i ==> forall m :: 0 <= m < j ==> l[m] != p;
    }
  }
}
