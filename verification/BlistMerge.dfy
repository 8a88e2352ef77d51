/** A contact whose buddies move, one after the other, behind each other into another contact. */
module BlistMerge {
  import opened BlistSeq
  import opened Options
  import opened BlistLinks
  import opened BlistModel
  import opened BlistTree
  import opened BlistSizes
  import opened BlistIndex
  import opened BlistSteps
  import opened BlistGroups
  import opened BlistFloat
  import opened BlistBuddies
  import opened BlistPlaces

  /** `t` with all of `l`, in order, right behind `a`, or in front if there is no `a`. */
  function Spliced(t: seq<Node>, a: Ptr, l: seq<Node>): seq<Node> {
    if a == None then l + t
    else if t == [] then l
    else if t[0] == a.value then [t[0]] + l + t[1..]
    else [t[0]] + Spliced(t[1..], a, l)
  }

  lemma {:induction false} SplicedAt(t: seq<Node>, i: int, l: seq<Node>)
    requires NoDup(t) && -1 <= i < |t|
    ensures Spliced(t, Before(t, i + 1), l) == t[..i + 1] + l + t[i + 1..]
  {
    if i == -1 {
      assert t[..0] + l + t[0..] == l + t;
    } else if i == 0 {
      assert t[..1] + l + t[1..] == [t[0]] + l + t[1..];
    } else {
      assert t[0] != t[i] && Before(t, i + 1) == Some(t[i]) == Before(t[1..], i);
      SplicedAt(t[1..], i - 1, l);
      assert [t[0]] + (t[1..][..i] + l + t[1..][i..]) == t[..i + 1] + l + t[i + 1..];
    }
  }

  /** One more node behind the last one spliced in. */
  lemma {:induction false} SplicedNext(t: seq<Node>, a: Ptr, p: seq<Node>, b: Node)
    requires NoDup(t) && NoDup(p) && (a.Some? ==> a.value in t) && (forall n :: n in p ==> n !in t)
    ensures InsertAfter(Spliced(t, a, p), if p == [] then a else Last(p), b) == Spliced(t, a, p + [b])
  {
    hide InsertAfter;
    var k := if p == [] then a else Last(p);
    if a == None {
      InsertNone(t, b);
      assert p == [] ==> [] + t == t && [] + [b] + t == [b] + t;
      if p != [] {
        BehindLast(p, t, b);
      }
    } else if t[0] == a.value {
      assert p == [] ==> [t[0]] + [] == [t[0]];
      assert p != [] ==> Last([t[0]] + p) == Last(p);
      BehindLast([t[0]] + p, t[1..], b);
      assert [t[0]] + p + [b] + t[1..] == [t[0]] + (p + [b]) + t[1..];
    } else {
      SplicedNext(t[1..], a, p, b);
      assert p != [] ==> p[|p| - 1] in p && t[0] in t;
      InsertBehind(t[0], Spliced(t[1..], a, p), k, b);
    }
  }

  lemma InsertNone(r: seq<Node>, b: Node)
    ensures InsertAfter(r, None, b) == [b] + r
  {
  }

  lemma InsertBehind(x: Node, r: seq<Node>, a: Ptr, b: Node)
    requires a.Some? && a.value != x
    ensures InsertAfter([x] + r, a, b) == [x] + InsertAfter(r, a, b)
  {
    assert ([x] + r)[1..] == r;
  }

  lemma {:induction false} BehindLast(p: seq<Node>, v: seq<Node>, b: Node)
    requires NoDup(p) && p != []
    ensures InsertAfter(p + v, Last(p), b) == p + [b] + v
  {
    hide InsertAfter;
    if |p| == 1 {
      InsertThere(p[0], v, b);
      assert p + v == [p[0]] + v && p + [b] + v == [p[0], b] + v;
    } else {
      assert p[0] != p[|p| - 1];
      BehindLast(p[1..], v, b);
      InsertBehind(p[0], p[1..] + v, Last(p), b);
      assert p + v == [p[0]] + (p[1..] + v) && p + [b] + v == [p[0]] + (p[1..] + [b] + v);
    }
  }

  lemma InsertThere(x: Node, r: seq<Node>, b: Node)
    ensures InsertAfter([x] + r, Some(x), b) == [x, b] + r
  {
    assert ([x] + r)[1..] == r;
  }

  lemma SplicedKeeps(t: seq<Node>, a: Ptr, p: seq<Node>)
    requires NoDup(t) && NoDup(p) && (a.Some? ==> a.value in t) && (forall n :: n in p ==> n !in t)
    ensures NoDup(Spliced(t, a, p)) && forall n :: n in Spliced(t, a, p) <==> n in t || n in p
  {
    hide Spliced;
    var i := Position(t, a);
    SplicedAt(t, i, p);
    var r := t[..i + 1] + p + t[i + 1..];
    forall x, y | 0 <= x < y < |r| ensures r[x] != r[y] {
      if x <= i {
        assert r[x] == t[x] && t[x] in t;
      } else if x <= i + |p| {
        assert r[x] == p[x - i - 1] && p[x - i - 1] in p && p[x - i - 1] !in t;
      } else {
        assert r[x] == t[x - |p|] && t[x - |p|] in t;
      }
      if y <= i {
        assert r[y] == t[y] && t[y] in t;
      } else if y <= i + |p| {
        assert r[y] == p[y - i - 1] && p[y - i - 1] in p && p[y - i - 1] !in t;
      } else {
        assert r[y] == t[y - |p|] && t[y - |p|] in t;
      }
    }
    forall n ensures n in r <==> n in t || n in p {
      assert t == t[..i + 1] + t[i + 1..];
    }
  }

  lemma SplicedNone(t: seq<Node>, a: Ptr)
    requires NoDup(t) && (a.Some? ==> a.value in t)
    ensures Spliced(t, a, []) == t
  {
    hide Spliced;
    var i := Position(t, a);
    SplicedAt(t, i, []);
    var u, v := t[..i + 1], t[i + 1..];
    assert u + [] == u;
    assert u + v == t;
  }

  /** Who has lost an entry when the buddies `l` have come to group `g`. */
  function Overwritten(s: State, l: seq<Node>, g: Node): set<Node> {
    if l == [] then {}
    else Overwritten(s, l[..|l| - 1], g) + Displaced(s.tables, KeyIn(s, l[|l| - 1], g), l[|l| - 1])
  }

  /** `o` has the entry under the key that `b` has in group `g`. */
  predicate Loses(s: State, o: Node, b: Node, g: Node) {
    KeyIn(s, b, g) in s.tables.buddies && s.tables.buddies[KeyIn(s, b, g)] == o && o != b
  }

  lemma {:induction false} OverwrittenAre(s: State, l: seq<Node>, g: Node)
    ensures forall o :: o in Overwritten(s, l, g) <==> exists b :: b in l && Loses(s, o, b, g)
    ensures Overwritten(s, l, g) == {} <==> forall b :: b in l ==> Fresh(s, b, g)
  {
    hide KeyIn;
    if l != [] {
      var n := |l| - 1;
      OverwrittenAre(s, l[..n], g);
      assert forall b :: b in l <==> b in l[..n] || b == l[n];
      forall o ensures o in Overwritten(s, l, g) <==> exists b :: b in l && Loses(s, o, b, g) {
        assert o in Displaced(s.tables, KeyIn(s, l[n], g), l[n]) <==> Loses(s, o, l[n], g);
      }
    }
  }

  /** None of them is a buddy of contact `c` that is on its way. */
  lemma OverwrittenApart(s: State, c: Node, g0: Node, p: seq<Node>, g: Node)
    requires Valid(s) && Siting(s, {}, c, g0) && c in s.links.parent && s.links.parent[c] == Some(g0)
    requires forall b :: b in p ==> b in s.kids[Some(c)]
    ensures forall b :: b in s.kids[Some(c)] ==> b !in Overwritten(s, p, g)
  {
    hide Linked, Placed, Sized, Filed, Named, Prioritized, Typed, TotalPreorder;
    Soundly(s, NOTHING);
    FiledHere(s, c, g0);
    OverwrittenAre(s, p, g);
    assert forall b :: b in s.kids[Some(c)] ==> s.keyed[b] == KeyIn(s, b, g0);
  }

  /** The tables have the same buddy, if any, under key `k`. */
  predicate SameEntry(t: Tables, t': Tables, k: Key) {
    (k in t.buddies <==> k in t'.buddies) && (k in t.buddies ==> t.buddies[k] == t'.buddies[k])
  }

  /** Where contact `source` of group `g0` and contact `target` of group `g` start from. */
  ghost predicate Mergeable(s: State, source: Node, g0: Node, target: Node, g: Node, a: Ptr) {
    && Valid(s) && Siting(s, {}, source, g0) && Siting(s, {}, target, g) && source != target
    && source in s.links.parent && s.links.parent[source] == Some(g0) && target in s.links.parent
    && s.links.parent[target] == Some(g)
    && (a.Some? ==> a.value in s.kids[Some(target)])
  }

  /** The tree after the first `i` buddies `l` of `source` have moved. */
  function KidsMerged(kids: Lists, source: Node, g0: Node, target: Node, a: Ptr, l: seq<Node>, i: nat): Lists
    requires i <= |l|
  {
    var k := kids[Some(target) := Spliced(At(kids, Some(target)), a, l[..i])];
    if i < |l| || l == [] then k[Some(source) := l[i..]]
    else Less(k[Some(g0) := Without(At(k, Some(g0)), source)], Some(source))
  }

  /** A store of node fields after that. */
  function StoreMerged<V>(m: map<Node, V>, source: Node, l: seq<Node>, i: nat): map<Node, V> {
    if i < |l| || l == [] then m else Less(m, source)
  }

  function DriftMerged(drift: map<Node, nat>, source: Node, g0: Node, l: seq<Node>, i: nat): map<Node, nat> {
    if i < |l| || l == [] then drift else Less(if g0 in drift then drift[g0 := drift[g0] + 1] else drift, source)
  }

  /** In the middle of the merge. */
  ghost predicate Merging(s: State, s': State, source: Node, g0: Node, target: Node, g: Node, a: Ptr, l: seq<Node>,
                          i: nat) {
    && Mergeable(s, source, g0, target, g, a) && s.kids[Some(source)] == l && i <= |l|
    && Nearly(s', Overwritten(s, l[..i], g)) && s'.env == s.env
    && s'.kids == KidsMerged(s.kids, source, g0, target, a, l, i)
    && s'.info == StoreMerged(s.info, source, l, i) && s'.drift == DriftMerged(s.drift, source, g0, l, i)
    && target in s'.links.parent && s'.links.parent[target] == Some(g)
    && (i < |l| ==> source in s'.links.parent && s'.links.parent[source] == Some(g0))
    && (forall j {:trigger l[j]} :: i <= j < |l| ==> SameEntry(s.tables, s'.tables, KeyIn(s, l[j], g)))
  }

  lemma MergingStart(s: State, source: Node, g0: Node, target: Node, g: Node, a: Ptr)
    requires Mergeable(s, source, g0, target, g, a)
    ensures Merging(s, s, source, g0, target, g, a, s.kids[Some(source)], 0)
  {
    hide Linked, Placed, Sized, Indexed, Filed, Named, Prioritized, Typed, TotalPreorder, Spliced, Sound;
    var l := s.kids[Some(source)];
    NearlyNow(s);
    BuddyKids(s, {}, target) by { Soundly(s, NOTHING); }
    SplicedNone(s.kids[Some(target)], a);
    assert l[..0] == [] && l[0..] == l;
    assert s.kids[Some(target) := s.kids[Some(target)]][Some(source) := l] == s.kids;
  }

  /** Two buddies of one contact have different keys in every group. */
  lemma KeysApart(s: State, c: Node, g0: Node, b: Node, o: Node, g: Node)
    requires Valid(s) && Siting(s, {}, c, g0) && c in s.links.parent && s.links.parent[c] == Some(g0)
    requires b in s.kids[Some(c)] && o in s.kids[Some(c)] && b != o
    ensures KeyIn(s, b, g) != KeyIn(s, o, g)
  {
    hide Linked, Placed, Sized, Indexed, Filed, Named, Prioritized, Typed, TotalPreorder;
    Soundly(s, NOTHING);
    FiledHere(s, c, g0);
    OneKeyOneBuddy(s.tables, s.keyed, b, o);
  }

  /** The two contacts' buddies, and the contacts and groups, are apart. */
  lemma MergeApart(s: State, source: Node, g0: Node, target: Node, g: Node, a: Ptr)
    requires Mergeable(s, source, g0, target, g, a)
    ensures var l, t := s.kids[Some(source)], s.kids[Some(target)];
            && NoDup(l) && NoDup(t)
            && (forall n :: n in l ==> n !in t && n in s.info && s.info[n].Buddy? && n != target && n != source)
    ensures source != g0 && target != g0 && source != g && target != g && Some(g0) in s.kids && g0 in s.drift
  {
    hide Linked, Placed, Sized, Indexed, Filed, Named, Prioritized, Typed, TotalPreorder;
    Soundly(s, NOTHING);
    GroupDrift(s, NOTHING, g0);
    BuddyKids(s, {}, target);
    BuddyKids(s, {}, source);
    forall n | n in s.kids[Some(source)] ensures n !in s.kids[Some(target)] {
      if n in s.kids[Some(target)] {
        OneParent(s.links, s.kids, s.info, {}, Some(source), Some(target), n);
      }
    }
  }

  /** What one more step of the merge finds. */
  lemma MergingAt(s: State, s': State, source: Node, g0: Node, target: Node, g: Node, a: Ptr, l: seq<Node>, i: nat)
    requires Merging(s, s', source, g0, target, g, a, l, i) && i < |l|
    ensures BuddyAt(s', l[i], source, g0) && Siting(s', {}, source, g0) && source != g0
    ensures Some(source) in s'.kids && s'.kids[Some(source)] == l[i..] && Some(target) in s'.kids
    ensures s'.kids[Some(target)] == Spliced(s.kids[Some(target)], a, l[..i])
    ensures target in s'.info && s'.info[target].Contact?
    ensures l[i] in s'.links.next && s'.links.next[l[i]] == First(l[i + 1..])
  {
    hide Linked, Placed, Sized, Indexed, Filed, Named, Prioritized, Typed, TotalPreorder, Spliced, Overwritten,
         SameEntry, Without, Less;
    MergeApart(s, source, g0, target, g, a);
    BuddyAtFirst(s', source, l[i..], Overwritten(s, l[..i], g));
    assert l[i..][0] == l[i] && l[i..][1..] == l[i + 1..];
  }

  lemma BuddyAtFirst(s: State, c: Node, l: seq<Node>, but: set<Node>)
    requires Nearly(s, but) && c in s.info && s.info[c].Contact? && c in s.links.parent && s.links.parent[c].Some?
    requires Some(c) in s.kids && s.kids[Some(c)] == l && l != []
    ensures BuddyAt(s, l[0], c, s.links.parent[c].value) && Siting(s, {}, c, s.links.parent[c].value)
    ensures l[0] in s.links.next && s.links.next[l[0]] == First(l[1..])
  {
    hide Linked, Placed, Sized, Indexed, Filed, Named, Prioritized, Typed, TotalPreorder;
    var x := NOTHING.(unfiled := but);
    Soundly(s, x);
    ChildOf(s.links, s.kids, s.info, {}, Some(c), l[0]);
    BuddyStands(s, x, l[0]);
    ContactStands(s, x, c);
    SiblingIn(s, x, Some(c), 0);
  }

  /** The one before has arrived. */
  lemma MergedBefore(s: State, s': State, source: Node, g0: Node, target: Node, g: Node, a: Ptr, l: seq<Node>, i: nat)
    requires Merging(s, s', source, g0, target, g, a, l, i) && 0 < i < |l|
    ensures Some(target) in s'.kids && l[i - 1] in s'.kids[Some(target)] && l[i - 1] in s'.info
    ensures s'.info[l[i - 1]].Buddy?
    ensures l[i - 1] in s'.links.parent && s'.links.parent[l[i - 1]] == Some(target)
  {
    hide Linked, Placed, Sized, Indexed, Filed, Named, Prioritized, Typed, TotalPreorder, Spliced, Overwritten,
         SameEntry, Without, Less;
    MergeApart(s, source, g0, target, g, a);
    SplicedKeeps(s.kids[Some(target)], a, l[..i]);
    assert l[i - 1] in l[..i];
    MergingAt(s, s', source, g0, target, g, a, l, i);
    ChildOf(s'.links, s'.kids, s'.info, {}, Some(target),
            l[i - 1]) by { Soundly(s', NOTHING.(unfiled := Overwritten(s, l[..i], g))); }
  }

  lemma MergedKids(s: State, s1: State, s': State, source: Node, g0: Node, target: Node, g: Node, a: Ptr, l: seq<Node>,
                   i: nat)
    requires Merging(s, s1, source, g0, target, g, a, l, i) && i < |l|
    requires s'.kids
               == KidsJoined(KidsLeft(s1.kids, l[i], source, g0), l[i], target, if i == 0 then a else Some(l[i - 1]))
    ensures s'.kids == KidsMerged(s.kids, source, g0, target, a, l, i + 1)
    ensures Empties(s1.kids, l[i], source) <==> i + 1 == |l|
  {
    hide Linked, Placed, Sized, Indexed, Filed, Named, Prioritized, Typed, TotalPreorder, Spliced, Overwritten,
         SameEntry, Without, Less, InsertAfter, KidsLeft, KidsJoined;
    MergeApart(s, source, g0, target, g, a);
    var t1 := Spliced(s.kids[Some(target)], a, l[..i]);
    assert l[i..] == [l[i]] + l[i + 1..];
    SplicedNext(s.kids[Some(target)], a, l[..i], l[i]);
    assert l[..i + 1] == l[..i] + [l[i]];
    assert i > 0 ==> Last(l[..i]) == Some(l[i - 1]);
    StepMerged(s.kids, source, g0, target, t1, l[i], l[i + 1..], if i == 0 then a else Some(l[i - 1]));
  }

  /** One buddy of `source` moves; with the last one the contact goes. */
  lemma StepMerged(kids: Lists, source: Node, g0: Node, target: Node, t: seq<Node>, b: Node, rest: seq<Node>, p: Ptr)
    requires source != g0 && target != g0 && source != target && Some(g0) in kids
    ensures var k1, t' := kids[Some(target) := t][Some(source) := [b] + rest], InsertAfter(t, p, b);
            && (Empties(k1, b, source) <==> rest == [])
            && KidsJoined(KidsLeft(k1, b, source, g0), b, target, p)
            == (if rest != [] then kids[Some(target) := t'][Some(source) := rest]
                else Less(kids[Some(target) := t'][Some(g0) := Without(kids[Some(g0)], source)], Some(source)))
  {
    hide InsertAfter, Less, Without;
    var k1, t' := kids[Some(target) := t][Some(source) := [b] + rest], InsertAfter(t, p, b);
    FirstOut([b] + rest);
    assert ([b] + rest)[1..] == rest;
    assert Without(At(k1, Some(source)), b) == rest;
    var k2 := k1[Some(source) := rest];
    if rest != [] {
      assert KidsLeft(k1, b, source, g0) == k2;
      assert k2[Some(target) := t'] == kids[Some(target) := t'][Some(source) := rest];
    } else {
      var r := Without(kids[Some(g0)], source);
      LessUpdate(kids, k2[Some(g0) := r], Some(source), Some(target), t', Some(g0), r);
      LessAt(k2[Some(g0) := r], Some(source), Some(target));
      assert k2[Some(g0) := r][Some(target)] == t;
    }
  }

  lemma LessUpdate(k: Lists, k1: Lists, n: Ptr, m: Ptr, t: seq<Node>, q: Ptr, r: seq<Node>)
    requires n != m && m != q && n != q && q in k1 && k1[q] == r
    requires forall p :: p != n && p != m && p != q ==> (p in k <==> p in k1) && (p in k ==> k1[p] == k[p])
    ensures Less(k1, n)[m := t] == Less(k[m := t][q := r], n)
  {
  }

  lemma MergedStores(s: State, s1: State, s': State, source: Node, g0: Node, target: Node, g: Node, a: Ptr,
                     l: seq<Node>, i: nat)
    requires Merging(s, s1, source, g0, target, g, a, l, i) && i < |l|
    requires Repositions(s1, s', l[i], target, g, if i == 0 then a else Some(l[i - 1]))
    requires Empties(s1.kids, l[i], source) <==> i + 1 == |l|
    ensures s'.info == StoreMerged(s.info, source, l, i + 1) && s'.drift == DriftMerged(s.drift, source, g0, l, i + 1)
    ensures target in s'.links.parent && s'.links.parent[target] == Some(g)
    ensures i + 1 < |l| ==> source in s'.links.parent && s'.links.parent[source] == Some(g0)
  {
    hide Linked, Placed, Sized, Indexed, Filed, Named, Prioritized, Typed, TotalPreorder, Spliced, Overwritten,
         SameEntry, Empties, KidsLeft, KidsJoined, KidsMerged, Less;
    MergingAt(s, s1, source, g0, target, g, a, l, i);
    LessAt(s1.links.parent, source, target);
    MergeApart(s, source, g0, target, g, a);
  }

  /** What the tables have under the key of a later buddy does not change. */
  lemma MergedKey(s: State, s1: State, s': State, source: Node, g0: Node, target: Node, g: Node, a: Ptr, l: seq<Node>,
                  i: nat, j: nat)
    requires Merging(s, s1, source, g0, target, g, a, l, i) && i < j < |l|
    requires Repositions(s1, s', l[i], target, g, if i == 0 then a else Some(l[i - 1]))
    ensures SameEntry(s.tables, s'.tables, KeyIn(s, l[j], g))
  {
    hide Linked, Placed, Sized, Indexed, Filed, Named, Prioritized, Typed, TotalPreorder, Sound, Spliced, KidsLeft,
         KidsJoined, KidsMerged,
         Overwritten;
    MergeApart(s, source, g0, target, g, a);
    MergingAt(s, s1, source, g0, target, g, a, l, i);
    assert l[i] != l[j];
    KeysApart(s, source, g0, l[i], l[j], g);
    assert SameEntry(s.tables, s1.tables, KeyIn(s, l[j], g));
  }

  lemma MergedKeys(s: State, s1: State, s': State, source: Node, g0: Node, target: Node, g: Node, a: Ptr, l: seq<Node>,
                   i: nat)
    requires Merging(s, s1, source, g0, target, g, a, l, i) && i < |l|
    requires Repositions(s1, s', l[i], target, g, if i == 0 then a else Some(l[i - 1]))
    ensures forall j {:trigger l[j]} :: i + 1 <= j < |l| ==> SameEntry(s.tables, s'.tables, KeyIn(s, l[j], g))
  {
    hide Merging, Repositions, SameEntry;
    forall j | i + 1 <= j < |l| ensures SameEntry(s.tables, s'.tables, KeyIn(s, l[j], g)) {
      MergedKey(s, s1, s', source, g0, target, g, a, l, i, j);
    }
  }

  /** Who loses an entry to the next buddy. */
  lemma OverwrittenNext(s: State, s1: State, source: Node, g0: Node, target: Node, g: Node, a: Ptr, l: seq<Node>,
                        i: nat)
    requires Merging(s, s1, source, g0, target, g, a, l, i) && i < |l|
    ensures Overwritten(s, l[..i + 1], g) == Overwritten(s, l[..i], g) + Displaced(s1.tables, KeyIn(s1, l[i], g), l[i])
  {
    hide Linked, Placed, Sized, Indexed, Filed, Named, Prioritized, Typed, TotalPreorder, Sound, Spliced, KidsMerged;
    MergeApart(s, source, g0, target, g, a);
    assert l[..i + 1][..i] == l[..i] && l[..i + 1][i] == l[i];
    assert SameEntry(s.tables, s1.tables, KeyIn(s, l[i], g));
  }

  lemma MergingNext(s: State, s1: State, s': State, source: Node, g0: Node, target: Node, g: Node, a: Ptr,
                    l: seq<Node>, i: nat)
    requires Merging(s, s1, source, g0, target, g, a, l, i) && i < |l| && s'.env == s.env
    requires Repositions(s1, s', l[i], target, g, if i == 0 then a else Some(l[i - 1]))
    requires Nearly(s', Overwritten(s, l[..i], g) + Displaced(s1.tables, KeyIn(s1, l[i], g), l[i]))
    ensures Merging(s, s', source, g0, target, g, a, l, i + 1)
  {
    hide Linked, Placed, Sized, Indexed, Filed, Named, Prioritized, Typed, TotalPreorder, Valid, Nearly, Spliced,
         Without, Less, InsertAfter, KidsMerged,
         Overwritten, SameEntry, Displaced;
    MergingAt(s, s1, source, g0, target, g, a, l, i);
    OverwrittenNext(s, s1, source, g0, target, g, a, l, i);
    MergedKids(s, s1, s', source, g0, target, g, a, l, i);
    hide KidsLeft, KidsJoined;
    MergedStores(s, s1, s', source, g0, target, g, a, l, i);
    MergedKeys(s, s1, s', source, g0, target, g, a, l, i);
  }

  /** The buddy or contact to go behind next. */
  lemma MergingBehind(s: State, s': State, source: Node, g0: Node, target: Node, g: Node, a: Ptr, l: seq<Node>, i: nat)
    requires Merging(s, s', source, g0, target, g, a, l, i) && i < |l|
    ensures Nearly(s', Overwritten(s, l[..i], g)) && l[i] !in Overwritten(s, l[..i], g)
    ensures l[i] in s'.info && s'.info[l[i]].Buddy? && l[i] in s'.links.parent && s'.links.parent[l[i]] == Some(source)
    ensures target in s'.info && s'.info[target].Contact? && target in s'.links.parent
    ensures s'.links.parent[target] == Some(g)
    ensures source != target
    ensures var p := if i == 0 then a else Some(l[i - 1]);
            && !Overtop(s', l[i], Some(target), p)
            && (p.Some? ==> && p.value in s'.info && s'.info[p.value].Buddy? && p.value in s'.links.parent
                            && s'.links.parent[p.value] == Some(target))
  {
    hide Linked, Placed, Sized, Indexed, Filed, Named, Prioritized, Typed, TotalPreorder, Spliced, KidsMerged,
         Overwritten;
    MergingAt(s, s', source, g0, target, g, a, l, i);
    MergeApart(s, source, g0, target, g, a);
    OverwrittenApart(s, source, g0, l[..i], g);
    assert l[i] in s.kids[Some(source)];
    if i > 0 {
      MergedBefore(s, s', source, g0, target, g, a, l, i);
    } else if a.Some? {
      SplicedNone(s.kids[Some(target)], a);
      assert l[..0] == [];
      ChildOf(s'.links, s'.kids, s'.info, {}, Some(target),
              a.value) by { Soundly(s', NOTHING.(unfiled := Overwritten(s, l[..i], g))); }
    }
  }

  lemma MergingEnd(s: State, s': State, source: Node, g0: Node, target: Node, g: Node, a: Ptr, l: seq<Node>, i: nat)
    requires Merging(s, s', source, g0, target, g, a, l, i) && i == |l|
    ensures Nearly(s', Overwritten(s, l, g)) && (Valid(s') <==> Overwritten(s, l, g) == {})
    ensures s'.kids == KidsMerged(s.kids, source, g0, target, a, l, |l|)
    ensures s'.info == StoreMerged(s.info, source, l, |l|) && s'.drift == DriftMerged(s.drift, source, g0, l, |l|)
  {
    hide Linked, Placed, Sized, Indexed, Filed, Named, Prioritized, Typed, TotalPreorder, Valid, Nearly, Overwritten,
         Spliced, KidsMerged;
    assert l[..i] == l;
    NearlyIs(s', Overwritten(s, l, g));
  }

  /** The contact that is merged into: `node` itself, or the one the buddy `node` is in. */
  function MergeTarget(s: State, node: Node): Ptr {
    if node in s.info && s.info[node].Contact? then Some(node)
    else if node in s.info && s.info[node].Buddy? && node in s.links.parent then s.links.parent[node]
    else None
  }

  lemma MergeableBy(s: State, source: Node, target: Node, node: Node, a: Ptr)
    requires Valid(s) && source in s.info && s.info[source].Contact? && source in s.links.parent
    requires Some(source) in s.kids
    requires s.kids[Some(source)] != [] && MergeTarget(s, node) == Some(target) && target != source
    requires s.links.parent[source].Some? ==> target in s.links.parent && s.links.parent[target].Some?
    requires a == if s.info[node].Buddy? then Some(node) else Last(At(s.kids, Some(target)))
    ensures s.links.parent[source].Some? && target in s.links.parent && s.links.parent[target].Some?
    ensures Mergeable(s, source, s.links.parent[source].value, target, s.links.parent[target].value, a)
  {
    hide Linked, Placed, Sized, Indexed, Filed, Named, Prioritized, Typed, TotalPreorder;
    ChildStands(s, source);
    if s.info[node].Buddy? {
      BuddyStands(s, NOTHING, node);
    }
    ContactStands(s, NOTHING, target);
    ContactStands(s, NOTHING, source);
  }

  /**
   Between `s` and `s'` all buddies of contact `source` have come, in order, into contact `t`, behind its `i`th buddy or
   in front of all if i is -1; the contact is gone, and nothing else has moved.
  */
  ghost predicate MergeComes(s: State, s': State, source: Node, t: Node, i: int) {
    var u, l := At(s.kids, Some(t)), At(s.kids, Some(source));
    && -1 <= i < |u| && At(s'.kids, Some(t)) == u[..i + 1] + l + u[i + 1..]
    && (forall n :: n in s'.info <==> n in s.info && n != source)
    && (forall n :: n in s'.info ==> s'.info[n] == s.info[n])
    && (forall q :: q != Some(source) && q != Some(t) ==> At(s'.kids, q) == Others(At(s.kids, q), source))
  }

  /** Behind buddy `node` of its contact `t`. */
  ghost predicate MergesBehind(s: State, s': State, source: Node, t: Node, node: Node) {
    exists i :: 0 <= i < |At(s.kids, Some(t))| && At(s.kids, Some(t))[i] == node && MergeComes(s, s', source, t, i)
  }

  lemma MergedAt(s: State, s': State, source: Node, g0: Node, t: Node, g: Node, a: Ptr, i: int)
    requires Mergeable(s, source, g0, t, g, a) && At(s.kids, Some(source)) != []
    requires -1 <= i < |At(s.kids, Some(t))| && a == Before(At(s.kids, Some(t)), i + 1)
    requires var l := At(s.kids, Some(source));
             s'.kids == KidsMerged(s.kids, source, g0, t, a, l, |l|) && s'.info == StoreMerged(s.info, source, l, |l|)
    ensures MergeComes(s, s', source, t, i)
  {
    hide Valid, NoDup, Others, Without, Spliced;
    HeadOf(s, Some(t));
    SplicedAt(s.kids[Some(t)], i, At(s.kids, Some(source)));
    OnlyInItsGroup(s, source, g0, t);
    assert At(s.kids, Some(source))[..|At(s.kids, Some(source))|] == At(s.kids, Some(source));
  }

  lemma OnlyInItsGroup(s: State, source: Node, g0: Node, t: Node)
    requires Valid(s) && Siting(s, {}, source, g0) && source in s.links.parent && s.links.parent[source] == Some(g0)
    requires t in s.info && s.info[t].Contact?
    ensures source != g0 && t != g0 && Some(g0) in s.kids
    ensures Without(At(s.kids, Some(g0)), source) == Others(At(s.kids, Some(g0)), source)
    ensures forall q :: q != Some(g0) ==> Others(At(s.kids, q), source) == At(s.kids, q)
  {
    hide Valid, Others, Without, NoDup;
    ChildStands(s, source);
    HeadOf(s, Some(g0));
    WithoutOthers(s.kids[Some(g0)], source);
    forall q | q != Some(g0)
      ensures Others(At(s.kids, q), source) == At(s.kids, q)
    {
      if q.Some? {
        NotIn(s, source, q.value);
      }
      OthersNone(At(s.kids, q), source);
    }
  }

  /** What merging into a contact, or behind a buddy, comes to. */
  lemma MergedComes(s: State, s': State, source: Node, g0: Node, t: Node, g: Node, node: Node)
    requires var a := if node == t then Last(At(s.kids, Some(t))) else Some(node);
             && Mergeable(s, source, g0, t, g, a) && At(s.kids, Some(source)) != []
             && var l := At(s.kids, Some(source));
                && s'.kids == KidsMerged(s.kids, source, g0, t, a, l, |l|)
                && s'.info == StoreMerged(s.info, source, l, |l|)
    ensures node == t ==> MergeComes(s, s', source, t, |At(s.kids, Some(t))| - 1)
    ensures node != t ==> MergesBehind(s, s', source, t, node)
  {
    hide Valid, KidsMerged, StoreMerged, MergeComes;
    var u := At(s.kids, Some(t));
    assert node != t ==> node in u;
    hide Mergeable;
    if node == t {
      MergedAt(s, s', source, g0, t, g, Last(u), |u| - 1);
    } else {
      var i :| 0 <= i < |u| && u[i] == node;
      MergedAt(s, s', source, g0, t, g, Some(node), i);
    }
  }
}
