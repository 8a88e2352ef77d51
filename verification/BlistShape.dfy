/** What a list that has been read looks like in the tree: its groups, contacts, chats and buddies, node by node. */
module BlistShape {
  import opened BlistSeq
  import opened Options
  import opened BlistLinks
  import opened BlistModel
  import opened BlistTree
  import opened BlistIndex
  import opened BlistSteps
  import opened BlistGroups
  import opened BlistFloat
  import opened BlistBuddies
  import Xml
  import X = BlistXml

  /** The number by which the list knows an account. */
  type Ids = X.Account -> Account

  type Infos = map<Node, Info>

  ghost predicate BuddySpells(info: Infos, id: Ids, b: Node, x: X.LoadedBuddy) {
    b in info && info[b].Buddy? && info[b].account == id(x.account) && info[b].name == x.name
  }

  ghost predicate BuddiesAre(info: Infos, id: Ids, s: seq<Node>, l: seq<X.LoadedBuddy>) {
    |s| == |l| && forall k :: 0 <= k < |l| ==> BuddySpells(info, id, s[k], l[k])
  }

  ghost predicate ChildIs(kids: Lists, info: Infos, id: Ids, n: Node, x: X.LoadedChild) {
    && n in info
    && match x
       case Contact(_, buddies, _, _) => info[n].Contact? && BuddiesAre(info, id, At(kids, Some(n)), buddies)
       case Chat(account, _, _, _, _) => info[n] == Info.Chat(id(account))
  }

  ghost predicate ChildrenAre(kids: Lists, info: Infos, id: Ids, s: seq<Node>, l: seq<X.LoadedChild>) {
    |s| == |l| && forall j :: 0 <= j < |l| ==> ChildIs(kids, info, id, s[j], l[j])
  }

  ghost predicate GroupIs(kids: Lists, info: Infos, id: Ids, g: Node, x: X.LoadedGroup) {
    g in info && info[g] == Info.Group(x.name) && ChildrenAre(kids, info, id, At(kids, Some(g)), x.children)
  }

  /** The tree spells the groups `l`, with everything in them, in order. */
  ghost predicate Spelt(kids: Lists, info: Infos, id: Ids, l: seq<X.LoadedGroup>) {
    |At(kids, None)| == |l| && forall i :: 0 <= i < |l| ==> GroupIs(kids, info, id, At(kids, None)[i], l[i])
  }

  // ----------------------------------------------------------- what stays the same

  /** All nodes are still there and have the children they had, except those of `but`. */
  ghost predicate Extends(kids: Lists, info: Infos, kids': Lists, info': Infos, but: set<Node>) {
    && (forall n :: n in info ==> n in info' && info'[n] == info[n])
    && (forall n :: n in info && n !in but ==> At(kids', Some(n)) == At(kids, Some(n)))
  }

  lemma ChildStill(kids: Lists, info: Infos, kids': Lists, info': Infos, but: set<Node>, id: Ids, n: Node,
                   x: X.LoadedChild)
    requires Extends(kids, info, kids', info', but) && n !in but && ChildIs(kids, info, id, n, x)
    ensures ChildIs(kids', info', id, n, x)
  {
  }

  lemma GroupStill(kids: Lists, info: Infos, kids': Lists, info': Infos, but: set<Node>, id: Ids, g: Node,
                   x: X.LoadedGroup)
    requires Extends(kids, info, kids', info', but) && g !in but && GroupIs(kids, info, id, g, x)
    requires forall n :: n in but && n in info ==> info[n].Group?
    ensures GroupIs(kids', info', id, g, x)
  {
    hide ChildIs;
    ChildrenStill(kids, info, kids', info', but, id, At(kids, Some(g)), x.children);
  }

  lemma ChildrenStill(kids: Lists, info: Infos, kids': Lists, info': Infos, but: set<Node>, id: Ids, s: seq<Node>,
                      l: seq<X.LoadedChild>)
    requires Extends(kids, info, kids', info', but) && ChildrenAre(kids, info, id, s, l)
    requires forall n :: n in but && n in info ==> info[n].Group?
    ensures ChildrenAre(kids', info', id, s, l)
  {
    hide Extends;
    forall j | 0 <= j < |l| ensures ChildIs(kids', info', id, s[j], l[j]) {
      assert ChildIs(kids, info, id, s[j], l[j]);
      ChildStill(kids, info, kids', info', but, id, s[j], l[j]);
    }
  }

  lemma SpeltStill(kids: Lists, info: Infos, kids': Lists, info': Infos, id: Ids, l: seq<X.LoadedGroup>)
    requires Spelt(kids, info, id, l) && Extends(kids, info, kids', info', {}) && At(kids', None) == At(kids, None)
    ensures Spelt(kids', info', id, l)
  {
    hide GroupIs, Extends;
    forall i | 0 <= i < |l| ensures GroupIs(kids', info', id, At(kids', None)[i], l[i]) {
      GroupStill(kids, info, kids', info', {}, id, At(kids, None)[i], l[i]);
    }
  }

  // -------------------------------------------------------------- a child more

  function PutChild(l: seq<X.LoadedGroup>, i: nat, c: X.LoadedChild, front: bool): seq<X.LoadedGroup>
    requires i < |l|
  {
    l[i := l[i].(children := if front then [c] + l[i].children else l[i].children + [c])]
  }

  function PutNode(s: seq<Node>, n: Node, front: bool): seq<Node> {
    if front then [n] + s else s + [n]
  }

  /** Group `g` has got child `n`, which is `x`, in front or at the end, and nothing else has changed. */
  ghost predicate Gains(kids: Lists, info: Infos, kids': Lists, info': Infos, id: Ids, g: Node, n: Node,
                        x: X.LoadedChild, front: bool) {
    && At(kids', None) == At(kids, None) && Extends(kids, info, kids', info', {g})
    && At(kids', Some(g)) == PutNode(At(kids, Some(g)), n, front) && ChildIs(kids', info', id, n, x)
  }

  lemma SpeltPut(kids: Lists, info: Infos, kids': Lists, info': Infos, id: Ids, l: seq<X.LoadedGroup>, i: nat, n: Node,
                 x: X.LoadedChild, front: bool)
    requires Spelt(kids, info, id, l) && NoDup(At(kids, None)) && i < |l|
    requires Gains(kids, info, kids', info', id, At(kids, None)[i], n, x, front)
    ensures Spelt(kids', info', id, PutChild(l, i, x, front))
  {
    hide GroupIs, Extends, ChildIs;
    var g, l' := At(kids, None)[i], PutChild(l, i, x, front);
    GroupIsGroup(kids, info, id, g, l[i]);
    forall m | 0 <= m < |l'| ensures GroupIs(kids', info', id, At(kids', None)[m], l'[m]) {
      if m == i {
        GroupPut(kids, info, kids', info', id, g, l[i], n, x, front);
      } else {
        GroupStill(kids, info, kids', info', {g}, id, At(kids, None)[m], l[m]);
      }
    }
  }

  lemma GroupIsGroup(kids: Lists, info: Infos, id: Ids, g: Node, x: X.LoadedGroup)
    requires GroupIs(kids, info, id, g, x)
    ensures g in info && info[g] == Info.Group(x.name) && |At(kids, Some(g))| == |x.children|
  {
  }

  lemma GroupPut(kids: Lists, info: Infos, kids': Lists, info': Infos, id: Ids, g: Node, y: X.LoadedGroup, n: Node,
                 x: X.LoadedChild, front: bool)
    requires GroupIs(kids, info, id, g, y) && Gains(kids, info, kids', info', id, g, n, x, front)
    ensures GroupIs(kids', info', id, g, y.(children := if front then [x] + y.children else y.children + [x]))
  {
    hide ChildIs;
    var s, l := At(kids, Some(g)), y.children;
    ChildrenStill(kids, info, kids', info', {g}, id, s, l);
    var s', l' := At(kids', Some(g)), if front then [x] + l else l + [x];
    forall j | 0 <= j < |l'| ensures ChildIs(kids', info', id, s'[j], l'[j]) {
      if front {
        assert j > 0 ==> s'[j] == s[j - 1] && l'[j] == l[j - 1];
      }
    }
  }

  // ------------------------------------------------------------ finding a group

  /** The reader compares names and calls the default groups as the list does, and its accounts are known to it. */
  ghost predicate Alike(e: X.Env, id: Ids, env: Env, known: set<Account>) {
    && e.collate == env.collateKey && e.buddies == env.buddiesGroup && e.chats == env.chatsGroup
    && forall a :: a in e.accounts ==> id(a) in known
  }

  /** Looking a group up in the index is looking for it in the list. */
  lemma GroupFound(s: State, id: Ids, e: X.Env, l: seq<X.LoadedGroup>, name: string)
    requires Valid(s) && Spelt(s.kids, s.info, id, l) && e.collate == s.env.collateKey
    ensures var i, k := X.FindGroup(e, l, name), s.env.collateKey(name);
            && (k in s.tables.groups <==> i < |l|) && (i < |l| ==> At(s.kids, None)[i] == s.tables.groups[k])
  {
    hide Linked, Placed, Sized, Indexed, Filed, Prioritized, Typed, TotalPreorder, ChildrenAre;
    Soundly(s, NOTHING);
    var i, k := X.FindGroup(e, l, name), s.env.collateKey(name);
    var t := At(s.kids, None);
    assert forall j :: 0 <= j < |l| ==> GroupIs(s.kids, s.info, id, t[j], l[j]);
    if k in s.tables.groups {
      var j :| 0 <= j < |t| && t[j] == s.tables.groups[k];
      assert e.collate(l[j].name) == k;
    }
    if i < |l| {
      assert t[i] in t;
    }
  }

  // ----------------------------------------------------------- two buddies, one key

  /** Two buddies of a group would be filed under one key. */
  predicate OneKey(normalize: (Account, string) -> string, id: Ids, x: X.LoadedBuddy, y: X.LoadedBuddy) {
    id(x.account) == id(y.account) && normalize(id(x.account), x.name) == normalize(id(y.account), y.name)
  }

  /** There is a buddy at place `k` of contact `j`. */
  predicate IsAt(l: seq<X.LoadedChild>, j: int, k: int) {
    0 <= j < |l| && l[j].Contact? && 0 <= k < |l[j].buddies|
  }

  /** Two buddies of the children `l` of a group have one key. */
  ghost predicate Twice(normalize: (Account, string) -> string, id: Ids, l: seq<X.LoadedChild>) {
    exists j, k, m, n ::
      IsAt(l, j, k) && IsAt(l, m, n) && (j != m || k != n) && OneKey(normalize, id, l[j].buddies[k], l[m].buddies[n])
  }

  /** A group has two such buddies. */
  ghost predicate TwiceIn(normalize: (Account, string) -> string, id: Ids, l: seq<X.LoadedGroup>) {
    exists i :: 0 <= i < |l| && Twice(normalize, id, l[i].children)
  }

  /** Contact `c'` has the buddies of `c`, and perhaps more behind them. */
  predicate Grown(c: X.LoadedChild, c': X.LoadedChild) {
    c.Contact? ==> c'.Contact? && c.buddies <= c'.buddies
  }

  lemma TwiceWithin(normalize: (Account, string) -> string, id: Ids, l: seq<X.LoadedChild>, l': seq<X.LoadedChild>,
                    p: nat)
    requires Twice(normalize, id, l) && p + |l| <= |l'| && forall j :: 0 <= j < |l| ==> Grown(l[j], l'[p + j])
    ensures Twice(normalize, id, l')
  {
    var j, k, m, n :|
      IsAt(l, j, k) && IsAt(l, m, n) && (j != m || k != n) && OneKey(normalize, id, l[j].buddies[k], l[m].buddies[n]);
    assert Grown(l[j], l'[p + j]) && Grown(l[m], l'[p + m]);
    assert IsAt(l', p + j, k) && IsAt(l', p + m, n);
  }

  /** Nothing that is read later makes the two different again. */
  lemma TwiceAtEnd(normalize: (Account, string) -> string, id: Ids, e: X.Env, l: seq<X.LoadedGroup>, name: string)
    requires TwiceIn(normalize, id, l)
    ensures TwiceIn(normalize, id, X.AtEnd(e, l, name))
  {
    hide Twice, X.FindGroup;
    var i :| 0 <= i < |l| && Twice(normalize, id, l[i].children);
    var f, r := X.FindGroup(e, l, name), X.AtEnd(e, l, name);
    var i' := if f == |l| || i < f then i else if i == f then |l| - 1 else i - 1;
    assert r[i'] == l[i];
  }

  /** Group `i` takes up more children in front or behind. */
  lemma TwiceMore(normalize: (Account, string) -> string, id: Ids, l: seq<X.LoadedGroup>, l': seq<X.LoadedGroup>,
                  i: nat, before: seq<X.LoadedChild>, after: seq<X.LoadedChild>)
    requires TwiceIn(normalize, id, l) && i < |l| && |l'| >= |l| && l'[i].children == before + l[i].children + after
    requires forall m :: 0 <= m < |l| && m != i ==> l'[m] == l[m]
    ensures TwiceIn(normalize, id, l')
  {
    var m :| 0 <= m < |l| && Twice(normalize, id, l[m].children);
    if m == i {
      var c, c' := l[i].children, l'[i].children;
      assert forall j :: 0 <= j < |c| ==> c'[|before| + j] == c[j];
      TwiceWithin(normalize, id, c, c', |before|);
    }
    assert Twice(normalize, id, l'[m].children);
  }

  lemma TwiceEnsured(normalize: (Account, string) -> string, id: Ids, e: X.Env, l: seq<X.LoadedGroup>, name: string)
    requires TwiceIn(normalize, id, l)
    ensures TwiceIn(normalize, id, X.Ensured(e, l, name))
  {
    hide Twice, X.FindGroup;
    var i :| 0 <= i < |l| && Twice(normalize, id, l[i].children);
    assert X.Ensured(e, l, name)[i] == l[i];
  }

  lemma TwiceInFront(normalize: (Account, string) -> string, id: Ids, e: X.Env, l: seq<X.LoadedGroup>, name: string,
                     c: X.LoadedChild)
    requires TwiceIn(normalize, id, l)
    ensures TwiceIn(normalize, id, X.InFront(e, l, name, c))
  {
    hide Twice, X.FindGroup, X.Ensured;
    var r := X.Ensured(e, l, name);
    var i := X.FindGroup(e, r, name);
    TwiceEnsured(normalize, id, e, l, name);
    assert [c] + r[i].children == [c] + r[i].children + [];
    TwiceMore(normalize, id, r, X.InFront(e, l, name, c), i, [c], []);
  }

  lemma {:induction false} TwiceStrays(normalize: (Account, string) -> string, id: Ids, e: X.Env, l: seq<X.LoadedGroup>,
                                       xs: seq<Xml.Element>)
    requires TwiceIn(normalize, id, l)
    ensures TwiceIn(normalize, id, X.ReadStrays(e, l, xs))
  {
    hide TwiceIn, X.InFront, X.Ensured, X.ReadContact, X.ReadChat;
    if xs != [] {
      var n := |xs| - 1;
      var r := X.ReadStrays(e, l, xs[..n]);
      TwiceStrays(normalize, id, e, l, xs[..n]);
      TwiceEnsured(normalize, id, e, r, e.buddies);
      if X.ReadContact(e, xs[n]).Some? {
        TwiceInFront(normalize, id, e, r, e.buddies, X.ReadContact(e, xs[n]).value);
      }
      if X.ReadChat(e, xs[n]).Some? {
        TwiceInFront(normalize, id, e, r, e.chats, X.ReadChat(e, xs[n]).value);
      }
    }
  }

  lemma TwiceGroup(normalize: (Account, string) -> string, id: Ids, e: X.Env, l: seq<X.LoadedGroup>, x: Xml.Element)
    requires TwiceIn(normalize, id, l)
    ensures TwiceIn(normalize, id, X.ReadGroup(e, l, x))
  {
    hide TwiceIn, X.AtEnd, X.ReadStrays, X.ReadChildren, X.PutAll, Xml.Named;
    var name := if "name" in x.attrs then x.attrs["name"] else e.buddies;
    if name == "" {
      TwiceStrays(normalize, id, e, l, x.children);
    } else {
      TwiceAtEnd(normalize, id, e, l, name);
      var r := X.AtEnd(e, l, name);
      var more := X.ReadChildren(e, x.children);
      assert [] + r[|r| - 1].children + more == r[|r| - 1].children + more;
      TwiceMore(normalize, id, r, X.ReadGroup(e, l, x), |r| - 1, [], more);
    }
  }

  lemma {:induction false} TwiceGroups(normalize: (Account, string) -> string, id: Ids, e: X.Env, l: seq<X.LoadedGroup>,
                                       xs: seq<Xml.Element>)
    requires TwiceIn(normalize, id, l)
    ensures TwiceIn(normalize, id, X.ReadGroups(e, l, xs))
  {
    hide TwiceIn, X.ReadGroup;
    if xs != [] {
      TwiceGroups(normalize, id, e, l, xs[..|xs| - 1]);
      TwiceGroup(normalize, id, e, X.ReadGroups(e, l, xs[..|xs| - 1]), xs[|xs| - 1]);
    }
  }

  /** Two buddies of group `g` have one key. */
  ghost predicate TwoAlike(s: State, g: Node) {
    exists b, c, o, d :: b != o && BuddyAt(s, b, c, g) && BuddyAt(s, o, d, g) && KeyIn(s, b, g) == KeyIn(s, o, g)
  }

  /** Where a buddy of group `g` is among what it spells. */
  lemma PlaceOf(s: State, id: Ids, g: Node, x: X.LoadedGroup, b: Node, c: Node) returns (j: int, k: int)
    requires GroupIs(s.kids, s.info, id, g, x) && BuddyAt(s, b, c, g)
    ensures IsAt(x.children, j, k) && At(s.kids, Some(g))[j] == c && At(s.kids, Some(c))[k] == b
    ensures BuddySpells(s.info, id, b, x.children[j].buddies[k])
  {
    j :| 0 <= j < |At(s.kids, Some(g))| && At(s.kids, Some(g))[j] == c;
    assert ChildIs(s.kids, s.info, id, c, x.children[j]);
    k :| 0 <= k < |At(s.kids, Some(c))| && At(s.kids, Some(c))[k] == b;
    assert BuddySpells(s.info, id, b, x.children[j].buddies[k]);
  }

  lemma TwoAlikeTwice(s: State, id: Ids, g: Node, x: X.LoadedGroup)
    requires GroupIs(s.kids, s.info, id, g, x) && TwoAlike(s, g)
    ensures Twice(s.env.normalize, id, x.children)
  {
    hide GroupIs, BuddyAt;
    var b, c, o, d :| b != o && BuddyAt(s, b, c, g) && BuddyAt(s, o, d, g) && KeyIn(s, b, g) == KeyIn(s, o, g);
    var j, k := PlaceOf(s, id, g, x, b, c);
    var m, n := PlaceOf(s, id, g, x, o, d);
    assert OneKey(s.env.normalize, id, x.children[j].buddies[k], x.children[m].buddies[n]);
  }

  /** The buddy at place `k` of child `j` of group `g`, and its key. */
  lemma KeyAt(s: State, id: Ids, g: Node, x: X.LoadedGroup, j: int, k: int)
    requires Valid(s) && GroupIs(s.kids, s.info, id, g, x) && IsAt(x.children, j, k)
    ensures var c, y := At(s.kids, Some(g))[j], x.children[j].buddies[k];
            && k < |At(s.kids, Some(c))|
            && var b := At(s.kids, Some(c))[k];
               && BuddyAt(s, b, c, g) && b in s.keyed && s.keyed[b] == KeyIn(s, b, g)
               && s.keyed[b] == Key(s.env.normalize(id(y.account), y.name), id(y.account), g)
    ensures NoDup(At(s.kids, Some(g))) && NoDup(At(s.kids, Some(At(s.kids, Some(g))[j])))
  {
    hide Linked, Placed, Sized, Indexed, Filed, Named, Prioritized, Typed, TotalPreorder;
    var c := At(s.kids, Some(g))[j];
    assert ChildIs(s.kids, s.info, id, c, x.children[j]);
    assert BuddySpells(s.info, id, At(s.kids, Some(c))[k], x.children[j].buddies[k]);
    var b := At(s.kids, Some(c))[k];
    HeadOf(s, Some(g));
    HeadOf(s, Some(c));
    Soundly(s, NOTHING);
    ChildOf(s.links, s.kids, s.info, {}, Some(c), b);
    ChildOf(s.links, s.kids, s.info, {}, Some(g), c);
    BuddyStands(s, NOTHING, b);
    FiledUnder(s, NOTHING, b, c, g);
  }

  /** No group of a list in order has two buddies of one key. */
  lemma ValidOnce(s: State, id: Ids, l: seq<X.LoadedGroup>)
    requires Valid(s) && Spelt(s.kids, s.info, id, l)
    ensures !TwiceIn(s.env.normalize, id, l)
  {
    hide Valid, GroupIs, BuddyAt;
    forall i | 0 <= i < |l| ensures !Twice(s.env.normalize, id, l[i].children) {
      var g, x := At(s.kids, None)[i], l[i];
      forall j, k, m, n | IsAt(x.children, j, k) && IsAt(x.children, m, n) && (j != m || k != n)
        ensures !OneKey(s.env.normalize, id, x.children[j].buddies[k], x.children[m].buddies[n])
      {
        ApartAt(s, id, g, x, j, k, m, n);
      }
    }
  }

  lemma ApartAt(s: State, id: Ids, g: Node, x: X.LoadedGroup, j: int, k: int, m: int, n: int)
    requires Valid(s) && GroupIs(s.kids, s.info, id, g, x) && IsAt(x.children, j, k) && IsAt(x.children, m, n)
    requires (j != m || k != n)
    ensures !OneKey(s.env.normalize, id, x.children[j].buddies[k], x.children[m].buddies[n])
  {
    hide Linked, Placed, Sized, Indexed, Filed, Named, Prioritized, Typed, TotalPreorder, GroupIs;
    GroupIsGroup(s.kids, s.info, id, g, x);
    KeyAt(s, id, g, x, j, k);
    KeyAt(s, id, g, x, m, n);
    var c, d := At(s.kids, Some(g))[j], At(s.kids, Some(g))[m];
    var b, o := At(s.kids, Some(c))[k], At(s.kids, Some(d))[n];
    assert b != o by {
      assert c == d ==> j == m;
    }
    OneKeyOneBuddy(s.tables, s.keyed, b, o) by { Soundly(s, NOTHING); }
  }
}
