/**
 purple_blist_load: the groups, contacts, chats and buddies of a file are put into the list by the operations that
 anyone else would use. Node ids are given out in order, from `next` on.
*/
module BlistLoad {
  import opened BlistSeq
  import opened Options
  import opened BlistLinks
  import opened BlistModel
  import opened BlistSteps
  import opened BlistMoves
  import opened BlistGroups
  import opened BlistFloat
  import opened BlistBuddies
  import opened BlistPlaces
  import opened BlistRename
  import opened BlistShape
  import opened Blist
  import Xml
  import X = BlistXml

  /** The list is in order, the reader sees it as it is, and no node has an id from `next` on. */
  ghost predicate Ready(s: State, e: X.Env, id: Ids, next: Node) {
    Valid(s) && Alike(e, id, s.env, s.tables.cache.Keys) && forall n :: n in s.info ==> n < next
  }

  /** No element has empty character data; what an XML parser makes of a file has none. */
  predicate Plain(x: Xml.Element) {
    x.data != Some("") && forall i :: 0 <= i < |x.children| ==> Plain(x.children[i])
  }

  lemma {:induction false} NamedPlain(l: seq<Xml.Element>, name: string)
    requires forall i :: 0 <= i < |l| ==> Plain(l[i])
    ensures forall i :: 0 <= i < |Xml.Named(l, name)| ==> Plain(Xml.Named(l, name)[i])
  {
    if l != [] {
      NamedPlain(l[1..], name);
    }
  }

  lemma {:induction false} FindAmong(e: X.Env, l: seq<X.Account>, name: string, protocol: string)
    ensures X.Find(e, l, name, protocol).Some? ==> X.Find(e, l, name, protocol).value in l
  {
    if l != [] {
      FindAmong(e, l[1..], name, protocol);
    }
  }

  /** A buddy that is read has a name and an account of the reader's. */
  lemma BuddyRead(e: X.Env, x: Xml.Element)
    requires Plain(x) && X.ReadBuddy(e, x).Some?
    ensures X.ReadBuddy(e, x).value.name != "" && X.ReadBuddy(e, x).value.account in e.accounts
  {
    hide X.PutAll, Xml.Named, X.Find;
    NamedPlain(x.children, "name");
    FindAmong(e, e.accounts, x.attrs["account"], X.OscarConvert(x.attrs["account"], X.Protocol(x).value));
  }

  lemma ChatRead(e: X.Env, x: Xml.Element)
    requires X.ReadChat(e, x).Some?
    ensures X.ReadChat(e, x).value.Chat? && X.ReadChat(e, x).value.account in e.accounts
  {
    hide X.PutAll, X.PutComponents, Xml.Named, X.Find;
    FindAmong(e, e.accounts, x.attrs["account"], X.Protocol(x).value);
  }

  // ------------------------------------------------------------------- buddies

  /** What the list has in `s'` of buddy `b`, which is `y`, behind the others of contact `c` in `s`. */
  ghost predicate BuddyGained(s: State, s': State, id: Ids, c: Node, b: Node, y: X.LoadedBuddy) {
    && s'.kids == s.kids[Some(b) := []][Some(c) := At(s.kids, Some(c)) + [b]]
    && s'.info == s.info[b := Info.Buddy(id(y.account), y.name, s.env.offline)]
    && s'.links.parent == s.links.parent[b := Some(c)]
  }

  /** The last buddy of contact `c` can be found, and is not the new one. */
  lemma NewcomerFits(s: State, c: Node, b: Node)
    requires Valid(s) && c in s.info && s.info[c].Contact? && c in s.links.parent && s.links.parent[c].Some?
    requires b in s.links.parent && s.links.parent[b] == None
    ensures Some(c) in s.kids && c in s.links.child && s.links.child[c] == First(s.kids[Some(c)])
    ensures NoDup(s.kids[Some(c)])
    ensures var a := Last(s.kids[Some(c)]);
            a.Some? ==> a.value in s.info && s.info[a.value].Buddy? && a.value in s.links.parent
                        && s.links.parent[a.value] == Some(c) && a.value != b
  {
    hide Valid;
    ChildStands(s, c);
    HeadOf(s, Some(c));
    ContactKids(s, c);
    var l := s.kids[Some(c)];
    assert l != [] ==> l[|l| - 1] in l;
  }

  /** The tables have nobody who is not there. */
  lemma TableBelow(s: State, k: Key)
    requires Valid(s) && k in s.tables.buddies
    ensures var o := s.tables.buddies[k];
            && Attached(s.links, s.info, o) && KeyOf(s.env, s.links, s.info, o) == k
            && s.links.parent[o].value in s.info
            && s.info[s.links.parent[o].value].Contact?
  {
    hide Linked, Placed, Sized, Named, Prioritized, Typed, TotalPreorder, Filed;
    Soundly(s, NOTHING);
    FiledAt(s, NOTHING.adrift + NOTHING.unfiled, s.tables.buddies[k]);
    BuddyStands(s, NOTHING, s.tables.buddies[k]);
  }

  lemma KeyOfNewcomer(s: State, s': State, b: Node, g: Node)
    requires Valid(s) && b !in s.info && b in s'.info && s'.info[b].Buddy? && s'.env == s.env && s'.tables == s.tables
    ensures Fresh(s', b, g) <==> KeyIn(s', b, g) !in s'.tables.buddies
  {
    hide Valid;
    if KeyIn(s', b, g) in s.tables.buddies {
      TableBelow(s, KeyIn(s', b, g));
    }
  }

  lemma BuddyPlaced(s0: State, s1: State, s': State, id: Ids, c: Node, g: Node, b: Node, y: X.LoadedBuddy, a: Ptr)
    requires s1.kids == s0.kids[Some(b) := []]
    requires s1.info == s0.info[b := Info.Buddy(id(y.account), y.name, s0.env.offline)]
    requires s1.links.parent == s0.links.parent[b := None] && b != c
    requires Repositions(s1, s', b, c, g, a) && NoDup(At(s1.kids, Some(c))) && a == Last(At(s1.kids, Some(c)))
    ensures BuddyGained(s0, s', id, c, b, y)
  {
    InsertLast(At(s1.kids, Some(c)), b);
  }

  /** The buddy and the one that had its key are both in the tree. */
  lemma StillAlike(s: State, s': State, c: Node, g: Node, b: Node)
    requires Valid(s) && !Fresh(s, b, g) && b in s.info && s.info[b].Buddy? && c in s.info && s.info[c].Contact?
    requires b in s.links.parent && s.links.parent[b] == None && c in s.links.parent && s.links.parent[c] == Some(g)
    requires Nearly(s', Displaced(s.tables, KeyIn(s, b, g), b)) && s'.info == s.info && s'.env == s.env
    requires s'.links.parent == s.links.parent[b := Some(c)]
    ensures TwoAlike(s', g)
  {
    hide Valid, Nearly, BuddyAt;
    var but, o := Displaced(s.tables, KeyIn(s, b, g), b), s.tables.buddies[KeyIn(s, b, g)];
    TableBelow(s, KeyIn(s, b, g));
    var d := s.links.parent[o].value;
    NearlyAt(s', o, but);
    NearlyAt(s', b, but);
    assert BuddyAt(s', b, c, g) && BuddyAt(s', o, d, g) && KeyIn(s', b, g) == KeyIn(s', o, g);
  }

  /**
   The buddy `y` is made, and goes behind the others of contact `c`; its group has two of its key then, or is in order.
  */
  method AppendBuddy(list: BuddyList, id: Ids, c: Node, group: Ptr, y: X.LoadedBuddy, next: Node) returns (ok: bool)
    requires Valid(list.S()) && None in list.kids && next !in list.info && next + 1 !in list.info
    requires next + 2 !in list.info
    requires y.name != "" && id(y.account) in list.tables.cache
    requires c in list.info && list.info[c].Contact? && c in list.links.parent && list.links.parent[c].Some?
    requires group.Some? ==> group.value in list.info && list.info[group.value].Group? && group.value in list.kids[None]
    modifies list
    ensures BuddyGained(old(list.S()), list.S(), id, c, next, y)
    ensures list.tables.cache.Keys == old(list.tables.cache.Keys)
    ensures if ok then Valid(list.S()) else TwoAlike(list.S(), old(list.links.parent[c]).value)
  {
    hide Linked, Placed, Sized, Indexed, Filed, Named, Prioritized, Typed, TotalPreorder, Sound, Valid, Nearly,
         Appeared, Repositions, BuddyComes, BuddyComesAlone, TwoAlike,
         BuddyAt, Displaced, KidsJoined, BuddyGained, Novel, Default, Namesake;
    var a := id(y.account);
    ghost var s0 := list.S();
    list.NewBuddy(a, y.name, next);
    ghost var s1 := list.S();
    AppearedFields(s0, next, Info.Buddy(a, y.name, list.env.offline));
    var g := list.links.parent[c].value;
    NewcomerFits(s1, c, next);
    var last := list.LastSibling(list.links.child[c], Some(c));
    ok := list.KeyFor(a, y.name, g) !in list.tables.buddies;
    KeyOfNewcomer(s0, s1, next, g);
    var _, _ := list.AddBuddy(next, Some(c), group, last, next + 1, next + 2);
    BuddyPlaced(s0, s1, list.S(), id, c, g, next, y, last);
    if !ok {
      StillAlike(s1, list.S(), c, g, next);
    }
  }

  /**
   parse_buddy: a buddy whose account and name are known goes behind the others of contact `c`. If a buddy of the
   group has its key already, `ok` is false, and the model stops: two of them are in the tree now.
  */
  method ParseBuddy(list: BuddyList, e: X.Env, id: Ids, c: Node, group: Ptr, x: Xml.Element, next: Node)
    returns (ok: bool, free: Node)
    requires Ready(list.S(), e, id, next) && Plain(x) && None in list.kids
    requires c in list.info && list.info[c].Contact? && c in list.links.parent && list.links.parent[c].Some?
    requires group.Some? ==> group.value in list.info && list.info[group.value].Group? && group.value in list.kids[None]
    modifies list
    ensures X.ReadBuddy(e, x) == None ==> ok && free == next && list.S() == old(list.S())
    ensures X.ReadBuddy(e, x).Some? ==>
              free == next + 1 && BuddyGained(old(list.S()), list.S(), id, c, next, X.ReadBuddy(e, x).value)
    ensures ok ==> Ready(list.S(), e, id, free)
    ensures !ok ==> X.ReadBuddy(e, x).Some? && TwoAlike(list.S(), old(list.links.parent[c]).value)
  {
    hide Valid, TwoAlike, X.ReadBuddy;
    ok, free := true, next;
    var buddy := X.ParseBuddy(e, x);
    if buddy.Some? {
      BuddyRead(e, x);
      ok := AppendBuddy(list, id, c, group, buddy.value, next);
      free := next + 1;
    }
  }

  // ------------------------------------------------------------------ contacts

  /** The tree, and the nodes, with group `host` in the list. */
  function HostKids(s: State, host: Node): Lists {
    if None in s.kids then Listed(s.kids, host) else s.kids
  }

  function HostInfo(s: State, host: Node, spare: Node, name: string): Infos {
    if host == spare then s.info[spare := Info.Group(name)] else s.info
  }

  /** Group `host` has got child `c`, whatever is in it, in front or at the end. */
  ghost predicate Holds(k: Lists, i: Infos, s: State, host: Node, c: Node, front: bool) {
    && At(s.kids, None) == At(k, None) && Extends(k, i, s.kids, s.info, {host})
    && At(s.kids, Some(host)) == PutNode(At(k, Some(host)), c, front)
    && c !in i && c in s.info && c in s.links.parent && s.links.parent[c] == Some(host) && host != c
    && host in s.info && s.info[host].Group? && host in At(s.kids, None)
  }

  /** The group a contact or chat goes to is listed, or is the spare one. */
  lemma HostStands(s: State, group: Ptr, name: string, spare: Node)
    requires Valid(s) && spare !in s.info && name != ""
    requires group.Some? ==> group.value in s.info && s.info[group.value].Group? && group.value in At(s.kids, None)
    ensures None in s.kids && NoDup(s.kids[None])
    ensures var host := Default(s, group, name, spare);
            host != spare ==> host in s.info && s.info[host].Group? && host in s.kids[None] && Some(host) in s.kids
    ensures spare !in s.kids[None] && Some(spare) !in s.kids
  {
    hide Valid;
    TypedNames(s);
    HeadOf(s, None);
    var k := s.env.collateKey(name);
    if group == None && k in s.tables.groups {
      GroupIndexed(s, k);
    }
    var host := Default(s, group, name, spare);
    if host in s.info && s.info[host].Group? {
      GroupListed(s, host);
    }
    NotThere(s, spare);
  }

  /** What a new contact has, that goes behind `a` in group `host`, or in front. */
  lemma NewcomerRehomed(h: State, c: Node, host: Node, a: Ptr)
    requires c in h.links.parent && h.links.parent[c] == None
    ensures Rehomed(h, c, host, a) == h.kids[Some(host) := InsertAfter(At(h.kids, Some(host)), a, c)]
    ensures Minus(h.info, Casualties(h, c, host)) == h.info
  {
    hide Kept, InsertAfter;
  }

  /** A new node `n` stands in its group; `a` is where it was to go. */
  lemma NewcomerHeld(s: State, s': State, n: Node, x: Info, group: Ptr, name: string, host: Node, spare: Node, a: Ptr)
    requires Valid(s) && Valid(s') && n !in s.info && spare !in s.info && n != spare && None in s.kids && name != ""
    requires group.Some? ==> group.value in s.info && s.info[group.value].Group? && group.value in s.kids[None]
    requires host == Default(s, group, name, spare) && a == if group.Some? then Last(At(s.kids, group)) else None
    requires var k := Listed(s.kids[Some(n) := []], host);
             s'.kids == k[Some(host) := InsertAfter(At(k, Some(host)), a, n)]
    requires s'.info == HostInfo(s, host, spare, name)[n := x]
    ensures Holds(HostKids(s, host), HostInfo(s, host, spare, name), s', host, n, group == None)
    ensures Some(n) in s'.kids && s'.kids[Some(n)] == []
  {
    hide Valid, InsertAfter;
    HostStands(s, group, name, spare);
    NotThere(s, n);
    var k := HostKids(s, host);
    if group.Some? {
      HeadOf(s, group);
      InsertLast(At(s.kids, group), n);
    } else {
      InsertFront(At(k, Some(host)), n);
    }
    HeldBy(s', host, n);
  }

  lemma LastChild(s: State, g: Node)
    requires Valid(s) && g in s.info && s.info[g].Group?
    ensures Some(g) in s.kids && g in s.links.child
    ensures var a := Last(s.kids[Some(g)]);
            a.Some? ==> a.value in s.info && (s.info[a.value].Contact? || s.info[a.value].Chat?)
                        && a.value in s.links.parent && s.links.parent[a.value] == Some(g)
  {
    hide Valid;
    GroupListed(s, g);
    GroupKids(s, g);
    var l := s.kids[Some(g)];
    assert l != [] ==> l[|l| - 1] in l;
  }

  lemma InsertFront(s: seq<Node>, n: Node)
    ensures InsertAfter(s, None, n) == [n] + s
  {
  }

  lemma ContactHeld(s: State, s1: State, s': State, c: Node, group: Ptr, host: Node, spare: Node, a: Ptr)
    requires Valid(s) && Valid(s') && c !in s.info && spare !in s.info && c != spare && None in s.kids
    requires s1.kids == s.kids[Some(c) := []] && s1.info == s.info[c := Contact]
    requires s1.links.parent == s.links.parent[c := None]
    requires group.Some? ==> group.value in s.info && s.info[group.value].Group? && group.value in s.kids[None]
    requires host == Default(s, group, s.env.buddiesGroup, spare) && a == if group.Some? then Last(At(s.kids, group))
               else None
    requires var h := Hosted(s1, host, spare, s.env.buddiesGroup);
             c in h.links.parent && s'.kids == Rehomed(h, c, host, a)
                 && s'.info == Minus(h.info, Casualties(h, c, host))
    ensures var i := HostInfo(s, host, spare, s.env.buddiesGroup);
            Holds(HostKids(s, host), i, s', host, c, group == None) && s'.info == i[c := Contact]
    ensures Some(c) in s'.kids && s'.kids[Some(c)] == []
  {
    hide Valid, InsertAfter, Rehomed, Minus, Casualties, Holds, Default, HostKids;
    TypedNames(s);
    NewcomerRehomed(Hosted(s1, host, spare, s.env.buddiesGroup), c, host, a);
    NewcomerHeld(s, s', c, Contact, group, s.env.buddiesGroup, host, spare, a);
  }

  /** A new contact `c` at the end of its group, or in front in the default group. */
  method PlaceContact(list: BuddyList, c: Node, group: Ptr, spare: Node) returns (host: Node)
    requires Valid(list.S()) && None in list.kids && c !in list.info && spare !in list.info && c != spare
    requires group.Some? ==> group.value in list.info && list.info[group.value].Group? && group.value in list.kids[None]
    modifies list
    ensures Valid(list.S()) && list.tables.cache.Keys == old(list.tables.cache.Keys)
    ensures host == Default(old(list.S()), group, list.env.buddiesGroup, spare)
    ensures var i := HostInfo(old(list.S()), host, spare, list.env.buddiesGroup);
            Holds(HostKids(old(list.S()), host), i, list.S(), host, c, group == None) && list.info == i[c := Contact]
    ensures Some(c) in list.kids && list.kids[Some(c)] == []
  {
    hide Valid, Appeared, Rehomed, Casualties, Bereaved, Minus, InsertAfter, Holds, HostKids, HostInfo, Hosted;
    ghost var s0 := list.S();
    TypedNames(s0);
    list.NewContact(c);
    ghost var s1 := list.S();
    AppearedFields(s0, c, Contact);
    var last: Ptr := None;
    if group.Some? {
      LastChild(s0, group.value);
      HeadOf(s1, group);
      last := list.LastSibling(list.links.child[group.value], group);
    }
    host := list.AddContact(c, group, last, spare);
    ContactHeld(s0, s1, list.S(), c, group, host, spare, last);
  }

  /** The first `i` children of the element `x` of contact `c` have been read. */
  ghost predicate Reading(k: Lists, inf: Infos, s: State, e: X.Env, id: Ids, host: Node, c: Node, front: bool,
                          x: Xml.Element, i: nat) {
    && i <= |x.children| && Holds(k, inf, s, host, c, front) && s.info[c].Contact? && Some(c) in s.kids
    && BuddiesAre(s.info, id, s.kids[Some(c)], X.ReadBuddies(e, Xml.Named(x.children[..i], "buddy")))
  }

  lemma ReadingStart(k: Lists, inf: Infos, s: State, e: X.Env, id: Ids, host: Node, c: Node, front: bool,
                     x: Xml.Element)
    requires Holds(k, inf, s, host, c, front) && s.info[c].Contact? && Some(c) in s.kids && s.kids[Some(c)] == []
    ensures Reading(k, inf, s, e, id, host, c, front, x, 0)
  {
    hide Holds;
    assert x.children[..0] == [];
  }

  lemma ReadingNext(k: Lists, inf: Infos, s: State, s': State, e: X.Env, id: Ids, host: Node, c: Node, front: bool,
                    x: Xml.Element, i: nat, b: Node)
    requires Reading(k, inf, s, e, id, host, c, front, x, i) && i < |x.children| && b !in s.info
    requires var y := if x.children[i].name == "buddy" then X.ReadBuddy(e, x.children[i]) else None;
             if y.Some? then BuddyGained(s, s', id, c, b, y.value) else s' == s
    ensures Reading(k, inf, s', e, id, host, c, front, x, i + 1)
  {
    hide X.ReadBuddy, Xml.Named, Holds;
    X.NamedNext(x.children, i, "buddy");
    var l, y := Xml.Named(x.children[..i], "buddy"), if x.children[i].name == "buddy" then X.ReadBuddy(e, x.children[i])
          else None;
    if x.children[i].name == "buddy" {
      assert (l + [x.children[i]])[..|l|] == l;
      if y.Some? {
        HoldsStill(k, inf, s, s', id, host, c, front, b, y.value);
        MoreBuddies(s, s', id, c, b, X.ReadBuddies(e, l), y.value) by { assert Holds(k, inf, s, host, c, front); }
      } else {
        assert X.ReadBuddies(e, l) + [] == X.ReadBuddies(e, l);
      }
    }
  }

  lemma HoldsStill(k: Lists, inf: Infos, s: State, s': State, id: Ids, host: Node, c: Node, front: bool, b: Node,
                   y: X.LoadedBuddy)
    requires Holds(k, inf, s, host, c, front) && b !in s.info && BuddyGained(s, s', id, c, b, y)
    ensures Holds(k, inf, s', host, c, front)
  {
  }

  lemma MoreBuddies(s: State, s': State, id: Ids, c: Node, b: Node, l: seq<X.LoadedBuddy>, y: X.LoadedBuddy)
    requires c in s.info && b !in s.info && BuddyGained(s, s', id, c, b, y)
    requires BuddiesAre(s.info, id, At(s.kids, Some(c)), l)
    ensures s'.info[c] == s.info[c] && Some(c) in s'.kids && BuddiesAre(s'.info, id, s'.kids[Some(c)], l + [y])
  {
  }

  /** An empty contact that goes again leaves no trace in the tree. */
  lemma ContactDropped(k: Lists, inf: Infos, s: State, s': State, host: Node, c: Node, front: bool)
    requires Valid(s) && Holds(k, inf, s, host, c, front) && Some(c) in s.kids && s.kids[Some(c)] == []
    requires Some(host) in s.kids
    requires var gone := Elements(s.kids[Some(c)]) + {c};
             && s'.kids == KidsMinus(s.kids[Some(host) := Without(s.kids[Some(host)], c)], gone)
             && s'.info == Minus(s.info, gone)
    ensures Extends(k, inf, s'.kids, s'.info, {}) && At(s'.kids, None) == At(k, None)
  {
    hide Valid, Without, NoDup;
    HeadOf(s, Some(host));
    TakenOut(At(k, Some(host)), c, front);
    assert Elements(s.kids[Some(c)]) + {c} == {c};
  }

  lemma TakenOut(l: seq<Node>, c: Node, front: bool)
    requires NoDup(PutNode(l, c, front))
    ensures Without(PutNode(l, c, front), c) == l
  {
    WithoutAt(PutNode(l, c, front), if front then 0 else |l|);
  }

  lemma ReadyPlaced(s: State, s': State, e: X.Env, id: Ids, next: Node, host: Node, name: string, x: Info)
    requires Ready(s, e, id, next) && Valid(s') && s'.env == s.env && s'.tables.cache.Keys == s.tables.cache.Keys
    requires s'.info == HostInfo(s, host, next + 1, name)[next := x]
    ensures Ready(s', e, id, next + 2)
  {
    hide Valid, Alike;
  }

  /** Where the contact stands that is being read. */
  lemma InGroup(k: Lists, inf: Infos, s: State, e: X.Env, id: Ids, host: Node, c: Node, front: bool, x: Xml.Element,
                i: nat)
    requires Reading(k, inf, s, e, id, host, c, front, x, i)
    ensures None in s.kids && host in s.kids[None] && host in s.info && s.info[host].Group? && Some(host) in s.kids
    ensures Some(c) in s.kids
    ensures c in s.info && s.info[c].Contact? && c in s.links.parent && s.links.parent[c] == Some(host) && host != c
    ensures Holds(k, inf, s, host, c, front)
  {
  }

  lemma Somebody(s: State, s': State, id: Ids, c: Node, b: Node, y: X.LoadedBuddy)
    requires BuddyGained(s, s', id, c, b, y)
    ensures At(s'.kids, Some(c)) != []
  {
  }

  /** What has become of a list in which group `host` was to get what child `o` there may be. */
  ghost predicate Takes(k: Lists, inf: Infos, s: State, id: Ids, host: Node, n: Node, o: Option<X.LoadedChild>,
                        front: bool) {
    match o
    case None => Extends(k, inf, s.kids, s.info, {}) && At(s.kids, None) == At(k, None)
    case Some(y) => Gains(k, inf, s.kids, s.info, id, host, n, y, front)
  }

  lemma ReadingDone(k: Lists, inf: Infos, s: State, e: X.Env, id: Ids, host: Node, c: Node, front: bool, x: Xml.Element)
    requires Reading(k, inf, s, e, id, host, c, front, x, |x.children|)
    ensures s.kids[Some(c)] == [] <==> X.ReadContact(e, x) == None
    ensures X.ReadContact(e, x).Some? ==> Takes(k, inf, s, id, host, c, X.ReadContact(e, x), front)
  {
    hide X.PutAll, Xml.Named, X.ReadBuddies, Extends;
    assert x.children[..|x.children|] == x.children;
  }

  /**
   parse_contact: a contact at the end of its group, or in front in the default one, with the buddies of its element;
   it goes again if it has none. `ok` is false as soon as a buddy has the key of another one of the group; `seen`
   children have been read then.
  */
  method ParseContact(list: BuddyList, e: X.Env, id: Ids, group: Ptr, x: Xml.Element, next: Node)
    returns (ok: bool, free: Node, ghost host: Node, ghost seen: nat)
    requires Ready(list.S(), e, id, next) && None in list.kids && Plain(x)
    requires group.Some? ==> group.value in list.info && list.info[group.value].Group? && group.value in list.kids[None]
    modifies list
    ensures host == Default(old(list.S()), group, list.env.buddiesGroup, next + 1)
    ensures var k, inf := HostKids(old(list.S()), host), HostInfo(old(list.S()), host, next + 1, list.env.buddiesGroup);
            if ok then Ready(list.S(), e, id, free)
               && Takes(k, inf, list.S(), id, host, next, X.ReadContact(e, x), group == None)
            else Reading(k, inf, list.S(), e, id, host, next, group == None, x, seen) && TwoAlike(list.S(), host)
                 && At(list.kids, Some(next)) != []
  {
    hide Valid, Extends, Holds, Reading, BuddyGained, TwoAlike, X.ReadContact, X.ReadBuddy, Gains, HostKids, HostInfo,
         Alike;
    ghost var s0 := list.S();
    var c := next;
    host := PlaceContact(list, c, group, next + 1);
    free := next + 2;
    ghost var k, inf := HostKids(s0, host), HostInfo(s0, host, next + 1, list.env.buddiesGroup);
    ReadyPlaced(s0, list.S(), e, id, next, host, list.env.buddiesGroup, Contact);
    ReadingStart(k, inf, list.S(), e, id, host, c, group == None, x);
    seen := 0;
    for i := 0 to |x.children|
      invariant Ready(list.S(), e, id, free) && seen == i
      invariant Reading(k, inf, list.S(), e, id, host, c, group == None, x, i)
    {
      ghost var s := list.S();
      InGroup(k, inf, s, e, id, host, c, group == None, x, i);
      ok := true;
      var b := free;
      if x.children[i].name == "buddy" {
        ok, free := ParseBuddy(list, e, id, c, group, x.children[i], free);
      }
      seen := i + 1;
      ReadingNext(k, inf, s, list.S(), e, id, host, c, group == None, x, i, b);
      if !ok {
        Somebody(s, list.S(), id, c, b, X.ReadBuddy(e, x.children[i]).value);
        return;
      }
    }
    ok := true;
    InGroup(k, inf, list.S(), e, id, host, c, group == None, x, seen);
    ReadingDone(k, inf, list.S(), e, id, host, c, group == None, x);
    HeadOf(list.S(), Some(c));
    if list.links.child[c] == None {
      ghost var s := list.S();
      list.RemoveContact(c);
      ContactDropped(k, inf, s, list.S(), host, c, group == None);
    }
  }

  // --------------------------------------------------------------------- chats

  /** A new chat `n` at the end of its group, or in front in the chats' default group. */
  method PlaceChat(list: BuddyList, n: Node, a: Account, group: Ptr, spare: Node) returns (host: Node)
    requires Valid(list.S()) && None in list.kids && n !in list.info && spare !in list.info && n != spare
    requires group.Some? ==> group.value in list.info && list.info[group.value].Group? && group.value in list.kids[None]
    modifies list
    ensures Valid(list.S()) && list.tables.cache.Keys == old(list.tables.cache.Keys)
    ensures host == Default(old(list.S()), group, list.env.chatsGroup, spare)
    ensures var i := HostInfo(old(list.S()), host, spare, list.env.chatsGroup);
            Holds(HostKids(old(list.S()), host), i, list.S(), host, n, group == None) && list.info == i[n := Chat(a)]
  {
    hide Valid, Appeared, InsertAfter, Holds, HostKids, HostInfo, Listed, Namesake;
    ghost var s0 := list.S();
    TypedNames(s0);
    list.NewChat(a, n);
    ghost var s1 := list.S();
    AppearedFields(s0, n, Chat(a));
    var last: Ptr := None;
    if group.Some? {
      LastChild(s0, group.value);
      HeadOf(s1, group);
      last := list.LastSibling(list.links.child[group.value], group);
    }
    host := list.AddChat(n, group, last, spare);
    ChatHeld(s0, s1, list.S(), n, a, group, host, spare, last);
  }

  lemma ChatHeld(s: State, s1: State, s': State, n: Node, a: Account, group: Ptr, host: Node, spare: Node, p: Ptr)
    requires Valid(s) && Valid(s') && n !in s.info && spare !in s.info && n != spare && None in s.kids
    requires s1.kids == s.kids[Some(n) := []] && s1.info == s.info[n := Chat(a)]
    requires group.Some? ==> group.value in s.info && s.info[group.value].Group? && group.value in s.kids[None]
    requires host == Default(s, group, s.env.chatsGroup, spare) && p == if group.Some? then Last(At(s.kids, group))
               else None
    requires s'.kids == Moved(Listed(s1.kids, host), None, n, host, p)
    requires s'.info == if host == spare then s1.info[spare := Group(s.env.chatsGroup)] else s1.info
    ensures var i := HostInfo(s, host, spare, s.env.chatsGroup);
            Holds(HostKids(s, host), i, s', host, n, group == None) && s'.info == i[n := Chat(a)]
  {
    hide Valid, InsertAfter, Holds, Default, HostKids;
    TypedNames(s);
    NewcomerHeld(s, s', n, Chat(a), group, s.env.chatsGroup, host, spare, p);
  }

  /** parse_chat: a chat whose account is known at the end of its group, or in front in the chats' default group. */
  method ParseChat(list: BuddyList, e: X.Env, id: Ids, group: Ptr, x: Xml.Element, next: Node)
    returns (free: Node, ghost host: Node)
    requires Ready(list.S(), e, id, next) && None in list.kids
    requires group.Some? ==> group.value in list.info && list.info[group.value].Group? && group.value in list.kids[None]
    modifies list
    ensures host == Default(old(list.S()), group, list.env.chatsGroup, next + 1) && Ready(list.S(), e, id, free)
    ensures X.ReadChat(e, x) == None ==> list.S() == old(list.S())
    ensures X.ReadChat(e, x).Some? ==>
              Takes(HostKids(old(list.S()), host), HostInfo(old(list.S()), host, next + 1, list.env.chatsGroup),
                    list.S(), id, host, next,
                    X.ReadChat(e, x), group == None)
  {
    hide Valid, X.ReadChat, HostKids, HostInfo, Alike, Extends;
    host, free := Default(list.S(), group, list.env.chatsGroup, next + 1), next;
    var chat := X.ParseChat(e, x);
    if chat.Some? {
      ghost var s0 := list.S();
      ChatRead(e, x);
      host := PlaceChat(list, next, id(chat.value.account), group, next + 1);
      free := next + 2;
      ReadyPlaced(s0, list.S(), e, id, next, host, list.env.chatsGroup, Chat(id(chat.value.account)));
    }
  }

  // ------------------------------------------------- children of the default groups

  /** The list with the default group of that name in it, as the reader sees it. */
  lemma HostSpelt(s: State, e: X.Env, id: Ids, l: seq<X.LoadedGroup>, name: string, spare: Node)
    requires Valid(s) && Spelt(s.kids, s.info, id, l) && e.collate == s.env.collateKey && spare !in s.info && name != ""
    ensures var host, r := Default(s, None, name, spare), X.Ensured(e, l, name);
            var k, i := HostKids(s, host), X.FindGroup(e, r, name);
            && Spelt(k, HostInfo(s, host, spare, name), id, r) && NoDup(At(k, None)) && i < |r|
            && At(k, None)[i] == host
  {
    hide Valid, GroupIs, X.FindGroup;
    HostStands(s, None, name, spare);
    GroupFound(s, id, e, l, name);
    var host, r := Default(s, None, name, spare), X.Ensured(e, l, name);
    if host == spare {
      var k, inf := HostKids(s, host), HostInfo(s, host, spare, name);
      forall i | 0 <= i < |r| ensures GroupIs(k, inf, id, At(k, None)[i], r[i]) {
        if i < |l| {
          GroupStill(s.kids, s.info, k, inf, {}, id, At(s.kids, None)[i], l[i]);
        } else {
          EmptyGroup(k, inf, id, spare, name);
        }
      }
    }
  }

  lemma EmptyGroup(k: Lists, inf: Infos, id: Ids, g: Node, name: string)
    requires g in inf && inf[g] == Info.Group(name) && At(k, Some(g)) == []
    ensures GroupIs(k, inf, id, g, X.LoadedGroup.Group(name, [], map[], false))
  {
  }

  /** The list read so far when group `i` gets what child `o` there may be. */
  function PutMaybe(l: seq<X.LoadedGroup>, i: nat, o: Option<X.LoadedChild>, front: bool): seq<X.LoadedGroup>
    requires i < |l|
  {
    if o.Some? then PutChild(l, i, o.value, front) else l
  }

  lemma TakesSpelt(k: Lists, inf: Infos, s: State, id: Ids, l: seq<X.LoadedGroup>, i: nat, n: Node,
                   o: Option<X.LoadedChild>, front: bool)
    requires Spelt(k, inf, id, l) && NoDup(At(k, None)) && i < |l| && Takes(k, inf, s, id, At(k, None)[i], n, o, front)
    ensures Spelt(s.kids, s.info, id, PutMaybe(l, i, o, front))
  {
    hide GroupIs, Gains, Extends;
    if o.Some? {
      SpeltPut(k, inf, s.kids, s.info, id, l, i, n, o.value, front);
    } else {
      SpeltStill(k, inf, s.kids, s.info, id, l);
    }
  }

  lemma {:induction false} ReadBoth(e: X.Env, l: seq<Xml.Element>, r: seq<Xml.Element>)
    ensures X.ReadBuddies(e, l + r) == X.ReadBuddies(e, l) + X.ReadBuddies(e, r)
  {
    hide X.ReadBuddy;
    if r == [] {
      assert l + r == l;
    } else {
      var n := |r| - 1;
      assert (l + r)[..|l + r| - 1] == l + r[..n];
      ReadBoth(e, l, r[..n]);
    }
  }

  /** What has been read of a contact is the beginning of it. */
  lemma PartRead(e: X.Env, x: Xml.Element, i: nat)
    requires i <= |x.children|
    ensures X.ReadBuddies(e, Xml.Named(x.children[..i], "buddy")) <= X.ReadBuddies(e, Xml.Named(x.children, "buddy"))
  {
    assert x.children == x.children[..i] + x.children[i..];
    Xml.NamedBoth(x.children[..i], x.children[i..], "buddy");
    ReadBoth(e, Xml.Named(x.children[..i], "buddy"), Xml.Named(x.children[i..], "buddy"));
  }

  /** Two buddies of one key met while contact `c` was read: they meet in what is read in the end, too. */
  lemma MetTwice(k: Lists, inf: Infos, s: State, e: X.Env, id: Ids, l: seq<X.LoadedGroup>, i: nat, c: Node, front: bool,
                 x: Xml.Element, seen: nat)
    requires Spelt(k, inf, id, l) && NoDup(At(k, None)) && i < |l|
    requires Reading(k, inf, s, e, id, At(k, None)[i], c, front, x, seen)
    requires TwoAlike(s, At(k, None)[i]) && At(s.kids, Some(c)) != []
    ensures X.ReadContact(e, x).Some?
    ensures TwiceIn(s.env.normalize, id, PutChild(l, i, X.ReadContact(e, x).value, front))
  {
    hide TwoAlike, GroupIs, Extends, Twice, X.ReadBuddies, Xml.Named, BuddySpells, X.PutAll;
    var buddies := X.ReadBuddies(e, Xml.Named(x.children[..seen], "buddy"));
    PartRead(e, x, seen);
    var part, whole := X.LoadedChild.Contact(None, buddies, map[], false), X.ReadContact(e, x).value;
    var host, l' := At(k, None)[i], PutChild(l, i, part, front);
    SpeltPut(k, inf, s.kids, s.info, id, l, i, c, part, front);
    assert GroupIs(s.kids, s.info, id, host, l'[i]);
    TwoAlikeTwice(s, id, host, l'[i]);
    var a, b := l'[i].children, PutChild(l, i, whole, front)[i].children;
    forall j | 0 <= j < |a| ensures Grown(a[j], b[0 + j]) {
    }
    TwiceWithin(s.env.normalize, id, a, b, 0);
  }

  /** A child of a group without a name. */
  method ParseStray(list: BuddyList, e: X.Env, id: Ids, x: Xml.Element, next: Node, ghost l: seq<X.LoadedGroup>)
    returns (ok: bool, free: Node)
    requires Ready(list.S(), e, id, next) && Spelt(list.kids, list.info, id, l) && Plain(x)
    modifies list
    ensures if ok then Ready(list.S(), e, id, free) && Spelt(list.kids, list.info, id, X.ReadStray(e, l, x))
            else TwiceIn(list.env.normalize, id, X.ReadStray(e, l, x))
  {
    hide Valid, Spelt, X.ReadContact, X.ReadChat, HostKids, HostInfo, Default, Reading, TwoAlike, Takes, X.FindGroup,
         X.Ensured, TwiceIn, Plain;
    ghost var s0 := list.S();
    TypedNames(s0);
    ok, free := true, next;
    if x.name == "contact" || x.name == "person" {
      ghost var host, seen;
      HostSpelt(s0, e, id, l, e.buddies, next + 1);
      ok, free, host, seen := ParseContact(list, e, id, None, x, next);
      ghost var k, inf, r := HostKids(s0, host), HostInfo(s0, host, next + 1, e.buddies), X.Ensured(e, l, e.buddies);
      ghost var i := X.FindGroup(e, r, e.buddies);
      if ok {
        TakesSpelt(k, inf, list.S(), id, r, i, next, X.ReadContact(e, x), true);
      } else {
        MetTwice(k, inf, list.S(), e, id, r, i, next, true, x, seen);
      }
    } else if x.name == "chat" {
      ghost var host;
      HostSpelt(s0, e, id, l, e.chats, next + 1);
      free, host := ParseChat(list, e, id, None, x, next);
      if X.ReadChat(e, x).Some? {
        ghost var r := X.Ensured(e, l, e.chats);
        TakesSpelt(HostKids(s0, host), HostInfo(s0, host, next + 1, e.chats), list.S(), id, r,
                   X.FindGroup(e, r, e.chats), next,
                   X.ReadChat(e, x), true);
      }
    }
  }

  method ParseStrays(list: BuddyList, e: X.Env, id: Ids, xs: seq<Xml.Element>, next: Node, ghost l: seq<X.LoadedGroup>)
    returns (ok: bool, free: Node)
    requires Ready(list.S(), e, id, next) && Spelt(list.kids, list.info, id, l)
    requires forall i :: 0 <= i < |xs| ==> Plain(xs[i])
    modifies list
    ensures if ok then Ready(list.S(), e, id, free) && Spelt(list.kids, list.info, id, X.ReadStrays(e, l, xs))
            else TwiceIn(list.env.normalize, id, X.ReadStrays(e, l, xs))
  {
    hide Ready, Spelt, X.ReadStray, TwiceIn, Plain;
    ok, free := true, next;
    for i := 0 to |xs|
      invariant Ready(list.S(), e, id, free) && Spelt(list.kids, list.info, id, X.ReadStrays(e, l, xs[..i])) && ok
    {
      assert xs[..i + 1][..i] == xs[..i];
      ok, free := ParseStray(list, e, id, xs[i], free, X.ReadStrays(e, l, xs[..i]));
      if !ok {
        StraysOn(e, l, xs, i + 1);
        TwiceStrays(list.env.normalize, id, e, X.ReadStrays(e, l, xs[..i + 1]), xs[i + 1..]);
        return;
      }
    }
    assert xs[..|xs|] == xs;
  }

  lemma {:induction false} StraysOn(e: X.Env, l: seq<X.LoadedGroup>, xs: seq<Xml.Element>, i: nat)
    requires i <= |xs|
    ensures X.ReadStrays(e, l, xs) == X.ReadStrays(e, X.ReadStrays(e, l, xs[..i]), xs[i..])
    decreases |xs|
  {
    hide X.ReadStray;
    if i == |xs| {
      assert xs[..i] == xs;
    } else {
      var n := |xs| - 1;
      StraysOn(e, l, xs[..n], i);
      assert xs[..n][..i] == xs[..i] && xs[..n][i..] == xs[i..][..|xs[i..]| - 1];
    }
  }

  // -------------------------------------------------------------------- groups

  /** Putting a listed group behind the last one. */
  lemma ToEnd(t: seq<Node>, i: nat)
    requires NoDup(t) && i + 1 < |t|
    ensures Last(t) != Some(t[i]) && InsertAfter(Without(t, t[i]), Last(t), t[i]) == t[..i] + t[i + 1..] + [t[i]]
  {
    hide InsertAfter, Without, NoDup;
    var r := t[..i] + t[i + 1..];
    WithoutKeeps(t, t[i]);
    WithoutAt(t, i);
    assert r[|r| - 1] == t[|t| - 1];
    LastApart(t, i);
    InsertLast(r, t[i]);
  }

  lemma LastApart(t: seq<Node>, i: nat)
    requires NoDup(t) && i + 1 < |t|
    ensures t[|t| - 1] != t[i]
  {
  }

  lemma NewToEnd(t: seq<Node>, g: Node)
    requires NoDup(t) && g !in t
    ensures Last(t) != Some(g) && InsertAfter(Without(t, g), Last(t), g) == t + [g]
  {
    hide InsertAfter, Without;
    WithoutAbsent(t, g);
    InsertLast(t, g);
  }

  /** Group `i`, and what it spells, at the end. */
  lemma SpeltMoved(kids: Lists, kids': Lists, info: Infos, id: Ids, l: seq<X.LoadedGroup>, i: nat)
    requires Spelt(kids, info, id, l) && None in kids && i < |l|
    requires var t := kids[None]; kids' == kids[None := t[..i] + t[i + 1..] + [t[i]]]
    ensures Spelt(kids', info, id, l[..i] + l[i + 1..] + [l[i]])
  {
    hide GroupIs;
    var t, l' := kids[None], l[..i] + l[i + 1..] + [l[i]];
    forall j | 0 <= j < |l'| ensures GroupIs(kids', info, id, kids'[None][j], l'[j]) {
      var m := if j < i then j else if j < |l| - 1 then j + 1 else i;
      assert kids'[None][j] == t[m] && l'[j] == l[m];
      GroupStill(kids, info, kids', info, {}, id, t[m], l[m]);
    }
  }

  /** A new group, and nothing in it, at the end. */
  lemma SpeltNew(kids: Lists, info: Infos, kids': Lists, info': Infos, id: Ids, l: seq<X.LoadedGroup>, g: Node,
                 name: string)
    requires Spelt(kids, info, id, l) && g !in info && info' == info[g := Info.Group(name)] && None in kids
    requires kids' == kids[Some(g) := []][None := kids[None] + [g]]
    ensures Spelt(kids', info', id, l + [X.LoadedGroup.Group(name, [], map[], false)])
  {
    hide GroupIs;
    var l' := l + [X.LoadedGroup.Group(name, [], map[], false)];
    forall j | 0 <= j < |l'| ensures GroupIs(kids', info', id, kids'[None][j], l'[j]) {
      if j < |l| {
        GroupStill(kids, info, kids', info', {}, id, kids[None][j], l[j]);
      } else {
        EmptyGroup(kids', info', id, g, name);
      }
    }
  }

  /** What purple_group_new gives: the group of that name, or a new one; `s` is before and `s'` after. */
  ghost predicate Given(s: State, s': State, name: string, g: Node, next: Node) {
    var k := s.env.collateKey(name);
    && s'.env == s.env && s'.tables == s.tables && Valid(s') && None in s.kids
    && if k in s.tables.groups then g == s.tables.groups[k] && s' == s
       else g == next && s'.kids == s.kids[Some(g) := []] && s'.info == s.info[g := Info.Group(name)]
  }

  lemma GivenStands(s: State, s': State, e: X.Env, id: Ids, name: string, g: Node, next: Node)
    requires Ready(s, e, id, next) && Given(s, s', name, g, next)
    ensures g in s'.info && s'.info[g].Group? && None in s'.kids && NoDup(s'.kids[None])
    ensures s'.kids[None] == s.kids[None]
    ensures NameKey(s', g) == s.env.collateKey(name) && (Namesake(s', g) == None || Namesake(s', g) == Some(g))
    ensures var a := Last(s'.kids[None]);
            a.Some? ==> a.value in s'.info && s'.info[a.value].Group? && a.value in s'.kids[None]
    ensures next !in s.kids[None] && Some(next) !in s.kids
  {
    hide Valid;
    NotThere(s, next);
    HeadOf(s', None);
    var k := s.env.collateKey(name);
    if k in s.tables.groups {
      GroupIndexed(s, k);
    }
    var t := s'.kids[None];
    if t != [] {
      assert t[|t| - 1] in t;
      TopIsGroup(s', t[|t| - 1]);
    }
  }

  lemma TopIsGroup(s: State, n: Node)
    requires Valid(s) && None in s.kids && n in s.kids[None]
    ensures n in s.info && s.info[n].Group?
  {
    hide Linked, Placed, Sized, Indexed, Filed, Prioritized, Typed, TotalPreorder;
    Soundly(s, NOTHING);
  }

  lemma GivenAtEnd(s: State, s1: State, s': State, e: X.Env, id: Ids, l: seq<X.LoadedGroup>, name: string, g: Node,
                   next: Node)
    requires Ready(s, e, id, next) && Given(s, s1, name, g, next) && Spelt(s.kids, s.info, id, l) && None in s1.kids
    requires s'.env == s1.env && s'.info == s1.info && s'.tables.cache == s1.tables.cache
    requires if Last(s1.kids[None]) == Some(g) && s1.kids[None] != [] then s' == s1
             else Valid(s')
                  && s'.kids == s1.kids[None := InsertAfter(Without(s1.kids[None], g), Last(s1.kids[None]), g)]
    ensures Ready(s', e, id, next + 1) && Spelt(s'.kids, s'.info, id, X.AtEnd(e, l, name))
    ensures None in s'.kids && s'.kids[None] != [] && Last(s'.kids[None]) == Some(g) && g in s'.info
    ensures s'.info[g].Group?
  {
    hide Valid, InsertAfter, Without, GroupIs, X.FindGroup, Namesake, NameKey;
    GivenStands(s, s1, e, id, name, g, next);
    GroupFound(s, id, e, l, name);
    var i, t := X.FindGroup(e, l, name), s.kids[None];
    if i < |l| {
      if i + 1 < |l| {
        ToEnd(t, i);
        SpeltMoved(s.kids, s'.kids, s.info, id, l, i);
      } else {
        assert l[..i] + l[i + 1..] + [l[i]] == l;
      }
    } else {
      NewToEnd(t, g);
      SpeltNew(s.kids, s.info, s'.kids, s'.info, id, l, g, name);
    }
  }

  /**
   purple_group_new and purple_blist_add_group as parse_group uses them: the group of that name is the last one now.
  */
  method PlaceGroup(list: BuddyList, e: X.Env, id: Ids, name: string, next: Node, ghost l: seq<X.LoadedGroup>)
    returns (g: Node)
    requires Ready(list.S(), e, id, next) && Spelt(list.kids, list.info, id, l) && name != ""
    modifies list
    ensures Ready(list.S(), e, id, next + 1) && Spelt(list.kids, list.info, id, X.AtEnd(e, l, name))
    ensures None in list.kids && list.kids[None] != [] && Last(list.kids[None]) == Some(g) && g in list.info
    ensures list.info[g].Group?
  {
    hide Valid, Appeared, InsertAfter, Without, Spelt, X.AtEnd, Alike, NameKey, Namesake;
    ghost var s0 := list.S();
    g := list.NewGroup(name, next);
    ghost var s1 := list.S();
    AppearedFields(s0, next, Group(name));
    GivenStands(s0, s1, e, id, name, g, next);
    HeadOf(s1, None);
    var last := list.LastSibling(list.links.root, None);
    list.AddGroup(g, last);
    GivenAtEnd(s0, s1, list.S(), e, id, l, name, g, next);
  }

  /** The last group with what is read from the elements `xs` behind the children it has. */
  function Filled(e: X.Env, r: seq<X.LoadedGroup>, xs: seq<Xml.Element>): seq<X.LoadedGroup>
    requires r != []
  {
    r[|r| - 1 := r[|r| - 1].(children := r[|r| - 1].children + X.ReadChildren(e, xs))]
  }

  lemma FilledNext(e: X.Env, r: seq<X.LoadedGroup>, xs: seq<Xml.Element>, i: nat)
    requires r != [] && i < |xs|
    ensures Filled(e, r, xs[..i + 1]) == PutMaybe(Filled(e, r, xs[..i]), |r| - 1, X.ReadChild(e, xs[i]), false)
  {
    hide X.ReadChild;
    X.MoreChildren(e, r[|r| - 1].children, xs, i);
  }

  lemma {:induction false} ReadChildrenBoth(e: X.Env, l: seq<Xml.Element>, r: seq<Xml.Element>)
    ensures X.ReadChildren(e, l + r) == X.ReadChildren(e, l) + X.ReadChildren(e, r)
  {
    hide X.ReadChild;
    if r == [] {
      assert l + r == l;
    } else {
      var n := |r| - 1;
      assert (l + r)[..|l + r| - 1] == l + r[..n];
      ReadChildrenBoth(e, l, r[..n]);
    }
  }

  /** What meets in part of a group meets in the whole. */
  lemma FilledTwice(normalize: (Account, string) -> string, id: Ids, e: X.Env, r: seq<X.LoadedGroup>,
                    xs: seq<Xml.Element>, i: nat)
    requires r != [] && i <= |xs| && TwiceIn(normalize, id, Filled(e, r, xs[..i]))
    ensures TwiceIn(normalize, id, Filled(e, r, xs))
  {
    hide TwiceIn, X.ReadChildren;
    assert xs == xs[..i] + xs[i..];
    ReadChildrenBoth(e, xs[..i], xs[i..]);
    var part, whole, n := Filled(e, r, xs[..i]), Filled(e, r, xs), |r| - 1;
    assert whole[n].children == [] + part[n].children + X.ReadChildren(e, xs[i..]);
    TwiceMore(normalize, id, part, whole, n, [], X.ReadChildren(e, xs[i..]));
  }

  /** Group `g` is the last one of the list. */
  ghost predicate LastGroup(s: State, g: Node) {
    None in s.kids && s.kids[None] != [] && Last(s.kids[None]) == Some(g) && g in s.info && s.info[g].Group?
  }

  /** Nothing has to be made for a child of a listed group. */
  lemma LastStays(s: State, g: Node, name: string, spare: Node)
    requires LastGroup(s, g) && spare !in s.info && Valid(s)
    ensures HostKids(s, g) == s.kids && HostInfo(s, g, spare, name) == s.info && Default(s, Some(g), name, spare) == g
    ensures g in s.kids[None] && NoDup(At(s.kids, None)) && At(s.kids, None)[|At(s.kids, None)| - 1] == g
  {
    hide Valid;
    HeadOf(s, None);
    assert s.kids[None][|s.kids[None]| - 1] in s.kids[None];
  }

  lemma StaysLast(s: State, s': State, id: Ids, g: Node, n: Node, o: Option<X.LoadedChild>)
    requires LastGroup(s, g) && Takes(s.kids, s.info, s', id, g, n, o, false)
    ensures LastGroup(s', g)
  {
    hide ChildIs;
  }

  /** A child of the last group, `g`; `l` is the list so far. */
  method ParseChild(list: BuddyList, e: X.Env, id: Ids, g: Node, x: Xml.Element, next: Node,
                    ghost l: seq<X.LoadedGroup>)
    returns (ok: bool, free: Node)
    requires Ready(list.S(), e, id, next) && Spelt(list.kids, list.info, id, l) && l != [] && LastGroup(list.S(), g)
    requires Plain(x)
    modifies list
    ensures var l' := PutMaybe(l, |l| - 1, X.ReadChild(e, x), false);
            if ok then Ready(list.S(), e, id, free) && Spelt(list.kids, list.info, id, l') && LastGroup(list.S(), g)
            else TwiceIn(list.env.normalize, id, l')
  {
    hide Valid, GroupIs, X.ReadContact, X.ReadChat, HostKids, HostInfo, Default, Reading, TwoAlike, Takes, TwiceIn,
         Plain, PutChild, Alike;
    ghost var s0, i := list.S(), |l| - 1;
    LastStays(s0, g, list.env.buddiesGroup, next + 1);
    LastStays(s0, g, list.env.chatsGroup, next + 1);
    ok, free := true, next;
    if x.name == "contact" || x.name == "person" {
      ghost var host, seen;
      ok, free, host, seen := ParseContact(list, e, id, Some(g), x, next);
      if ok {
        TakesSpelt(s0.kids, s0.info, list.S(), id, l, i, next, X.ReadContact(e, x), false);
        StaysLast(s0, list.S(), id, g, next, X.ReadContact(e, x));
      } else {
        MetTwice(s0.kids, s0.info, list.S(), e, id, l, i, next, false, x, seen);
      }
    } else if x.name == "chat" {
      ghost var host;
      free, host := ParseChat(list, e, id, Some(g), x, next);
      if X.ReadChat(e, x).Some? {
        TakesSpelt(s0.kids, s0.info, list.S(), id, l, i, next, X.ReadChat(e, x), false);
        StaysLast(s0, list.S(), id, g, next, X.ReadChat(e, x));
      }
    }
  }

  /** The tree says nothing of settings. */
  lemma SpeltSettings(kids: Lists, info: Infos, id: Ids, l: seq<X.LoadedGroup>, i: nat, t: Xml.Table)
    requires Spelt(kids, info, id, l) && i < |l|
    ensures Spelt(kids, info, id, l[i := l[i].(settings := t)])
  {
    hide ChildrenAre;
  }

  /** The children of the last group, one by one. */
  method ParseChildren(list: BuddyList, e: X.Env, id: Ids, g: Node, xs: seq<Xml.Element>, next: Node,
                       ghost r: seq<X.LoadedGroup>)
    returns (ok: bool, free: Node)
    requires Ready(list.S(), e, id, next) && Spelt(list.kids, list.info, id, r) && r != [] && LastGroup(list.S(), g)
    requires forall i :: 0 <= i < |xs| ==> Plain(xs[i])
    modifies list
    ensures if ok then Ready(list.S(), e, id, free) && Spelt(list.kids, list.info, id, Filled(e, r, xs))
            else TwiceIn(list.env.normalize, id, Filled(e, r, xs))
  {
    hide Ready, Spelt, X.ReadChild, TwiceIn, Plain, LastGroup, PutMaybe;
    ok, free := true, next;
    assert Filled(e, r, xs[..0]) == r by {
      assert r[|r| - 1].children + [] == r[|r| - 1].children;
    }
    for i := 0 to |xs|
      invariant Ready(list.S(), e, id, free) && Spelt(list.kids, list.info, id, Filled(e, r, xs[..i]))
      invariant LastGroup(list.S(), g) && ok
    {
      FilledNext(e, r, xs, i);
      ok, free := ParseChild(list, e, id, g, xs[i], free, Filled(e, r, xs[..i]));
      if !ok {
        FilledTwice(list.env.normalize, id, e, r, xs, i + 1);
        return;
      }
    }
    assert xs[..|xs|] == xs;
  }

  /**
   parse_group: the group of the element's name, or of the default name, goes to the end and takes up the element's
   children; no group has an empty name, so that the children go to the default groups then.
  */
  method ParseGroup(list: BuddyList, e: X.Env, id: Ids, x: Xml.Element, next: Node, ghost l: seq<X.LoadedGroup>)
    returns (ok: bool, free: Node)
    requires Ready(list.S(), e, id, next) && Spelt(list.kids, list.info, id, l) && Plain(x)
    modifies list
    ensures if ok then Ready(list.S(), e, id, free) && Spelt(list.kids, list.info, id, X.ReadGroup(e, l, x))
            else TwiceIn(list.env.normalize, id, X.ReadGroup(e, l, x))
  {
    hide Ready, Spelt, X.ReadChild, X.ReadStrays, TwiceIn, X.AtEnd, X.PutAll, Xml.Named, X.ReadChildren;
    var name := if "name" in x.attrs then x.attrs["name"] else e.buddies;
    if name == "" {
      ok, free := ParseStrays(list, e, id, x.children, next, l);
      return;
    }
    var g := PlaceGroup(list, e, id, name, next, l);
    ghost var n := |X.AtEnd(e, l, name)| - 1;
    ghost var r := X.AtEnd(e, l, name);
    r := r[n := r[n].(settings := X.PutAll(r[n].settings, Xml.Named(x.children, "setting")))];
    SpeltSettings(list.kids, list.info, id, X.AtEnd(e, l, name), n, r[n].settings);
    assert Filled(e, r, x.children) == X.ReadGroup(e, l, x);
    ok, free := ParseChildren(list, e, id, g, x.children, next + 1, r);
  }

  lemma {:induction false} GroupsOn(e: X.Env, l: seq<X.LoadedGroup>, xs: seq<Xml.Element>, i: nat)
    requires i <= |xs|
    ensures X.ReadGroups(e, l, xs) == X.ReadGroups(e, X.ReadGroups(e, l, xs[..i]), xs[i..])
    decreases |xs|
  {
    hide X.ReadGroup;
    if i == |xs| {
      assert xs[..i] == xs;
    } else {
      var n := |xs| - 1;
      GroupsOn(e, l, xs[..n], i);
      assert xs[..n][..i] == xs[..i] && xs[..n][i..] == xs[i..][..|xs[i..]| - 1];
    }
  }

  /** The loop of purple_blist_load over the groups of the file. */
  method ParseGroups(list: BuddyList, e: X.Env, id: Ids, xs: seq<Xml.Element>, next: Node, ghost l: seq<X.LoadedGroup>)
    returns (ok: bool, free: Node)
    requires Ready(list.S(), e, id, next) && Spelt(list.kids, list.info, id, l)
    requires forall i :: 0 <= i < |xs| ==> Plain(xs[i])
    modifies list
    ensures if ok then Ready(list.S(), e, id, free) && Spelt(list.kids, list.info, id, X.ReadGroups(e, l, xs))
            else TwiceIn(list.env.normalize, id, X.ReadGroups(e, l, xs))
  {
    hide Ready, Spelt, X.ReadGroup, TwiceIn, Plain;
    ok, free := true, next;
    for i := 0 to |xs|
      invariant Ready(list.S(), e, id, free) && Spelt(list.kids, list.info, id, X.ReadGroups(e, l, xs[..i])) && ok
    {
      assert xs[..i + 1][..i] == xs[..i];
      ok, free := ParseGroup(list, e, id, xs[i], free, X.ReadGroups(e, l, xs[..i]));
      if !ok {
        GroupsOn(e, l, xs, i + 1);
        TwiceGroups(list.env.normalize, id, e, X.ReadGroups(e, l, xs[..i + 1]), xs[i + 1..]);
        return;
      }
    }
    assert xs[..|xs|] == xs;
  }

  lemma ReadyIs(s: State, e: X.Env, id: Ids, next: Node)
    requires Ready(s, e, id, next)
    ensures Valid(s)
  {
  }

  lemma ListPlain(x: Xml.Element, xs: seq<Xml.Element>)
    requires Plain(x) && Xml.Child(x, "blist").Some? && xs == Xml.Named(Xml.Child(x, "blist").value.children, "group")
    ensures forall i :: 0 <= i < |xs| ==> Plain(xs[i])
  {
    NamedPlain(x.children, "blist");
    NamedPlain(Xml.Child(x, "blist").value.children, "group");
  }

  /**
   purple_blist_load: what the file holds goes onto the list `l` that there is. The list is in order afterwards, and
   spells what is read, if and only if no group that is read has two buddies of one key.
  */
  method Load(list: BuddyList, e: X.Env, id: Ids, file: Option<Xml.Element>, next: Node, ghost l: seq<X.LoadedGroup>)
    returns (ok: bool, free: Node)
    requires Ready(list.S(), e, id, next) && Spelt(list.kids, list.info, id, l) && (file.Some? ==> Plain(file.value))
    modifies list
    ensures ok <==> !TwiceIn(list.env.normalize, id, X.ReadList(e, l, file))
    ensures ok ==> Ready(list.S(), e, id, free) && Spelt(list.kids, list.info, id, X.ReadList(e, l, file))
  {
    hide Ready, Spelt, X.ReadGroups, TwiceIn, Plain;
    ok, free := true, next;
    if file.Some? && Xml.Child(file.value, "blist").Some? {
      var xs := Xml.Named(Xml.Child(file.value, "blist").value.children, "group");
      ListPlain(file.value, xs);
      ok, free := ParseGroups(list, e, id, xs, next, l);
    }
    if ok {
      ReadyIs(list.S(), e, id, free);
      ValidOnce(list.S(), id, X.ReadList(e, l, file));
    }
  }

  /** A file in which a buddy stands twice, in two contacts of a group. */
  lemma StandsTwice(normalize: (Account, string) -> string, id: Ids, a: X.Account)
    ensures var contact := X.LoadedChild.Contact(None, [X.LoadedBuddy.Buddy(a, "x", None, map[], false)], map[], false);
            TwiceIn(normalize, id, [X.LoadedGroup.Group("a", [contact, contact], map[], false)])
  {
    var contact := X.LoadedChild.Contact(None, [X.LoadedBuddy.Buddy(a, "x", None, map[], false)], map[], false);
    var l := [contact, contact];
    assert IsAt(l, 0, 0) && IsAt(l, 1, 0);
    assert Twice(normalize, id, [X.LoadedGroup.Group("a", l, map[], false)][0].children);
  }

  // ------------------------------------------------------------------- restarting

  lemma {:induction false} RereadPlain(x: Xml.Element)
    ensures Plain(Xml.Reread(x))
  {
    forall i | 0 <= i < |x.children| ensures Plain(Xml.Reread(x).children[i]) {
      RereadPlain(x.children[i]);
    }
  }

  /** No two groups of a list in order have names that compare equal. */
  lemma SpeltDistinct(s: State, e: X.Env, id: Ids, l: seq<X.LoadedGroup>)
    requires Valid(s) && Spelt(s.kids, s.info, id, l) && e.collate == s.env.collateKey
    ensures X.Distinct(e, l)
  {
    hide Valid, ChildrenAre;
    var t := At(s.kids, None);
    TypedNames(s);
    HeadOf(s, None);
    forall i, j | 0 <= i < j < |l| ensures e.collate(l[i].name) != e.collate(l[j].name) {
      assert GroupIs(s.kids, s.info, id, t[i], l[i]) && GroupIs(s.kids, s.info, id, t[j], l[j]);
      GroupListed(s, t[i]);
      GroupListed(s, t[j]);
    }
  }

  /**
   What was saved is there after a restart: a list that was written, read into an empty list, is in order and spells
   what is kept of it, if and only if no two groups of that have names that compare equal and no group two buddies of
   one key.
  */
  method Restart(env: Env, known: set<Account>, e: X.Env, id: Ids, l: seq<X.WalkedGroup>, buddies: string,
                 privacy: seq<Xml.Element>)
    returns (list: BuddyList, ok: bool)
    requires TotalPreorder(env) && !env.isOnline(env.offline) && env.buddiesGroup != "" && env.chatsGroup != ""
    requires Alike(e, id, env, known) && forall i :: 0 <= i < |l| ==> l[i].name != ""
    ensures ok ==> Valid(list.S())
    ensures var kept := X.KeptGroups(e, l, buddies);
            (ok && Spelt(list.kids, list.info, id, kept) <==> X.Distinct(e, kept) && !TwiceIn(env.normalize, id, kept))
  {
    hide Valid, TwiceIn, X.KeptGroups, X.Distinct, TotalPreorder, X.ReadList, X.ListElement;
    list := new BuddyList(env, known);
    assert Spelt(list.kids, list.info, id, []);
    var file := Xml.Reread(X.ListElement(l, buddies, privacy));
    RereadPlain(X.ListElement(l, buddies, privacy));
    X.RoundTrip(e, l, buddies, privacy);
    var free;
    ok, free := Load(list, e, id, Some(file), 0, []);
    ghost var kept := X.KeptGroups(e, l, buddies);
    if ok && Spelt(list.kids, list.info, id, kept) {
      SpeltDistinct(list.S(), e, id, kept);
      ValidOnce(list.S(), id, kept);
    }
  }
}
