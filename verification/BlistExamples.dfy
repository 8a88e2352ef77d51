/**
 A small list, valid, at which the conditions under which libpurple/blist.c keeps its list in order fail: two groups
 that have a buddy in common, by key, and beside them a group outside the list that is called like the second.
*/
module BlistExamples {
  import opened BlistSeq
  import opened Options
  import opened BlistLinks
  import opened BlistModel
  import opened BlistSteps
  import opened BlistGroups
  import opened BlistFloat
  import opened BlistBuddies
  import opened BlistMerge
  import opened BlistStatus
  import opened BlistRename

  /** Names as they are; "a" and "A" are equal ignoring case, and no others but equal ones. */
  function Plainly(): Env {
    Env((a: Account, n: string) => n, (n: string) => n,
        (m: string, n: string) => m == n || (m == "a" && n == "A") || (m == "A" && n == "a"),
        (p: Presence, q: Presence) => p - q, (p: Presence) => false, 0, false, "Buddies", "Chats")
  }

  /** The name of the second group, equal to that of the first ignoring case or not. */
  function Second(same: bool): string { if same then "A" else "b" }

  /**
   The nodes: groups 0 and 1 with contacts 2 and 3; buddy 4 in the one, 5 and 6 in the other; group 7 outside the list.
  */
  function ParentOf(n: Node): Ptr {
    if n == 2 then Some(0) else if n == 3 then Some(1) else if n == 4 then Some(2) else if n == 5 || n == 6 then Some(3)
    else None
  }

  function ChildrenOf(q: Ptr): seq<Node> {
    if q == None then [0, 1]
    else if q == Some(0) then [2] else if q == Some(1) then [3] else if q == Some(2) then [4] else if q == Some(3)
    then [5, 6] else []
  }

  function InfoOf(same: bool): Node -> Info {
    (n: Node) =>
      if n == 0 then Group("a") else if n == 1 || n == 7 then Group(Second(same))
      else if n == 2 || n == 3 then Contact else Buddy(0, if n == 6 then "y" else "x", 0)
  }

  function PrevOf(n: Node): Ptr {
    if n == 1 then Some(0) else if n == 6 then Some(5) else None
  }

  function NextOf(n: Node): Ptr {
    if n == 0 then Some(1) else if n == 5 then Some(6) else None
  }

  function KeyFor(n: Node): Key {
    Key(if n == 6 then "y" else "x", 0, if n == 4 then 0 else 1)
  }

  function ChildOf(n: Node): Ptr { First(ChildrenOf(Some(n))) }

  function SizeOf(n: Node): int { |ChildrenOf(Some(n))| }

  function NoCount(n: Node): int { 0 }

  function NoDrift(n: Node): nat { 0 }

  function NoBuddy(n: Node): Ptr { None }

  function NotValid(n: Node): bool { false }

  /** A field of every node. */
  function Field<V>(f: Node -> V): map<Node, V> {
    map n: Node | n < 8 :: f(n)
  }

  function Pointers(): Links {
    Links(Some(0), Field(PrevOf), Field(NextOf), Field(ParentOf), Field(ChildOf))
  }

  function Tree(): Lists {
    (map n: Node | n < 8 :: Some(n) := ChildrenOf(Some(n)))[None := [0, 1]]
  }

  function Keys(): map<Node, Key> {
    map n: Node | 4 <= n < 7 :: KeyFor(n)
  }

  function Entries(): map<Key, Node> {
    map n: Node | 4 <= n < 7 :: KeyFor(n) := n
  }

  function Sizing(): Sizes {
    Sizes(Field(SizeOf), Field(NoCount), Field(NoCount))
  }

  function Twins(same: bool): State {
    State(Plainly(), Pointers(), Tree(), Tree(), Field(InfoOf(same)), Sizing(), Field(NoDrift),
          Priorities(Field(NoBuddy), Field(NotValid)),
          Tables(Entries(), map[0 := Entries()], map["a" := 0, Second(same) := 1]), Keys(), {})
  }

  lemma FieldAt<V>(f: Node -> V)
    ensures forall n: Node :: n in Field(f) <==> n < 8
    ensures forall n: Node :: n in Field(f) ==> Field(f)[n] == f(n)
  {
    forall n: Node ensures (n in Field(f) <==> n < 8) && (n in Field(f) ==> Field(f)[n] == f(n)) {
      InField(f, n);
    }
  }

  lemma InField<V>(f: Node -> V, n: Node)
    ensures (n in Field(f) <==> n < 8) && (n in Field(f) ==> Field(f)[n] == f(n))
  {
    var v := f(n);
  }

  lemma SameKeys<V, W>(f: Node -> V, g: Node -> W)
    ensures Field(f).Keys == Field(g).Keys
  {
    FieldAt(f);
    FieldAt(g);
  }

  lemma PointersAt(n: Node)
    ensures var l := Pointers();
            && l.root == Some(0) && l.prev.Keys == l.next.Keys == l.parent.Keys == l.child.Keys
            && (n in l.prev <==> n < 8) && (n in l.next <==> n < 8) && (n in l.parent <==> n < 8)
            && (n in l.child <==> n < 8)
            && (n < 8 ==> l.prev[n] == PrevOf(n) && l.next[n] == NextOf(n) && l.parent[n] == ParentOf(n)
                          && l.child[n] == First(ChildrenOf(Some(n))))
  {
    hide Field, ChildrenOf, ParentOf, PrevOf, NextOf;
    FieldAt(PrevOf);
    FieldAt(NextOf);
    FieldAt(ParentOf);
    FieldAt(ChildOf);
    SameKeys(PrevOf, NextOf);
    SameKeys(NextOf, ParentOf);
    SameKeys(ParentOf, ChildOf);
  }

  lemma TreeAt(q: Ptr)
    ensures q in Tree() <==> q == None || q.value < 8
    ensures q in Tree() ==> Tree()[q] == ChildrenOf(q)
  {
  }

  lemma ChildrenAre(q: Ptr)
    ensures var s := ChildrenOf(q);
            && NoDup(s) && |s| <= 2 && (s != [] ==> q == None || q.value < 4)
            && forall i :: 0 <= i < |s| ==>
                 && s[i] < 8 && s[i] != 7 && ParentOf(s[i]) == q && PrevOf(s[i]) == Before(s, i)
                 && NextOf(s[i]) == After(s, i)
  {
  }

  lemma ChainOf(q: Ptr)
    requires q == None || q.value < 8
    ensures Chain(Pointers(), q, ChildrenOf(q))
  {
    var l, s := Pointers(), ChildrenOf(q);
    hide Pointers, ParentOf, PrevOf, NextOf;
    ChildrenAre(q);
    PointersAt(if q == None then 0 else q.value);
    forall i | 0 <= i < |s|
      ensures Live(l, s[i]) && l.parent[s[i]] == q && l.prev[s[i]] == Before(s, i)
              && l.next[s[i]] == After(s, i)
    {
      PointersAt(s[i]);
    }
  }

  lemma TwinsLinked()
    ensures Linked(Pointers(), Tree())
  {
    hide Chain, ChildrenOf, Tree, Pointers;
    PointersAt(0);
    forall q ensures q in Tree() <==> HasHead(Pointers(), q) {
      TreeAt(q);
      if q.Some? { PointersAt(q.value); }
    }
    forall q | q in Tree() ensures Chain(Pointers(), q, Tree()[q]) {
      TreeAt(q);
      ChainOf(q);
    }
  }

  lemma TwinsPlaced(same: bool)
    ensures Placed(Pointers(), Tree(), Field(InfoOf(same)), {})
  {
    hide Tree, Pointers, Siblings, Standing, InfoOf, ChildrenOf;
    var l, t, n := Pointers(), Tree(), Field(InfoOf(same));
    TreeAt(None);
    FieldAt(InfoOf(same));
    forall m ensures m in n <==> m in l.child {
      PointersAt(m);
    }
    forall q | q in t ensures Siblings(l, n, {}, q, t[q]) {
      TreeAt(q);
      SiblingsOf(same, q);
    }
    forall m | m in n ensures Standing(l, t, n, {}, m) {
      StandingOf(same, m);
    }
  }

  /** Groups on top, contacts in groups, buddies in contacts. */
  lemma FitsOf(same: bool, q: Ptr, i: nat)
    requires i < |ChildrenOf(q)|
    ensures Fits(Field(InfoOf(same)), q, ChildrenOf(q)[i])
  {
    FieldAt(InfoOf(same));
  }

  lemma SiblingsOf(same: bool, q: Ptr)
    requires q == None || q.value < 8
    ensures Siblings(Pointers(), Field(InfoOf(same)), {}, q, ChildrenOf(q))
  {
    hide Pointers, ChildrenOf, ParentOf, PrevOf, NextOf, InfoOf, Fits, Field;
    ChainOf(q);
    var s := ChildrenOf(q);
    forall n | n in s ensures Child(Pointers(), Field(InfoOf(same)), {}, q, n) {
      var i :| 0 <= i < |s| && s[i] == n;
      FitsOf(same, q, i);
    }
  }

  lemma StandingOf(same: bool, m: Node)
    requires m < 8
    ensures Standing(Pointers(), Tree(), Field(InfoOf(same)), {}, m)
  {
    hide Tree, Pointers, Field;
    TreeAt(Some(m));
    TreeAt(ParentOf(m));
    PointersAt(m);
    FieldAt(InfoOf(same));
  }

  lemma NobodyConnected(same: bool)
    ensures var s := Twins(same);
            && ConnectedNodes(s.info, s.connected) == {} && OnlineNodes(s.env, s.info, s.connected) == {}
            && Counting(s.info, s.connected, s.sizes.current) == {}
            && Counting(s.info, s.connected, s.sizes.online) == {}
  {
    hide Tree, Pointers, Entries, Keys, InfoOf, Field;
    FieldAt(NoCount);
  }

  lemma SizedOf(same: bool, n: Node)
    requires n < 8
    ensures var s := Twins(same);
            && (s.info[n].Contact? ==> ContactSized(s, n)) && (s.info[n].Group? ==> GroupSized(s, n))
  {
    var s := Twins(same);
    hide Tree, Pointers, Entries, Keys, InfoOf, ChildrenOf, Field, ConnectedNodes, OnlineNodes, Counting;
    NobodyConnected(same);
    FieldAt(SizeOf);
    FieldAt(NoCount);
    FieldAt(NoDrift);
    TreeAt(Some(n));
    CountZero(ChildrenOf(Some(n)), {});
  }

  lemma TwinsSized(same: bool)
    ensures Sized(Twins(same))
  {
    var s := Twins(same);
    FieldAt(InfoOf(same));
    hide Tree, Pointers, Entries, Keys, InfoOf, ContactSized, GroupSized, Sizing, Field;
    forall n | n in s.info && s.info[n].Contact? ensures ContactSized(s, n) {
      SizedOf(same, n);
    }
    forall n | n in s.info && s.info[n].Group? ensures GroupSized(s, n) {
      SizedOf(same, n);
    }
  }

  lemma TwinsIndexed(same: bool)
    ensures Indexed(Twins(same).tables, Keys())
  {
    hide Tree, Pointers, Keys, InfoOf, Sizing, Field, Entries, OfAccount;
    EntriesAre();
  }

  lemma TwinsFiled(same: bool)
    ensures Filed(Twins(same), {})
  {
    hide Filed, BuddyFiled, Twins;
    var s := Twins(same);
    forall b ensures BuddyFiled(s, {}, b) {
      FiledOf(same, b);
    }
    FiledBy(s, {});
  }

  lemma FiledOf(same: bool, b: Node)
    ensures BuddyFiled(Twins(same), {}, b)
  {
    hide Pointers, Field, Tree, Sizing, Entries;
    FieldAt(InfoOf(same));
    PointersAt(b);
    if ParentOf(b).Some? {
      PointersAt(ParentOf(b).value);
    }
  }

  lemma EntriesAre()
    ensures OfAccount(Entries(), 0) == Entries()
    ensures forall b :: b in Keys() ==> Keys()[b] in Entries() && Entries()[Keys()[b]] == b
    ensures forall k :: k in Entries() ==> Entries()[k] in Keys() && Keys()[Entries()[k]] == k && k.account == 0
  {
  }

  lemma NamesDiffer(same: bool)
    ensures Second(same) != "a" && Second(same) != ""
  {
  }

  lemma TwinsNamed(same: bool)
    ensures var s := Twins(same); None in s.kids && Named(s.env, s.tables.groups, s.kids[None], s.info)
  {
    hide Pointers, Field, Tree, Sizing, Entries, Keys, Second, ChildrenOf;
    TreeAt(None);
    FieldAt(InfoOf(same));
    NamesDiffer(same);
    Shape();
    var s := Twins(same);
    var list, groups := s.kids[None], s.tables.groups;
    assert list == [0, 1];
    assert s.info[0] == Group("a") && s.info[1] == Group(Second(same));
    assert groups["a"] == 0 && groups[Second(same)] == 1;
  }

  lemma TwinsTyped(same: bool)
    ensures var s := Twins(same);
            Typed(s.env, s.info, s.links.parent, s.tables.cache, s.connected) && TotalPreorder(s.env)
  {
    hide Pointers, Field, Tree, Sizing, Entries, Keys;
    FieldAt(InfoOf(same));
  }

  lemma TwinsValid(same: bool)
    ensures Valid(Twins(same))
  {
    var s := Twins(same);
    TwinsLinked();
    TwinsPlaced(same);
    TwinsSized(same);
    TwinsIndexed(same);
    TwinsFiled(same);
    TwinsNamed(same);
    TwinsTyped(same);
    TwinsPrioritized(same);
    hide Linked, Placed, Sized, Indexed, Filed, Named, Typed, TotalPreorder, Prioritized, Pointers, Field, Tree,
         Sizing, Entries, Keys;
    assert NOTHING.adrift + NOTHING.unfiled == {};
  }

  lemma TwinsPrioritized(same: bool)
    ensures Prioritized(Twins(same), {})
  {
    var s := Twins(same);
    hide Pointers, Field, Tree, Sizing, Entries, Keys, IsBest;
    FieldAt(InfoOf(same));
    FieldAt(NoBuddy);
    FieldAt(NotValid);
    forall c | c in s.info && s.info[c].Contact? ensures ContactPrioritized(s, c) {
      TreeAt(Some(c));
    }
  }

  // ------------------------------------------------------------ what fails there

  /**
   Renaming group 0 to "b" merges it into group 1, where the only buddy of contact 2 is already: the contact is freed,
   and read next.
  */
  lemma MergeReadsFreed()
    ensures var s := Twins(false);
            && Unitable(s, 0, 1) && Rival(s, 0, "b") == Some(1)
            && FirstPerishing(s, At(s.kids, Some(0)), 1) == Some(2) && !Movable(s, 0, 1)
  {
    hide Valid, Pointers, Field, Sizing, Tree, Entries, Keys, ChildrenOf;
    var s := Twins(false);
    TwinsValid(false);
    TreeAt(None);
    TreeAt(Some(0));
    TreeAt(Some(2));
    FieldAt(InfoOf(false));
    KeysTaken(false);
    Shape();
    hide Free, Twins;
    NobodyKept(s, 4, 1);
    assert !Outlives(s, 2, 1);
  }

  lemma Shape()
    ensures ChildrenOf(None) == [0, 1] && ChildrenOf(Some(0)) == [2] && ChildrenOf(Some(1)) == [3]
    ensures ChildrenOf(Some(2)) == [4]
    ensures ChildrenOf(Some(3)) == [5, 6]
  {
  }

  lemma NobodyKept(s: State, b: Node, g: Node)
    requires !Free(s, b, g)
    ensures Kept(s, [b], g) == []
  {
    var none: seq<Node> := [];
    assert [b][..0] == none && Kept(s, none, g) == [];
  }

  lemma KeysTaken(same: bool)
    ensures var s := Twins(same);
            && KeyIn(s, 4, 1) == KeyFor(5) && KeyFor(5) in s.tables.buddies && s.tables.buddies[KeyFor(5)] == 5
            && !Free(s, 4, 1) && !Fresh(s, 4, 1)
  {
    hide Pointers, Field, Sizing, Tree, Keys;
    FieldAt(InfoOf(same));
    assert KeyFor(5) in Entries();
  }

  /** Adding buddy 4 to contact 3 overwrites the entry of buddy 5. */
  lemma AddOverwrites()
    ensures var s := Twins(false);
            && Valid(s) && 4 in s.info && s.info[4].Buddy? && 3 in s.info && s.info[3].Contact? && !Fresh(s, 4, 1)
  {
    hide Valid, Pointers, Field, Sizing, Tree, Keys, Entries, Fresh;
    TwinsValid(false);
    FieldAt(InfoOf(false));
    KeysTaken(false);
  }

  /** Merging contact 2 into contact 3 does, too. */
  lemma MergeOverwrites()
    ensures var s := Twins(false);
            && Valid(s) && MergeTarget(s, 3) == Some(3) && At(s.kids, Some(2)) == [4] && Overwritten(s, [4], 1) == {5}
  {
    hide Valid, Pointers, Field, Sizing, Tree, Keys, Entries, ChildrenOf;
    var s, none := Twins(false), [4][..0];
    TwinsValid(false);
    FieldAt(InfoOf(false));
    TreeAt(Some(2));
    Shape();
    KeysTaken(false);
    hide Twins;
    assert none == [] && Overwritten(s, none, 1) == {};
  }

  /** Renaming buddy 6 to "x" does, too. */
  lemma RenameOverwrites()
    ensures var s := Twins(false);
            && Valid(s) && BuddyAt(s, 6, 3, 1) && NewKey(s, 6, "x", 1) in s.tables.buddies
            && s.tables.buddies[NewKey(s, 6, "x", 1)] == 5
  {
    hide Valid, BuddyAt, NewKey;
    TwinsValid(false);
    SixStands();
    SixRenamed();
  }

  lemma SixStands()
    ensures BuddyAt(Twins(false), 6, 3, 1)
  {
    hide Pointers, Field, Sizing, Tree, Keys, Entries, ChildrenOf;
    FieldAt(InfoOf(false));
    PointersAt(6);
    PointersAt(3);
    TreeAt(Some(3));
    TreeAt(Some(1));
    Shape();
  }

  lemma SixRenamed()
    ensures var s := Twins(false);
            NewKey(s, 6, "x", 1) in s.tables.buddies && s.tables.buddies[NewKey(s, 6, "x", 1)] == 5
  {
    hide Pointers, Field, Sizing, Tree, Keys;
    FieldAt(InfoOf(false));
    assert KeyFor(5) in Entries();
  }

  /** Removing group 7, which is not listed, takes the name away from group 1. */
  lemma RemovalUnnames()
    ensures var s := Twins(false);
            && Valid(s) && None in s.kids && 7 in s.info && s.info[7].Group? && At(s.kids, Some(7)) == []
            && 7 !in s.kids[None] && Namesake(s, 7) == Some(1)
  {
    hide Valid, Pointers, Field, Sizing, Tree, Keys, Entries;
    TwinsValid(false);
    FieldAt(InfoOf(false));
    TreeAt(None);
    TreeAt(Some(7));
  }

  /**
   Renaming group 0 from "a" to "A", which is equal to it ignoring case, leaves group 1 without a name in the index.
  */
  lemma RenameUnnames()
    ensures var s := Twins(true); Valid(s) && Rival(s, 0, "A") == None && !Valid(GroupRenamed(s, 0, "A"))
  {
    hide Valid, Pointers, Field, Sizing, Tree, Keys, Entries, GroupRenamed;
    TwinsValid(true);
    TreeAt(None);
    FieldAt(InfoOf(true));
    GroupRenamedValid(Twins(true), 0, "A");
  }
}
