/** Whole runs: whatever is done to the list, one thing after the other, it does what it should and stays in order. */
module BlistRun {
  import opened BlistSeq
  import opened Options
  import opened BlistModel
  import opened BlistSteps
  import opened BlistMoves
  import opened BlistGroups
  import opened BlistFloat
  import opened BlistBuddies
  import opened BlistMerge
  import opened BlistSweep
  import opened BlistRename
  import opened BlistPurge
  import opened BlistOps
  import opened Blist

  lemma ListedGroup(s: State, g: Node)
    requires Valid(s) && IsGroup(Seen(s), g)
    ensures None in s.kids && Some(g) in s.kids && GroupNamed(Seen(s), s.info[g].name) == Namesake(s, g)
    ensures g in s.kids[None] <==> IsListed(Seen(s), g)
    ensures IsTarget(Seen(s), g) ==> g in s.kids[None] || Namesake(s, g) == None
  {
    hide Valid;
    GroupListed(s, g);
    TypedAt(s, NOTHING, g) by { ValidIs(s); }
    if GroupNamed(Seen(s), s.info[g].name) == Some(g) {
      GroupIndexed(s, s.env.collateKey(s.info[g].name));
    }
  }

  lemma FreshKey(s: State, b: Node, g: Node)
    requires Valid(s) && IsBuddy(Seen(s), b)
    ensures KeyFree(Seen(s), b, g) <==> Fresh(s, b, g)
  {
    hide Valid;
    TypedAt(s, NOTHING, b) by { ValidIs(s); }
  }

  // ------------------------------------------------------------------ the steps

  method DoNew(l: BuddyList, op: Op)
    requires Valid(l.S()) && (op.NewGroup? || op.NewContact? || op.NewChat? || op.NewBuddy?) && Allowed(Seen(l.S()), op)
    modifies l
    ensures Valid(l.S()) && Effect(old(l.S()), op, l.S())
  {
    hide Valid, Appeared;
    match op {
      case NewGroup(name, n) => var _ := l.NewGroup(name, n);
      case NewContact(n) => l.NewContact(n);
      case NewChat(a, n) => l.NewChat(a, n);
      case NewBuddy(a, name, n) => l.NewBuddy(a, name, n);
    }
  }

  method DoAddGroup(l: BuddyList, g: Node, node: Ptr)
    requires Valid(l.S()) && Allowed(Seen(l.S()), AddGroup(g, node))
    modifies l
    ensures Valid(l.S()) && GroupPut(old(l.S()), l.S(), g, node)
  {
    hide Valid, InsertAfter, Without;
    ListedGroup(l.S(), g);
    if node.Some? && l.info[node.value].Group? {
      ListedGroup(l.S(), node.value);
    }
    l.AddGroup(g, node);
  }

  method DoAddContact(l: BuddyList, c: Node, group: Ptr, node: Ptr, spare: Node)
    requires Valid(l.S()) && Allowed(Seen(l.S()), AddContact(c, group, node, spare))
    modifies l
    ensures Valid(l.S()) && ContactPut(old(l.S()), l.S(), c, group, node, spare)
  {
    hide Valid, Rehomed, Hosted, Casualties, Bereaved, Minus;
    TypedNames(l.S());
    if group.Some? {
      ListedGroup(l.S(), group.value);
    }
    var _ := l.AddContact(c, group, node, spare);
  }

  method DoAddChat(l: BuddyList, n: Node, group: Ptr, node: Ptr, spare: Node)
    requires Valid(l.S()) && Allowed(Seen(l.S()), AddChat(n, group, node, spare))
    modifies l
    ensures Valid(l.S()) && ChatPut(old(l.S()), l.S(), n, group, node, spare)
  {
    hide Valid, Listed, Moved;
    TypedNames(l.S());
    if group.Some? {
      ListedGroup(l.S(), group.value);
    }
    var _ := l.AddChat(n, group, node, spare);
  }

  method DoAddBuddy(l: BuddyList, b: Node, contact: Ptr, group: Ptr, node: Ptr, spare: Node, novel: Node)
    requires Valid(l.S()) && Allowed(Seen(l.S()), AddBuddy(b, contact, group, node, spare, novel))
    modifies l
    ensures Valid(l.S()) && BuddyPut(old(l.S()), l.S(), b, contact, group, node, spare, novel)
  {
    hide Valid, Repositions, Novel, Fresh, Overtop;
    ghost var s := l.S();
    TypedNames(s);
    if group.Some? {
      ListedGroup(s, group.value);
    }
    FreshKey(s, b, GroupFor(Seen(s), contact, group, node, spare));
    var c, g := l.AddBuddy(b, contact, group, node, spare, novel);
  }

  method DoMerge(l: BuddyList, source: Node, node: Node)
    requires Valid(l.S()) && Allowed(Seen(l.S()), MergeContact(source, node))
    modifies l
    ensures Valid(l.S()) && Merged(old(l.S()), l.S(), source, node)
  {
    hide Valid, Nearly, Overwritten, Fresh, KidsMerged, DriftMerged, KeyFree;
    ghost var t := MergeTarget(l.S(), node);
    if t.Some? && t.value != source && HasParent(Seen(l.S()), source) {
      MergeFresh(l.S(), source, l.links.parent[t.value].value);
    }
    l.MergeContact(source, node);
  }

  lemma MergeFresh(s: State, source: Node, g: Node)
    requires Valid(s) && IsContact(Seen(s), source)
    requires forall b :: b in s.info && s.info[b].Buddy? && b in s.links.parent && s.links.parent[b] == Some(source) ==>
               KeyFree(Seen(s), b, g)
    ensures forall b :: b in At(s.kids, Some(source)) ==> Fresh(s, b, g)
  {
    hide Valid, Fresh, KeyFree;
    ChildStands(s, source);
    ContactKids(s, source);
    forall b | b in At(s.kids, Some(source)) ensures Fresh(s, b, g) {
      FreshKey(s, b, g);
    }
  }

  method DoRemove(l: BuddyList, op: Op)
    requires Valid(l.S()) && (op.RemoveBuddy? || op.RemoveContact? || op.RemoveChat? || op.RemoveGroup?)
    requires Allowed(Seen(l.S()), op)
    modifies l
    ensures Valid(l.S()) && Effect(old(l.S()), op, l.S())
  {
    hide Valid, Dropped, BuddyAt, Less, Minus, KidsMinus, Without;
    match op {
      case RemoveBuddy(b) => l.RemoveBuddy(b);
      case RemoveContact(c) => l.RemoveContact(c);
      case RemoveChat(n) => l.RemoveChat(n);
      case RemoveGroup(g) =>
        ListedGroup(l.S(), g);
        l.RemoveGroup(g);
    }
  }

  method DoDelete(l: BuddyList, a: Account)
    requires Valid(l.S())
    modifies l
    ensures Valid(l.S()) && Effect(old(l.S()), DeleteAccount(a), l.S())
  {
    hide Valid, Purged, GroupVictims;
    ghost var s := l.S();
    TypedNames(s);
    assert At(s.kids, None) == s.kids[None];
    l.DeleteAccount(a);
    ghost var gone := GroupVictims(s, a, s.kids[None]);
    PurgedValid(s, l.S(), gone);
    assert gone == GroupVictims(s, a, At(s.kids, None));
  }

  lemma PurgedValid(s: State, s': State, gone: set<Node>)
    requires Purged(s, s', gone)
    ensures Valid(s')
  {
    hide Valid;
  }

  method DoRenameGroup(l: BuddyList, g: Node, name: string)
    requires Valid(l.S()) && Allowed(Seen(l.S()), RenameGroup(g, name))
    modifies l
    ensures Valid(l.S()) && GroupTold(old(l.S()), l.S(), g, name)
  {
    hide Valid, Movable, KidsUnited, InfoUnited, DriftUnited, GroupRenamed, SomeoneFree;
    ListedGroup(l.S(), g);
    ghost var d := Rival(l.S(), g, name);
    if d.Some? {
      GroupIndexed(l.S(), l.env.collateKey(name));
      MovableBy(l.S(), g, d.value);
    }
    var _ := l.RenameGroup(g, name);
  }

  lemma MovableBy(s: State, from: Node, to: Node)
    requires Valid(s) && None in s.kids && from in s.kids[None] && to in s.kids[None] && from != to
    requires forall c :: c in s.info && s.info[c].Contact? && c in s.links.parent && s.links.parent[c] == Some(from) ==>
               (c in s.links.child && s.links.child[c] == None) || SomeoneFree(Seen(s), c, to)
    ensures Movable(s, from, to)
  {
    hide Valid, Kept, SomeoneFree;
    TopIsGroup(s, from);
    GroupKids(s, from);
    forall c | c in At(s.kids, Some(from)) ensures At(s.kids, Some(c)) == [] || Kept(s, At(s.kids, Some(c)), to) != [] {
      HeadOf(s, Some(c));
      if s.info[c].Contact? && At(s.kids, Some(c)) != [] {
        SomeoneKept(s, c, to);
      }
    }
  }

  lemma SomeoneKept(s: State, c: Node, to: Node)
    requires Valid(s) && c in s.info && s.info[c].Contact? && Some(c) in s.kids && SomeoneFree(Seen(s), c, to)
    ensures Kept(s, s.kids[Some(c)], to) != []
  {
    hide Valid, Kept;
    ContactKids(s, c);
    var b :| b in s.info && IsBuddy(Seen(s), b) && s.links.parent[b] == Some(c)
             && BuddyNamed(Seen(s), s.info[b].account, s.info[b].name, to) == None;
    TypedAt(s, NOTHING, b) by { ValidIs(s); }
    KeptAre(s, s.kids[Some(c)], to);
    assert b in Kept(s, s.kids[Some(c)], to);
  }

  method DoRenameBuddy(l: BuddyList, b: Node, name: string)
    requires Valid(l.S()) && Allowed(Seen(l.S()), RenameBuddy(b, name))
    modifies l
    ensures Valid(l.S()) && Effect(old(l.S()), RenameBuddy(b, name), l.S())
  {
    hide Valid, GroupPut, ContactPut, ChatPut, BuddyPut, Merged, BuddyRemoved, ContactRemoved, ChatRemoved,
         GroupRemoved, GroupTold;
    l.RenameBuddy(b, name);
  }

  method DoChange(l: BuddyList, op: Op)
    requires Valid(l.S()) && Allowed(Seen(l.S()), op)
    requires op.Connect? || op.Disconnect? || op.UpdateStatus?
    modifies l
    ensures Valid(l.S()) && Effect(old(l.S()), op, l.S())
  {
    hide Valid, Offlined, Reached, ChildrenOf,
         GroupPut, ContactPut, ChatPut, BuddyPut, Merged, BuddyRemoved, ContactRemoved, ChatRemoved, GroupRemoved,
             GroupTold;
    TypedNames(l.S());
    match op {
      case UpdateStatus(b, p) => l.UpdateBuddyStatus(b, p);
      case Connect(a, showOffline) => l.Connect(a, showOffline);
      case Disconnect(a) => l.Disconnect(a);
    }
  }

  method DoGetPriority(l: BuddyList, c: Node)
    requires Valid(l.S()) && Allowed(Seen(l.S()), GetPriority(c))
    modifies l
    ensures Valid(l.S()) && l.S() == old(l.S()).(priorities := l.priorities) && c in l.priorities.valid
    ensures l.priorities.valid[c]
  {
    hide Valid, IsBest;
    ghost var s := l.S();
    ChildStands(s, c);
    var _ := l.GetPriorityBuddy(c);
    SameFields(l.S(), s.(priorities := l.priorities));
  }

  method DoAddTable(l: BuddyList, a: Account)
    requires Valid(l.S()) && Allowed(Seen(l.S()), AddTable(a))
    modifies l
    ensures Valid(l.S()) && l.S() == old(l.S()).(tables := old(l.tables).(cache := old(l.tables).cache[a := map[]]))
  {
    hide Valid;
    ghost var s := l.S();
    l.AddAccountTable(a);
    SameFields(l.S(), s.(tables := l.tables));
  }

  method DoRemoveTable(l: BuddyList, a: Account)
    requires Valid(l.S()) && Allowed(Seen(l.S()), RemoveTable(a))
    modifies l
    ensures Valid(l.S()) && l.S() == old(l.S()).(tables := old(l.tables).(cache := Less(old(l.tables).cache, a)))
  {
    hide Valid, Less;
    ghost var s := l.S();
    l.RemoveAccountTable(a);
    SameFields(l.S(), s.(tables := l.tables));
  }

  method Do(l: BuddyList, op: Op)
    requires Valid(l.S())
    modifies l
    ensures Valid(l.S()) && Step(old(l.S()), op, l.S())
  {
    hide Valid, Allowed, GroupPut, ContactPut, ChatPut, BuddyPut, Merged, BuddyRemoved, ContactRemoved, ChatRemoved,
         GroupRemoved, GroupTold;
    if Allowed(Fields(l.env, l.links, l.info, l.tables, l.connected), op) {
      if op.AddGroup? {
        DoAddGroup(l, op.g, op.node);
      } else if op.AddContact? {
        DoAddContact(l, op.c, op.group, op.node, op.spare);
      } else if op.AddChat? {
        DoAddChat(l, op.n, op.group, op.node, op.spare);
      } else if op.AddBuddy? {
        DoAddBuddy(l, op.b, op.contact, op.group, op.node, op.spare, op.novel);
      } else if op.MergeContact? {
        DoMerge(l, op.source, op.into);
      } else if op.RenameBuddy? {
        DoRenameBuddy(l, op.b, op.name);
      } else if op.RenameGroup? {
        DoRenameGroup(l, op.g, op.name);
      } else if op.NewGroup? || op.NewContact? || op.NewChat? || op.NewBuddy? {
        DoNew(l, op);
      } else if op.DeleteAccount? {
        DoDelete(l, op.a);
      } else if op.RemoveBuddy? || op.RemoveContact? || op.RemoveChat? || op.RemoveGroup? {
        DoRemove(l, op);
      } else if op.Connect? || op.Disconnect? || op.UpdateStatus? {
        DoChange(l, op);
      } else if op.GetPriority? {
        DoGetPriority(l, op.c);
      } else if op.AddTable? {
        DoAddTable(l, op.a);
      } else {
        DoRemoveTable(l, op.a);
      }
    }
  }

  /** A run: from an empty list, each state in order and the next one what the operation asked for comes to. */
  ghost predicate IsRun(run: seq<State>, ops: seq<Op>) {
    && |run| == |ops| + 1
    && run[0].info == map[] && run[0].kids == map[None := []] && run[0].connected == {}
    && (forall i :: 0 <= i < |run| ==> Valid(run[i]))
    && (forall i :: 0 <= i < |ops| ==> Step(run[i], ops[i], run[i + 1]))
  }

  method Start(env: Env, accounts: set<Account>) returns (l: BuddyList, ghost s: State)
    requires TotalPreorder(env) && !env.isOnline(env.offline) && env.buddiesGroup != "" && env.chatsGroup != ""
    ensures fresh(l) && l.S() == s && Valid(s) && IsRun([s], []) && s.env == env
  {
    hide Valid, TotalPreorder;
    l := new BuddyList(env, accounts);
    s := l.S();
    RunStarts(s);
  }

  /**
   Every run from an empty list, of any operations in any order, each done if its caller could see that it may be:
   each has its effect, and the tree stays well formed, and the tables, the sizes and the priorities equal to a plain
   scan.
  */
  method Run(env: Env, accounts: set<Account>, ops: seq<Op>) returns (l: BuddyList, ghost run: seq<State>)
    requires TotalPreorder(env) && !env.isOnline(env.offline) && env.buddiesGroup != "" && env.chatsGroup != ""
    ensures fresh(l) && IsRun(run, ops) && run[|ops|] == l.S() && run[0].env == env
  {
    hide Valid, Step, IsRun, TotalPreorder;
    ghost var s;
    l, s := Start(env, accounts);
    run := [s];
    for i := 0 to |ops|
      invariant fresh(l) && s == l.S() && Valid(s)
      invariant |run| == i + 1 && run[i] == s && IsRun(run, ops[..i]) && run[0].env == env
    {
      assert ops[..i + 1] == ops[..i] + [ops[i]];
      Do(l, ops[i]);
      s := l.S();
      RunOn(run, ops[..i], ops[i], s);
      run := run + [s];
    }
    assert ops[..|ops|] == ops;
  }

  lemma RunStarts(s: State)
    requires Valid(s) && s.info == map[] && s.kids == map[None := []] && s.connected == {}
    ensures IsRun([s], [])
  {
    hide Valid;
  }

  lemma RunOn(run: seq<State>, ops: seq<Op>, op: Op, s: State)
    requires IsRun(run, ops) && Valid(s) && Step(run[|ops|], op, s)
    ensures IsRun(run + [s], ops + [op]) && (run + [s])[0] == run[0] && |run + [s]| == |ops| + 2
  {
    hide Valid, Step;
    var r, o := run + [s], ops + [op];
    assert forall i :: 0 <= i < |run| ==> r[i] == run[i];
    assert forall i :: 0 <= i < |ops| ==> o[i] == ops[i];
  }

  /** How many contacts of group `g` are deleted in the steps from `i` up to `j`. */
  ghost function Deletions(run: seq<State>, g: Node, i: nat, j: nat): nat
    requires i <= j < |run|
  {
    if i == j then 0 else Deletions(run, g, i, j - 1) + Count(At(run[j - 1].kids, Some(g)), Deleted(run[j - 1], run[j]))
  }

  /**
   As long as a group exists, its totalsize gains on the number of its children exactly the contacts deleted from it.
  */
  lemma {:induction false} TotalsOverRun(run: seq<State>, ops: seq<Op>, g: Node, i: nat, j: nat)
    requires IsRun(run, ops) && i <= j <= |ops|
    requires forall k :: i <= k <= j ==> g in run[k].info && run[k].info[g].Group?
    ensures Some(g) in run[i].kids && Some(g) in run[j].kids && g in run[i].sizes.total && g in run[j].sizes.total
    ensures run[j].sizes.total[g] - |run[j].kids[Some(g)]|
         == run[i].sizes.total[g] - |run[i].kids[Some(g)]| + Deletions(run, g, i, j)
    decreases j
  {
    hide Valid, Step, Deleted;
    if i == j {
      TotalIs(run[i], g);
    } else {
      TotalsOverRun(run, ops, g, i, j - 1);
      TotalsDrift(run[j - 1], ops[j - 1], run[j], g);
    }
  }
}
