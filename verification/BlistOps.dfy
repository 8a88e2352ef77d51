/** What can be asked of the list: when it may be asked, what comes of it, and what it does to the groups' totals. */
module BlistOps {
  import opened BlistSeq
  import opened Options
  import opened BlistLinks
  import opened BlistModel
  import opened BlistTree
  import opened BlistSteps
  import opened BlistMoves
  import opened BlistGroups
  import opened BlistFloat
  import opened BlistBuddies
  import opened BlistMerge
  import opened BlistSweep
  import opened BlistRename
  import opened BlistScan
  import opened BlistPurge

  /** The operations, with the memory the allocator would hand out. */
  datatype Op =
    | NewGroup(name: string, n: Node) | NewContact(n: Node) | NewChat(a: Account, n: Node)
    | NewBuddy(a: Account, name: string, n: Node)
    | AddGroup(g: Node, node: Ptr) | AddContact(c: Node, group: Ptr, node: Ptr, spare: Node)
    | AddChat(n: Node, group: Ptr, node: Ptr, spare: Node)
    | AddBuddy(b: Node, contact: Ptr, group: Ptr, node: Ptr, spare: Node, novel: Node)
    | MergeContact(source: Node, into: Node)
    | RemoveBuddy(b: Node) | RemoveContact(c: Node) | RemoveChat(n: Node) | RemoveGroup(g: Node)
    | DeleteAccount(a: Account)
    | RenameBuddy(b: Node, name: string) | RenameGroup(g: Node, name: string) | UpdateStatus(b: Node, p: Presence)
    | Connect(a: Account, showOffline: set<Node>) | Disconnect(a: Account) | GetPriority(c: Node)
    | AddTable(a: Account) | RemoveTable(a: Account)

  // ------------------------------------------------- what a caller can check

  /** What a caller can look at. */
  datatype Fields = Fields(env: Env, links: Links, info: map<Node, Info>, tables: Tables, connected: set<Account>)

  function Seen(s: State): Fields {
    Fields(s.env, s.links, s.info, s.tables, s.connected)
  }

  predicate IsGroup(f: Fields, n: Node) {
    n in f.info && f.info[n].Group?
  }

  predicate IsContact(f: Fields, n: Node) {
    n in f.info && f.info[n].Contact? && n in f.links.parent
  }

  predicate IsChat(f: Fields, n: Node) {
    n in f.info && f.info[n].Chat? && n in f.links.parent
  }

  predicate IsBuddy(f: Fields, n: Node) {
    n in f.info && f.info[n].Buddy? && n in f.links.parent
  }

  predicate HasParent(f: Fields, n: Node) {
    n in f.links.parent && f.links.parent[n].Some?
  }

  /** purple_find_group. */
  function GroupNamed(f: Fields, name: string): Ptr {
    if name == "" then None
    else if f.env.collateKey(name) in f.tables.groups then Some(f.tables.groups[f.env.collateKey(name)]) else None
  }

  /** purple_find_buddy_in_group. */
  function BuddyNamed(f: Fields, account: Account, name: string, g: Node): Ptr {
    var k := Key(f.env.normalize(account, name), account, g);
    if name == "" then None else if k in f.tables.buddies then Some(f.tables.buddies[k]) else None
  }

  /** The group is the one its name leads to: it is in the list. */
  predicate IsListed(f: Fields, g: Node) {
    IsGroup(f, g) && GroupNamed(f, f.info[g].name) == Some(g)
  }

  /** In the list, or to be put in it without conflict. */
  predicate IsTarget(f: Fields, g: Node) {
    IsGroup(f, g) && (GroupNamed(f, f.info[g].name) == None || GroupNamed(f, f.info[g].name) == Some(g))
  }

  /** Nobody else in the group has the buddy's key. */
  predicate KeyFree(f: Fields, b: Node, g: Node) {
    IsBuddy(f, b) && (BuddyNamed(f, f.info[b].account, f.info[b].name, g) == None
                      || BuddyNamed(f, f.info[b].account, f.info[b].name, g) == Some(b))
  }

  /** The group a buddy would be added to. */
  function GroupFor(f: Fields, contact: Ptr, group: Ptr, node: Ptr, spare: Node): Node {
    if node.Some? && HasParent(f, node.value) && HasParent(f, f.links.parent[node.value].value)
      then f.links.parent[f.links.parent[node.value].value].value
    else if node == None && contact.Some? && HasParent(f, contact.value) then f.links.parent[contact.value].value
    else if group.Some? then group.value
    else if f.env.collateKey(f.env.buddiesGroup) in f.tables.groups
    then f.tables.groups[f.env.collateKey(f.env.buddiesGroup)]
    else spare
  }

  /** Some buddy of the contact could go to group `g`. */
  predicate SomeoneFree(f: Fields, c: Node, g: Node) {
    exists b :: b in f.info && IsBuddy(f, b) && f.links.parent[b] == Some(c)
                && BuddyNamed(f, f.info[b].account, f.info[b].name, g) == None
  }

  /** All buddies of `source` could go to the group of `node`, if they are to go at all. */
  predicate MayMerge(f: Fields, source: Node, node: Node) {
    && IsContact(f, source) && node in f.info && node in f.links.parent
    && (f.info[node].Contact? ==> HasParent(f, node))
    && var t := if f.info[node].Contact? then Some(node) else if f.info[node].Buddy? then f.links.parent[node]
         else None;
       t.Some? && t.value != source && HasParent(f, source) ==>
         && HasParent(f, t.value)
         && forall b :: b in f.info && f.info[b].Buddy? && b in f.links.parent && f.links.parent[b] == Some(source) ==>
              KeyFree(f, b, f.links.parent[t.value].value)
  }

  /** Either nobody else has the name, or no contact with buddies would be lost to the group that has it. */
  predicate MayRename(f: Fields, g: Node, name: string) {
    var d := GroupNamed(f, name);
    if d.Some? && IsGroup(f, d.value) && IsGroup(f, g)
       && !f.env.sameIgnoringCase(f.info[g].name, f.info[d.value].name) then
      d.value != g
      && forall c :: c in f.info && f.info[c].Contact? && c in f.links.parent && f.links.parent[c] == Some(g) ==>
           (c in f.links.child && f.links.child[c] == None) || SomeoneFree(f, c, d.value)
    else d == None || d == Some(g)
  }

  predicate Allowed(f: Fields, op: Op) {
    match op
    case NewGroup(name, n) => name != "" && n !in f.info
    case NewContact(n) => n !in f.info
    case NewChat(a, n) => n !in f.info
    case NewBuddy(a, name, n) => n !in f.info && name != "" && a in f.tables.cache
    case AddGroup(g, node) =>
      IsTarget(f, g) && (node.Some? ==> node.value in f.info
                                        && (f.info[node.value].Group? ==> node.value == g || IsListed(f, node.value)))
    case AddContact(c, group, node, spare) =>
      && IsContact(f, c) && spare !in f.info && (group.Some? ==> IsListed(f, group.value))
      && (node.Some? ==> node.value in f.info && node.value in f.links.parent
                         && (f.info[node.value].Contact? || f.info[node.value].Chat? ==> HasParent(f, node.value)))
    case AddChat(n, group, node, spare) =>
      && IsChat(f, n) && spare !in f.info && (group.Some? ==> IsTarget(f, group.value))
      && (node.Some? ==> (IsContact(f, node.value) || IsChat(f, node.value)) && HasParent(f, node.value))
    case AddBuddy(b, contact, group, node, spare, novel) =>
      && IsBuddy(f, b) && spare !in f.info && novel !in f.info && spare != novel
      && (group.Some? ==> IsTarget(f, group.value))
      && (node.Some? ==> IsBuddy(f, node.value) && HasParent(f, node.value))
      && (node == None && contact.Some? ==> IsContact(f, contact.value) && HasParent(f, contact.value))
      && KeyFree(f, b, GroupFor(f, contact, group, node, spare))
    case MergeContact(source, into) => MayMerge(f, source, into)
    case RemoveBuddy(b) => IsBuddy(f, b)
    case RemoveContact(c) => IsContact(f, c) && HasParent(f, c)
    case RemoveChat(n) => IsChat(f, n)
    case RemoveGroup(g) => IsTarget(f, g)
    case DeleteAccount(a) => true
    case RenameBuddy(b, name) =>
      && IsBuddy(f, b) && HasParent(f, b) && HasParent(f, f.links.parent[b].value) && name != ""
      && var found := BuddyNamed(f, f.info[b].account, name, f.links.parent[f.links.parent[b].value].value);
         found == None || found == Some(b)
    case RenameGroup(g, name) => name != "" && IsListed(f, g) && MayRename(f, g, name)
    case UpdateStatus(b, p) => IsBuddy(f, b) && HasParent(f, b) && f.info[b].account in f.connected
    case Connect(a, showOffline) => a !in f.connected
    case Disconnect(a) => a in f.connected
    case GetPriority(c) => IsContact(f, c)
    case AddTable(a) => forall k :: k in f.tables.buddies ==> k.account != a
    case RemoveTable(a) => forall b :: b in f.info && f.info[b].Buddy? ==> f.info[b].account != a
  }

  // ------------------------------------------------------- what comes of it

  ghost predicate GroupPut(s: State, s': State, g: Node, node: Ptr) {
    if node == Some(g) && At(s.kids, None) != [] then s' == s
    else
      var a := if node.Some? && node.value in s.info && s.info[node.value].Group? && node.value != g then node
            else None;
      && s'.kids == s.kids[None := InsertAfter(Without(At(s.kids, None), g), a, g)] && s'.links.parent == s.links.parent
      && s'.info == s.info && s'.drift == s.drift && s'.connected == s.connected
      && s'.tables.buddies == s.tables.buddies
  }

  /** The group that a node to go behind says, or else the caller, or else the default name. */
  function Host(s: State, group: Ptr, node: Ptr, name: string, spare: Node): Node {
    if node.Some? && node.value in s.links.parent && s.links.parent[node.value].Some?
    then s.links.parent[node.value].value
    else Default(s, group, name, spare)
  }

  ghost predicate ContactPut(s: State, s': State, c: Node, group: Ptr, node: Ptr, spare: Node) {
    if node == Some(c) then s' == s
    else
      var a := if node.Some? && node.value in s.info && (s.info[node.value].Contact? || s.info[node.value].Chat?)
            then node else None;
      var g := Host(s, group, a, s.env.buddiesGroup, spare);
      && None in s.kids && s'.connected == s.connected
      && var h := Hosted(s, g, spare, s.env.buddiesGroup);
         && c in h.links.parent && s'.kids == Rehomed(h, c, g, a)
         && s'.info == Minus(h.info, Casualties(h, c, g)) && s'.drift == Minus(Bereaved(h, c, g), Casualties(h, c, g))
  }

  ghost predicate ChatPut(s: State, s': State, n: Node, group: Ptr, node: Ptr, spare: Node) {
    if node == Some(n) then s' == s
    else
      var g := Host(s, group, node, s.env.chatsGroup, spare);
      && None in s.kids && n in s.links.parent && s'.kids == Moved(Listed(s.kids, g), s.links.parent[n], n, g, node)
      && s'.info == (if g == spare then s.info[spare := Info.Group(s.env.chatsGroup)] else s.info)
      && s'.drift == (if g == spare then s.drift[spare := 0] else s.drift)
      && s'.tables.buddies == s.tables.buddies && s'.connected == s.connected
  }

  ghost predicate BuddyPut(s: State, s': State, b: Node, contact: Ptr, group: Ptr, node: Ptr, spare: Node,
                           novel: Node) {
    if Overtop(s, b, contact, node) then s' == s
    else
      && s'.connected == s.connected
      && if node.Some? || contact.Some? then
           exists c, g :: Bound(s, contact, node, c, g) && Repositions(s, s', b, c, g, node)
         else
           var g := Default(s, group, s.env.buddiesGroup, spare);
           Repositions(Novel(s, novel, g, spare, s.env.buddiesGroup), s', b, novel, g, None)
  }

  ghost predicate Merged(s: State, s': State, source: Node, node: Node) {
    var t, l := MergeTarget(s, node), At(s.kids, Some(source));
    && s'.connected == s.connected
    && if t == None || t == Some(source) || l == [] then s' == s
       else
         var a := if node in s.info && s.info[node].Buddy? then Some(node) else Last(At(s.kids, t));
         && source in s.links.parent && s.links.parent[source].Some?
         && var g0 := s.links.parent[source].value;
            && s'.kids == KidsMerged(s.kids, source, g0, t.value, a, l, |l|)
            && s'.info == Less(s.info, source) && s'.drift == DriftMerged(s.drift, source, g0, l, |l|)
  }

  ghost predicate BuddyRemoved(s: State, s': State, b: Node) {
    && s'.connected == s.connected
    && if b in s.links.parent && s.links.parent[b].Some? then
         var c := s.links.parent[b].value;
         && c in s.links.parent && s.links.parent[c].Some?
         && var g := s.links.parent[c].value; BuddyAt(s, b, c, g) && g in s.drift && Dropped(s, s', b, c, g)
       else s'.info == Less(s.info, b) && s'.kids == Less(s.kids, Some(b)) && s'.drift == Less(s.drift, b)
  }

  ghost predicate ContactRemoved(s: State, s': State, c: Node) {
    && s'.connected == s.connected && c in s.links.parent && s.links.parent[c].Some?
    && var g := s.links.parent[c].value;
       && Some(g) in s.kids && Some(c) in s.kids && g in s.drift
       && var gone := Elements(s.kids[Some(c)]) + {c};
          && s'.kids == KidsMinus(s.kids[Some(g) := Without(s.kids[Some(g)], c)], gone)
          && s'.info == Minus(s.info, gone) && s'.drift == Minus(s.drift[g := s.drift[g] + 1], gone)
  }

  ghost predicate ChatRemoved(s: State, s': State, n: Node) {
    && s'.info == Less(s.info, n) && s'.drift == Less(s.drift, n) && s'.tables == s.tables
    && s'.connected == s.connected
    && n in s.links.parent
    && s'.kids == Less(if s.links.parent[n].Some?
                       then s.kids[s.links.parent[n] := Without(At(s.kids, s.links.parent[n]), n)] else s.kids, Some(n))
  }

  ghost predicate GroupRemoved(s: State, s': State, g: Node) {
    && s'.connected == s.connected
    && if At(s.kids, Some(g)) != [] then s' == s
       else s'.kids == Less(s.kids[None := Without(At(s.kids, None), g)], Some(g))
            && s'.info == Less(s.info, g) && s'.drift == Less(s.drift, g) && s'.tables.buddies == s.tables.buddies
  }

  ghost predicate GroupTold(s: State, s': State, g: Node, name: string) {
    var d := Rival(s, g, name);
    if g in s.info && s.info[g].Group? && name == s.info[g].name then s' == s
    else if d.Some? then
      s'.kids == KidsUnited(s, g, d.value) && s'.info == InfoUnited(s, g, d.value)
          && s'.drift == DriftUnited(s, g, d.value)
      && s'.connected == s.connected
    else s' == GroupRenamed(s, g, name)
  }

  /** The tree, the nodes and the drift after the operation; between valid states they determine sizes and tables. */
  ghost predicate Effect(s: State, op: Op, s': State) {
    match op
    case NewGroup(name, n) => s' == if GroupNamed(Seen(s), name).Some? then s else Appeared(s, n, Info.Group(name))
    case NewContact(n) => s' == Appeared(s, n, Contact)
    case NewChat(a, n) => s' == Appeared(s, n, Chat(a))
    case NewBuddy(a, name, n) => s' == Appeared(s, n, Buddy(a, name, s.env.offline))
    case AddGroup(g, node) => GroupPut(s, s', g, node)
    case AddContact(c, group, node, spare) => ContactPut(s, s', c, group, node, spare)
    case AddChat(n, group, node, spare) => ChatPut(s, s', n, group, node, spare)
    case AddBuddy(b, contact, group, node, spare, novel) => BuddyPut(s, s', b, contact, group, node, spare, novel)
    case MergeContact(source, into) => Merged(s, s', source, into)
    case RemoveBuddy(b) => BuddyRemoved(s, s', b)
    case RemoveContact(c) => ContactRemoved(s, s', c)
    case RemoveChat(n) => ChatRemoved(s, s', n)
    case RemoveGroup(g) => GroupRemoved(s, s', g)
    case DeleteAccount(a) => Purged(s, s', GroupVictims(s, a, At(s.kids, None)))
    case RenameBuddy(b, name) =>
      b in s.info && s.info[b].Buddy?
          && s' == s.(info := s.info[b := s.info[b].(name := name)], tables := s'.tables, keyed := s'.keyed)
    case RenameGroup(g, name) => GroupTold(s, s', g, name)
    case UpdateStatus(b, p) =>
      b in s.info && s.info[b].Buddy?
      && s' == s.(info := s.info[b := s.info[b].(presence := p)], sizes := s'.sizes, priorities := s'.priorities)
    case Connect(a, _) => s' == s.(connected := s.connected + {a}, sizes := s'.sizes, priorities := s'.priorities)
    case Disconnect(a) =>
      && None in s.kids
      && s' == s.(connected := s.connected - {a}, sizes := s'.sizes, priorities := s'.priorities,
                  info := Offlined(s.info, Reached(s, a, ChildrenOf(s, s.kids[None])), s.env.offline))
    case GetPriority(c) => s' == s.(priorities := s'.priorities) && c in s'.priorities.valid && s'.priorities.valid[c]
    case AddTable(a) => s' == s.(tables := s.tables.(cache := s.tables.cache[a := map[]]))
    case RemoveTable(a) => s' == s.(tables := s.tables.(cache := Less(s.tables.cache, a)))
  }

  /** An operation that may be asked for has its effect; one that may not is not asked for. */
  ghost predicate Step(s: State, op: Op, s': State) {
    && s'.env == s.env
    && if Allowed(Seen(s), op) then Effect(s, op, s') else s' == s
  }

  // ------------------------------------------------- what it does to the totals

  /** The contacts that were there before and are not any more. */
  function Deleted(s: State, s': State): set<Node> {
    set c | c in s.info && s.info[c].Contact? && c !in s'.info
  }

  ghost predicate StaysGroup(s: State, s': State, g: Node) {
    g in s.info && s.info[g].Group? && g in s'.info && s'.info[g].Group?
  }

  /** The drift of a group grows by one for every contact in it that is deleted. */
  ghost predicate DriftsBy(s: State, s': State, g: Node) {
    g in s.drift && g in s'.drift && s'.drift[g] == s.drift[g] + Count(At(s.kids, Some(g)), Deleted(s, s'))
  }

  lemma CountOne(l: seq<Node>, c: Node)
    requires NoDup(l)
    ensures Count(l, {c}) == if c in l then 1 else 0
  {
    CountZero(l, {});
    if c in l {
      CountGrows(l, {}, c);
      assert {} + {c} == {c};
    } else {
      CountZero(l, {c});
    }
  }

  /** No contact is deleted. */
  lemma NoneDeleted(s: State, s': State, g: Node)
    requires Valid(s) && StaysGroup(s, s', g) && Deleted(s, s') == {} && g in s'.drift && g in s.drift
    requires s'.drift[g] == s.drift[g]
    ensures DriftsBy(s, s', g)
  {
    hide Valid;
    CountZero(At(s.kids, Some(g)), {});
  }

  /** Contact `c` of group `g0` is deleted, and no other. */
  lemma OneDeleted(s: State, s': State, c: Node, g0: Node, g: Node)
    requires Valid(s) && StaysGroup(s, s', g) && Deleted(s, s') == {c} && c in s.links.parent
    requires s.links.parent[c] == Some(g0)
    requires g in s.drift && g in s'.drift && s'.drift[g] == s.drift[g] + if g == g0 then 1 else 0
    ensures DriftsBy(s, s', g)
  {
    hide Valid, Deleted;
    assert c in Deleted(s, s');
    DeletedIs(s, s', c);
    ChildStands(s, c);
    GroupDrift(s, NOTHING, g) by { ValidIs(s); }
    HeadOf(s, Some(g));
    CountOne(s.kids[Some(g)], c);
    if g != g0 {
      Apart(s, Some(g0), Some(g), c);
    }
  }

  lemma DeletedIs(s: State, s': State, c: Node)
    ensures c in Deleted(s, s') <==> c in s.info && s.info[c].Contact? && c !in s'.info
  {
  }

  /** Every node that was there still is, and the group's drift is the same. */
  lemma NothingGone(s: State, s': State, g: Node)
    requires Valid(s) && Valid(s') && StaysGroup(s, s', g) && s.info.Keys <= s'.info.Keys
    requires g in s.drift && g in s'.drift ==> s'.drift[g] == s.drift[g]
    ensures DriftsBy(s, s', g)
  {
    hide Valid;
    GroupDrift(s, NOTHING, g) by { ValidIs(s); }
    GroupDrift(s', NOTHING, g) by { ValidIs(s'); }
    assert Deleted(s, s') == {};
    NoneDeleted(s, s', g);
  }

  /** Only buddies are gone. */
  lemma BuddiesGone(s: State, s': State, gone: set<Node>, g: Node)
    requires Valid(s) && Valid(s') && StaysGroup(s, s', g) && s.info.Keys - gone <= s'.info.Keys
    requires forall n :: n in gone && n in s.info ==> !s.info[n].Contact?
    requires g in s.drift && g in s'.drift ==> s'.drift[g] == s.drift[g]
    ensures DriftsBy(s, s', g)
  {
    hide Valid;
    GroupDrift(s, NOTHING, g) by { ValidIs(s); }
    GroupDrift(s', NOTHING, g) by { ValidIs(s'); }
    assert Deleted(s, s') == {};
    NoneDeleted(s, s', g);
  }

  /** Contact `c` is gone, with buddies at most. */
  lemma ContactGone(s: State, s': State, gone: set<Node>, c: Node, g0: Node, g: Node)
    requires Valid(s) && Valid(s') && StaysGroup(s, s', g) && s.info.Keys - gone <= s'.info.Keys && c in gone
    requires c !in s'.info
    requires forall n :: n in gone && n in s.info && n != c ==> !s.info[n].Contact?
    requires c in s.info && s.info[c].Contact? && c in s.links.parent && s.links.parent[c] == Some(g0)
    requires g in s.drift && g in s'.drift ==> s'.drift[g] == s.drift[g] + if g == g0 then 1 else 0
    ensures DriftsBy(s, s', g)
  {
    hide Valid;
    GroupDrift(s, NOTHING, g) by { ValidIs(s); }
    GroupDrift(s', NOTHING, g) by { ValidIs(s'); }
    assert Deleted(s, s') == {c};
    OneDeleted(s, s', c, g0, g);
  }

  /** The buddies of a contact are no contacts. */
  lemma KidsAreBuddies(s: State, c: Node)
    requires Valid(s) && c in s.info && s.info[c].Contact?
    ensures forall n :: n in At(s.kids, Some(c)) ==> n in s.info && s.info[n].Buddy?
  {
    hide Valid;
    ChildStands(s, c);
    ContactKids(s, c);
  }

  lemma NewDrifts(s: State, op: Op, s': State, g: Node)
    requires Valid(s) && Valid(s') && StaysGroup(s, s', g)
    requires (op.NewGroup? || op.NewContact? || op.NewChat? || op.NewBuddy?)
    requires Allowed(Seen(s), op) && Effect(s, op, s')
    ensures DriftsBy(s, s', g)
  {
    hide Valid, Appeared, GroupNamed;
    var x := if op.NewGroup? then Info.Group(op.name) else if op.NewContact? then Contact else if op.NewChat?
          then Chat(op.a)
             else Buddy(op.a, op.name, s.env.offline);
    assert s' == s || s' == Appeared(s, op.n, x);
    AppearedFields(s, op.n, x);
    NothingGone(s, s', g);
  }

  /** `s'` is what becomes of `h`, the list with what was made for it, when contact `c` goes to group `to`. */
  ghost predicate Rehouses(s: State, h: State, s': State, c: Node, to: Node, g: Node) {
    && c in s.info && s.info[c].Contact? && c in s.links.parent && c in h.links.parent
    && h.links.parent[c] == s.links.parent[c]
    && (At(h.kids, Some(c)) != [] ==> At(h.kids, Some(c)) == At(s.kids, Some(c))) && s.info.Keys <= h.info.Keys
    && (g in s.drift ==> g in h.drift && h.drift[g] == s.drift[g])
    && s'.info == Minus(h.info, Casualties(h, c, to)) && s'.drift == Minus(Bereaved(h, c, to), Casualties(h, c, to))
  }

  lemma PerishedDrifts(s: State, h: State, s': State, c: Node, to: Node, g: Node)
    requires Valid(s) && Valid(s') && StaysGroup(s, s', g) && Rehouses(s, h, s', c, to, g) && Perishes(h, c, to)
    ensures DriftsBy(s, s', g)
  {
    hide Valid, Kept;
    KidsAreBuddies(s, c);
    ContactGone(s, s', Casualties(h, c, to), c, s.links.parent[c].value, g);
  }

  lemma MovedDrifts(s: State, h: State, s': State, c: Node, to: Node, g: Node)
    requires Valid(s) && Valid(s') && StaysGroup(s, s', g) && Rehouses(s, h, s', c, to, g) && !Perishes(h, c, to)
    ensures DriftsBy(s, s', g)
  {
    hide Valid, Perishes;
    KidsAreBuddies(s, c);
    if Emigrates(h, c, to) {
      LostAre(h, h.kids[Some(c)], to);
    }
    BuddiesGone(s, s', Casualties(h, c, to), g);
  }

  lemma ContactDrifts(s: State, op: Op, s': State, g: Node)
    requires Valid(s) && Valid(s') && StaysGroup(s, s', g) && op.AddContact? && Allowed(Seen(s), op)
    requires Effect(s, op, s')
    ensures DriftsBy(s, s', g)
  {
    hide Valid, Kept, Rehomed, IsListed, Casualties, Bereaved, Perishes, Minus;
    var c, group, node, spare := op.c, op.group, op.node, op.spare;
    if node == Some(c) {
      NothingGone(s, s', g);
    } else {
      var a := if node.Some? && node.value in s.info && (s.info[node.value].Contact? || s.info[node.value].Chat?)
            then node else None;
      var to := Host(s, group, a, s.env.buddiesGroup, spare);
      var h := Hosted(s, to, spare, s.env.buddiesGroup);
      ChildStands(s, c);
      if Perishes(h, c, to) {
        PerishedDrifts(s, h, s', c, to, g);
      } else {
        MovedDrifts(s, h, s', c, to, g);
      }
    }
  }

  lemma ChatDrifts(s: State, op: Op, s': State, g: Node)
    requires Valid(s) && Valid(s') && StaysGroup(s, s', g) && op.AddChat? && Allowed(Seen(s), op) && Effect(s, op, s')
    ensures DriftsBy(s, s', g)
  {
    hide Valid, Moved, Listed;
    NothingGone(s, s', g);
  }

  /** A buddy leaves its contact, and perhaps the contact goes; `h` is the list with what was made for the buddy. */
  lemma RepositionDrifts(s: State, h: State, s': State, b: Node, c: Node, to: Node, a: Ptr, g: Node)
    requires Valid(s) && Valid(s') && StaysGroup(s, s', g) && IsBuddy(Seen(s), b) && Repositions(h, s', b, c, to, a)
    requires s.info.Keys <= h.info.Keys && g in h.drift && (g in s.drift ==> h.drift[g] == s.drift[g])
    requires forall n :: n in s.info ==>
               n in h.links.parent && n in s.links.parent && h.links.parent[n] == s.links.parent[n]
    requires forall n :: n in s.info && s.info[n].Contact? ==> At(h.kids, Some(n)) == At(s.kids, Some(n))
    ensures DriftsBy(s, s', g)
  {
    hide Valid, KidsJoined, KidsLeft;
    var q := s.links.parent[b];
    if q.Some? {
      BuddyStands(s, NOTHING, b) by { ValidIs(s); }
      var c0 := q.value;
      var g0 := s.links.parent[c0].value;
      if Empties(h.kids, b, c0) {
        GroupDrift(s, NOTHING, g0) by { ValidIs(s); }
        ContactGone(s, s', {c0}, c0, g0, g);
      } else {
        NothingGone(s, s', g);
      }
    } else {
      NothingGone(s, s', g);
    }
  }

  lemma BuddyDrifts(s: State, op: Op, s': State, g: Node)
    requires Valid(s) && Valid(s') && StaysGroup(s, s', g) && op.AddBuddy? && Allowed(Seen(s), op) && Effect(s, op, s')
    ensures DriftsBy(s, s', g)
  {
    hide Valid, Repositions, KeyFree, GroupFor, GroupNamed;
    var b, contact, group, node, spare, novel := op.b, op.contact, op.group, op.node, op.spare, op.novel;
    GroupDrift(s, NOTHING, g) by { ValidIs(s); }
    AllLinked(s);
    if Overtop(s, b, contact, node) {
      NothingGone(s, s', g);
    } else if node.Some? || contact.Some? {
      var c, to :| Bound(s, contact, node, c, to) && Repositions(s, s', b, c, to, node);
      RepositionDrifts(s, s, s', b, c, to, node, g);
    } else {
      var to := Default(s, group, s.env.buddiesGroup, spare);
      var h := Novel(s, novel, to, spare, s.env.buddiesGroup);
      if group == None && s.env.collateKey(s.env.buddiesGroup) in s.tables.groups {
        GroupIndexed(s, s.env.collateKey(s.env.buddiesGroup));
      }
      NovelKids(s, novel, to, spare);
      RepositionDrifts(s, h, s', b, novel, to, None, g);
    }
  }

  lemma AllLinked(s: State)
    requires Valid(s)
    ensures s.info.Keys <= s.links.parent.Keys && None in s.kids
  {
    hide Linked, Sized, Indexed, Filed, Named, Prioritized, Typed, TotalPreorder, Spelled;
    forall n | n in s.info ensures n in s.links.parent {
      StandsAt(s.links, s.kids, s.info, {}, n);
    }
  }

  /** Making a contact for a buddy leaves the other contacts as they are. */
  lemma NovelKids(s: State, novel: Node, to: Node, spare: Node)
    requires Valid(s) && novel !in s.info && spare !in s.info && (to == spare || (to in s.info && s.info[to].Group?))
    ensures var h := Novel(s, novel, to, spare, s.env.buddiesGroup);
            forall n :: n in s.info && s.info[n].Contact? ==> At(h.kids, Some(n)) == At(s.kids, Some(n))
  {
    hide Valid;
  }

  lemma MergeDrifts(s: State, op: Op, s': State, g: Node)
    requires Valid(s) && Valid(s') && StaysGroup(s, s', g) && op.MergeContact? && Allowed(Seen(s), op)
    requires Effect(s, op, s')
    ensures DriftsBy(s, s', g)
  {
    hide Valid, KidsMerged, KeyFree;
    var source, node := op.source, op.into;
    var t, l := MergeTarget(s, node), At(s.kids, Some(source));
    if t == None || t == Some(source) || l == [] {
      NothingGone(s, s', g);
    } else {
      var g0 := s.links.parent[source].value;
      ChildStands(s, source);
      GroupDrift(s, NOTHING, g0) by { ValidIs(s); }
      ContactGone(s, s', {source}, source, g0, g);
    }
  }

  lemma RemovalDrifts(s: State, op: Op, s': State, g: Node)
    requires Valid(s) && Valid(s') && StaysGroup(s, s', g) && op.RemoveBuddy? && Allowed(Seen(s), op)
    requires Effect(s, op, s')
    ensures DriftsBy(s, s', g)
  {
    hide Valid, KidsDropped;
    var b := op.b;
    if s.links.parent[b].Some? {
      var c := s.links.parent[b].value;
      var g0 := s.links.parent[c].value;
      if Without(s.kids[Some(c)], b) == [] {
        ContactGone(s, s', {b, c}, c, g0, g);
      } else {
        BuddiesGone(s, s', {b}, g);
      }
    } else {
      BuddiesGone(s, s', {b}, g);
    }
  }

  lemma ContactRemovalDrifts(s: State, op: Op, s': State, g: Node)
    requires Valid(s) && Valid(s') && StaysGroup(s, s', g) && op.RemoveContact? && Allowed(Seen(s), op)
    requires Effect(s, op, s')
    ensures DriftsBy(s, s', g)
  {
    hide Valid, KidsMinus;
    var c := op.c;
    KidsAreBuddies(s, c);
    ContactGone(s, s', Elements(s.kids[Some(c)]) + {c}, c, s.links.parent[c].value, g);
  }

  lemma PurgeDrifts(s: State, op: Op, s': State, g: Node)
    requires StaysGroup(s, s', g) && op.DeleteAccount? && Effect(s, op, s')
    ensures DriftsBy(s, s', g)
  {
    hide Valid, KidsWithout;
    var gone := GroupVictims(s, op.a, At(s.kids, None));
    DriftAt(s, s', gone, g);
    assert Deleted(s, s') == ContactsIn(s, gone);
  }

  lemma RenameDrifts(s: State, op: Op, s': State, g: Node)
    requires Valid(s) && Valid(s') && StaysGroup(s, s', g) && op.RenameGroup? && Allowed(Seen(s), op)
    requires Effect(s, op, s')
    ensures DriftsBy(s, s', g)
  {
    hide Valid, KidsUnited, MayRename;
    var h, name := op.g, op.name;
    var d := Rival(s, h, name);
    if name != s.info[h].name && d.Some? {
      var gone := GroupLost(s, At(s.kids, Some(h)), d.value);
      LostBuddies(s, At(s.kids, Some(h)), d.value);
      BuddiesGone(s, s', gone + {h}, g);
    } else {
      NothingGone(s, s', g);
    }
  }

  /**
   Every operation lets a group's drift grow by one for each contact in the group that it deletes, and by nothing else.
  */
  lemma StepDrifts(s: State, op: Op, s': State, g: Node)
    requires Valid(s) && Valid(s') && Step(s, op, s') && StaysGroup(s, s', g)
    ensures DriftsBy(s, s', g)
  {
    hide Valid, Allowed, Effect, DriftsBy;
    if !Allowed(Seen(s), op) {
      NothingGone(s, s', g);
    } else {
      match op {
        case NewGroup(_, _) => NewDrifts(s, op, s', g);
        case NewContact(_) => NewDrifts(s, op, s', g);
        case NewChat(_, _) => NewDrifts(s, op, s', g);
        case NewBuddy(_, _, _) => NewDrifts(s, op, s', g);
        case AddGroup(_, _) => PutDrifts(s, op, s', g);
        case AddContact(_, _, _, _) => ContactDrifts(s, op, s', g);
        case AddChat(_, _, _, _) => ChatDrifts(s, op, s', g);
        case AddBuddy(_, _, _, _, _, _) => BuddyDrifts(s, op, s', g);
        case MergeContact(_, _) => MergeDrifts(s, op, s', g);
        case RemoveBuddy(_) => RemovalDrifts(s, op, s', g);
        case RemoveContact(_) => ContactRemovalDrifts(s, op, s', g);
        case RemoveChat(_) => ChatRemovalDrifts(s, op, s', g);
        case RemoveGroup(_) => GroupRemovalDrifts(s, op, s', g);
        case DeleteAccount(_) => PurgeDrifts(s, op, s', g);
        case RenameGroup(_, _) => RenameDrifts(s, op, s', g);
        case _ => SameNodesDrift(s, op, s', g);
      }
    }
  }

  lemma SameNodesDrift(s: State, op: Op, s': State, g: Node)
    requires Valid(s) && Valid(s') && Effect(s, op, s') && StaysGroup(s, s', g)
    requires op.RenameBuddy? || op.UpdateStatus? || op.Connect? || op.Disconnect? || op.GetPriority? || op.AddTable?
               || op.RemoveTable?
    ensures DriftsBy(s, s', g)
  {
    hide Valid, Effect;
    SameNodes(s, op, s');
    NothingGone(s, s', g);
  }

  lemma SameNodes(s: State, op: Op, s': State)
    requires Effect(s, op, s')
    requires op.RenameBuddy? || op.UpdateStatus? || op.Connect? || op.Disconnect? || op.GetPriority? || op.AddTable?
               || op.RemoveTable?
    ensures s.info.Keys <= s'.info.Keys && s'.drift == s.drift
  {
    hide Reached, ChildrenOf, Less, GroupPut, ContactPut, ChatPut, BuddyPut, Merged, BuddyRemoved, ContactRemoved,
         ChatRemoved, GroupRemoved, GroupTold;
  }

  lemma PutDrifts(s: State, op: Op, s': State, g: Node)
    requires Valid(s) && Valid(s') && StaysGroup(s, s', g) && op.AddGroup? && Effect(s, op, s')
    ensures DriftsBy(s, s', g)
  {
    hide Valid, InsertAfter, Without;
    NothingGone(s, s', g);
  }

  lemma ChatRemovalDrifts(s: State, op: Op, s': State, g: Node)
    requires Valid(s) && Valid(s') && StaysGroup(s, s', g) && op.RemoveChat? && Allowed(Seen(s), op)
    requires Effect(s, op, s')
    ensures DriftsBy(s, s', g)
  {
    hide Valid, Without;
    BuddiesGone(s, s', {op.n}, g);
  }

  lemma GroupRemovalDrifts(s: State, op: Op, s': State, g: Node)
    requires Valid(s) && Valid(s') && StaysGroup(s, s', g) && op.RemoveGroup? && Allowed(Seen(s), op)
    requires Effect(s, op, s')
    ensures DriftsBy(s, s', g)
  {
    hide Valid, Without;
    BuddiesGone(s, s', {op.g}, g);
  }

  /**
   totalsize against the number of children: the difference grows, with every operation, by exactly the number of
   contacts of the group that the operation deletes, and is otherwise constant.
  */
  lemma TotalsDrift(s: State, op: Op, s': State, g: Node)
    requires Valid(s) && Valid(s') && Step(s, op, s') && StaysGroup(s, s', g)
    ensures Some(g) in s.kids && Some(g) in s'.kids && g in s.sizes.total && g in s'.sizes.total
    ensures s'.sizes.total[g] - |s'.kids[Some(g)]|
              == s.sizes.total[g] - |s.kids[Some(g)]| + Count(s.kids[Some(g)], Deleted(s, s'))
  {
    hide Step, Valid, Deleted;
    StepDrifts(s, op, s', g);
    TotalIs(s, g);
    TotalIs(s', g);
  }

  lemma TotalIs(s: State, g: Node)
    requires Valid(s) && g in s.info && s.info[g].Group?
    ensures Some(g) in s.kids && g in s.sizes.total && g in s.drift
    ensures s.sizes.total[g] == |s.kids[Some(g)]| + s.drift[g]
  {
    hide Linked, Placed, Indexed, Filed, Named, Prioritized, Typed, TotalPreorder, Spelled;
    assert GroupSized(s, g);
  }
}
