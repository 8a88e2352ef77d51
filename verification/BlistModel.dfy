/**
 The state of the buddy list of libpurple/blist.c and what must agree in it: the tree, the hash tables, the cached
 sizes and the cached priority buddies.

 Nodes are ids in a mutable store. A freed node is in no map any more, so reading one of its fields is a proof
 obligation that fails.
*/
module BlistModel {
  import opened BlistSeq
  import opened Options
  import opened BlistLinks

  type Account = int

  /** Everything known about a buddy's presence that is compared or tested for being online. */
  type Presence = int

  /** What blist.c asks of other code. */
  datatype Env = Env(
    normalize: (Account, string) -> string,
    collateKey: string -> string,
    sameIgnoringCase: (string, string) -> bool,
    compare: (Presence, Presence) -> int,
    isOnline: Presence -> bool,
    offline: Presence,
    lastMatch: bool,
    buddiesGroup: string,
    chatsGroup: string)

  /** The node type and the fields that belong to it. */
  datatype Info =
    | Group(name: string)
    | Contact
    | Chat(account: Account)
    | Buddy(account: Account, name: string, presence: Presence)

  /** A key of the buddy tables. */
  datatype Key = Key(name: string, account: Account, group: Node)

  /** totalsize, currentsize and online of contacts and groups. */
  datatype Sizes = Sizes(total: map<Node, int>, current: map<Node, int>, online: map<Node, int>)

  /** priority and priority_valid of contacts. */
  datatype Priorities = Priorities(buddy: map<Node, Ptr>, valid: map<Node, bool>)

  /** purplebuddylist->buddies, buddies_cache and groups_cache. */
  datatype Tables = Tables(buddies: map<Key, Node>, cache: map<Account, map<Key, Node>>, groups: map<string, Node>)

  /**
   All fields of all live nodes and the globals, and beside them the tree they are meant to spell:
   `kids` by parent field, `linked` by sibling pointers (different only while a contact is moved),
   the key each buddy is filed under, and how many emptied contacts each group has lost.
  */
  datatype State = State(
    env: Env,
    links: Links, kids: Lists, linked: Lists,
    info: map<Node, Info>,
    sizes: Sizes, drift: map<Node, nat>,
    priorities: Priorities,
    tables: Tables, keyed: map<Node, Key>,
    connected: set<Account>)

  // ------------------------------------------------------------------ the tree

  /** Groups on top, contacts and chats in groups, buddies in contacts. */
  ghost predicate Fits(info: map<Node, Info>, q: Ptr, n: Node) {
    && n in info
    && match q
       case None => info[n].Group?
       case Some(p) =>
         p in info && ((info[p].Group? && (info[n].Contact? || info[n].Chat?)) || (info[p].Contact? && info[n].Buddy?))
  }

  /** `n` is in no list and knows of none. */
  predicate Loose(l: Links, n: Node) {
    Live(l, n) && l.parent[n] == None && l.prev[n] == None && l.next[n] == None
  }

  /** `n` stands under `q` and knows it. */
  ghost predicate Child(l: Links, info: map<Node, Info>, adrift: set<Node>, q: Ptr, n: Node) {
    Fits(info, q, n) && n in l.parent && l.parent[n] == q && n !in adrift
  }

  ghost predicate Siblings(l: Links, info: map<Node, Info>, adrift: set<Node>, q: Ptr, s: seq<Node>) {
    HasHead(l, q) && NoDup(s) && forall n :: n in s ==> Child(l, info, adrift, q, n)
  }

  /**
   `n` is listed where its parent field says, or is loose; only groups and contacts have children, and only in the tree.
  */
  ghost predicate Standing(l: Links, kids: Lists, info: map<Node, Info>, adrift: set<Node>, n: Node) {
    && n in info && Live(l, n) && Some(n) in kids
    && (kids[Some(n)] != [] ==> info[n].Contact? || info[n].Group?)
    && (n !in adrift ==>
          && ((l.parent[n] in kids && n in kids[l.parent[n]]) || Loose(l, n))
          && (kids[Some(n)] != [] ==> l.parent[n] in kids && n in kids[l.parent[n]]))
  }

  /** Parent fields and child lists agree, except for the nodes `adrift`, which are in no list. */
  ghost predicate Placed(l: Links, kids: Lists, info: map<Node, Info>, adrift: set<Node>) {
    && info.Keys == l.child.Keys
    && None in kids
    && (forall q {:trigger Siblings(l, info, adrift, q, kids[q])} :: q in kids ==>
        Siblings(l, info, adrift, q, kids[q]))
    && (forall n {:trigger Standing(l, kids, info, adrift, n)} :: n in info ==> Standing(l, kids, info, adrift, n))
  }

  // ----------------------------------------------------------------- the sizes

  predicate IsConnected(info: map<Node, Info>, connected: set<Account>, n: Node) {
    n in info && (info[n].Chat? || info[n].Buddy?) && info[n].account in connected
  }

  predicate IsOnline(env: Env, info: map<Node, Info>, connected: set<Account>, n: Node) {
    n in info && info[n].Buddy? && info[n].account in connected && env.isOnline(info[n].presence)
  }

  function ConnectedNodes(info: map<Node, Info>, connected: set<Account>): set<Node> {
    set n | n in info && IsConnected(info, connected, n)
  }

  function OnlineNodes(env: Env, info: map<Node, Info>, connected: set<Account>): set<Node> {
    set n | n in info && IsOnline(env, info, connected, n)
  }

  /** The children that a group counts: contacts whose own count is positive, and chats on connected accounts. */
  function Counting(info: map<Node, Info>, connected: set<Account>, size: map<Node, int>): set<Node> {
    set n | n in info && ((info[n].Contact? && n in size && size[n] > 0)
                          || (info[n].Chat? && IsConnected(info, connected, n)))
  }

  ghost predicate ContactSized(s: State, c: Node) {
    && c in s.sizes.total && c in s.sizes.current && c in s.sizes.online && Some(c) in s.kids
    && s.sizes.total[c] == |s.kids[Some(c)]|
    && s.sizes.current[c] == Count(s.kids[Some(c)], ConnectedNodes(s.info, s.connected))
    && s.sizes.online[c] == Count(s.kids[Some(c)], OnlineNodes(s.env, s.info, s.connected))
  }

  ghost predicate GroupSized(s: State, g: Node) {
    && g in s.sizes.total && g in s.sizes.current && g in s.sizes.online && g in s.drift && Some(g) in s.kids
    && s.sizes.total[g] == |s.kids[Some(g)]| + s.drift[g]
    && s.sizes.current[g] == Count(s.kids[Some(g)], Counting(s.info, s.connected, s.sizes.current))
    && s.sizes.online[g] == Count(s.kids[Some(g)], Counting(s.info, s.connected, s.sizes.online))
  }

  /** Every cached size is what counting the tree gives, a group's total up to its drift. */
  ghost predicate Sized(s: State) {
    && (forall c {:trigger ContactSized(s, c)} :: c in s.info && s.info[c].Contact? ==> ContactSized(s, c))
    && (forall g {:trigger GroupSized(s, g)} :: g in s.info && s.info[g].Group? ==> GroupSized(s, g))
  }

  // ---------------------------------------------------------------- the tables

  /** The entries of one account. */
  function OfAccount(buddies: map<Key, Node>, a: Account): map<Key, Node> {
    map k | k in buddies && k.account == a :: buddies[k]
  }

  /**
   The two buddy tables hold exactly one entry per filed buddy, under its key; each account's table is the part that is
   its.
  */
  ghost predicate Indexed(t: Tables, keyed: map<Node, Key>) {
    && (forall b :: b in keyed ==> keyed[b] in t.buddies && t.buddies[keyed[b]] == b)
    && (forall k :: k in t.buddies ==> t.buddies[k] in keyed && keyed[t.buddies[k]] == k)
    && (forall k :: k in t.buddies ==> k.account in t.cache)
    && (forall a {:trigger t.cache[a]} :: a in t.cache ==> t.cache[a] == OfAccount(t.buddies, a))
  }

  /** `b` is in a contact that is in a group. */
  predicate Attached(l: Links, info: map<Node, Info>, b: Node) {
    && b in info && info[b].Buddy? && b in l.parent && l.parent[b].Some?
    && l.parent[b].value in l.parent && l.parent[l.parent[b].value].Some?
  }

  function KeyOf(env: Env, l: Links, info: map<Node, Info>, b: Node): Key
    requires Attached(l, info, b)
  {
    Key(env.normalize(info[b].account, info[b].name), info[b].account, l.parent[l.parent[b].value].value)
  }

  /** If `b` is in the tree it is filed under its key; if it is filed it is in the tree. */
  ghost predicate BuddyFiled(s: State, but: set<Node>, b: Node) {
    && (b in s.info && s.info[b].Buddy? && b !in but && b in s.links.parent && s.links.parent[b].Some? ==>
          Attached(s.links, s.info, b) && b in s.keyed && s.keyed[b] == KeyOf(s.env, s.links, s.info, b))
    && (b in s.keyed ==> b in s.info && s.info[b].Buddy? && (b !in but ==> Attached(s.links, s.info, b)))
  }

  /** Exactly the buddies in the tree are filed, each under its normalized name, account and group; except for `but`. */
  ghost predicate Filed(s: State, but: set<Node>) {
    forall b {:trigger BuddyFiled(s, but, b)} :: BuddyFiled(s, but, b)
  }

  /** The name index holds exactly the groups of the list; so no two of them share a key. */
  ghost predicate Named(env: Env, groups: map<string, Node>, list: seq<Node>, info: map<Node, Info>) {
    && (forall g :: g in list ==> g in info && info[g].Group? && env.collateKey(info[g].name) in groups
                                  && groups[env.collateKey(info[g].name)] == g)
    && (forall k :: k in groups ==> groups[k] in list && groups[k] in info && info[groups[k]].Group?
                                    && env.collateKey(info[groups[k]].name) == k)
  }

  // -------------------------------------------------------------- the priority

  /** `p` is at least as available as `m` and stands where ties are to be resolved. */
  ghost predicate Preferred(env: Env, info: map<Node, Info>, connected: set<Account>, s: seq<Node>, i: nat, j: nat)
    requires i < |s| && j < |s|
    requires forall n :: n in s ==> n in info && info[n].Buddy?
  {
    IsConnected(info, connected, s[j]) ==>
      var d := env.compare(info[s[i]].presence, info[s[j]].presence);
      && d <= 0
      && (i < j && env.lastMatch ==> d < 0)
      && (j < i && !env.lastMatch ==> d < 0)
  }

  /**
   The i-th is the best connected buddy, first or last among equals as preferred; the first buddy if none is connected.
  */
  ghost predicate BestAt(env: Env, info: map<Node, Info>, connected: set<Account>, s: seq<Node>, i: nat)
    requires i < |s|
    requires forall n :: n in s ==> n in info && info[n].Buddy?
  {
    if IsConnected(info, connected, s[i]) then forall j :: 0 <= j < |s| ==> Preferred(env, info, connected, s, i, j)
    else i == 0 && forall j :: 0 <= j < |s| ==> !IsConnected(info, connected, s[j])
  }

  ghost predicate IsBest(env: Env, info: map<Node, Info>, connected: set<Account>, s: seq<Node>, p: Ptr) {
    && (forall n :: n in s ==> n in info && info[n].Buddy?)
    && (if s == [] then p == None
        else p.Some? && exists i :: 0 <= i < |s| && s[i] == p.value && BestAt(env, info, connected, s, i))
  }

  /** presence_compare orders presences: a total preorder. */
  ghost predicate TotalPreorder(env: Env) {
    && (forall a, b :: env.compare(a, b) > 0 <==> env.compare(b, a) < 0)
    && (forall a, b, c :: env.compare(a, b) <= 0 && env.compare(b, c) <= 0 ==> env.compare(a, c) <= 0)
  }

  ghost predicate ContactPrioritized(s: State, c: Node) {
    && c in s.priorities.buddy && c in s.priorities.valid && Some(c) in s.kids
    && (s.priorities.valid[c] ==> IsBest(s.env, s.info, s.connected, s.kids[Some(c)], s.priorities.buddy[c]))
  }

  /** A priority marked valid is the specified one; except for `but`. */
  ghost predicate Prioritized(s: State, but: set<Node>) {
    forall c {:trigger ContactPrioritized(s, c)} :: c in s.info && s.info[c].Contact? && c !in but ==>
             ContactPrioritized(s, c)
  }

  // ---------------------------------------------------------------- everything

  /**
   What node creation sees to: names, account tables, and presences online only while connected and
   not before the buddy is in a contact.
  */
  ghost predicate Typed(env: Env, info: map<Node, Info>, parent: map<Node, Ptr>, cache: map<Account, map<Key, Node>>,
                        connected: set<Account>) {
    && (forall n {:trigger info[n]} :: n in info && info[n].Buddy? ==>
          && info[n].name != "" && info[n].account in cache
          && (env.isOnline(info[n].presence) ==> info[n].account in connected && n in parent && parent[n].Some?))
    && (forall n {:trigger info[n]} :: n in info && info[n].Group? ==> info[n].name != "")
    && !env.isOnline(env.offline)
    && env.buddiesGroup != "" && env.chatsGroup != ""
  }

  /**
   What an operation in progress may leave open: nodes taken out of the tree, a contact unlinked by its
   siblings but not yet gone, buddies whose table entries are in transition, an emptied contact.
  */
  datatype Excuse = Excuse(adrift: set<Node>, afloat: Ptr, unfiled: set<Node>, doomed: set<Node>)

  const NOTHING: Excuse := Excuse({}, None, {}, {})

  /** The sibling pointers spell the tree, but for the contact afloat. */
  ghost predicate Spelled(s: State, afloat: Ptr) {
    match afloat
    case None => s.linked == s.kids
    case Some(c) =>
      && c in s.info && s.info[c].Contact? && Live(s.links, c)
      && s.links.parent[c] in s.kids && s.links.parent[c].Some? && c in s.kids[s.links.parent[c]]
      && s.linked == s.kids[s.links.parent[c] := Without(s.kids[s.links.parent[c]], c)]
      && Outside(s.links, c)
  }

  ghost predicate Childless(kids: Lists, adrift: set<Node>) {
    forall n :: n in adrift && Some(n) in kids ==> kids[Some(n)] == []
  }

  ghost predicate Sound(s: State, x: Excuse) {
    && Linked(s.links, s.linked)
    && Spelled(s, x.afloat)
    && Placed(s.links, s.kids, s.info, x.adrift)
    && Childless(s.kids, x.adrift)
    && Sized(s)
    && Indexed(s.tables, s.keyed)
    && Filed(s, x.adrift + x.unfiled)
    && None in s.kids && Named(s.env, s.tables.groups, s.kids[None], s.info)
    && Prioritized(s, x.doomed)
    && Typed(s.env, s.info, s.links.parent, s.tables.cache, s.connected)
    && TotalPreorder(s.env)
  }

  /** Between calls. */
  ghost predicate Valid(s: State) {
    Sound(s, NOTHING)
  }
}
