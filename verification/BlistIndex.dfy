/** The buddy tables and the group-name table under single insertions and removals. */
module BlistIndex {
  import opened BlistSeq
  import opened BlistModel

  /** g_hash_table_replace in both buddy tables. */
  function Insert(t: Tables, k: Key, b: Node): Tables
    requires k.account in t.cache
  {
    var mine: map<Key, Node> := t.cache[k.account][k := b];
    t.(buddies := t.buddies[k := b], cache := t.cache[k.account := mine])
  }

  /** g_hash_table_remove in both buddy tables; an absent key is not an error. */
  function Remove(t: Tables, k: Key): Tables
    requires k.account in t.cache
  {
    t.(buddies := Less(t.buddies, k), cache := t.cache[k.account := Less(t.cache[k.account], k)])
  }

  lemma InsertIndexed(t: Tables, keyed: map<Node, Key>, k: Key, b: Node)
    requires Indexed(t, keyed) && k.account in t.cache && k !in t.buddies && b !in keyed
    ensures Indexed(Insert(t, k, b), keyed[b := k])
  {
    var t' := Insert(t, k, b);
    forall a | a in t'.cache ensures t'.cache[a] == OfAccount(t'.buddies, a) {
      assert t.cache[a] == OfAccount(t.buddies, a);
    }
  }

  lemma RemoveIndexed(t: Tables, keyed: map<Node, Key>, b: Node)
    requires Indexed(t, keyed) && b in keyed
    ensures keyed[b].account in t.cache && Indexed(Remove(t, keyed[b]), keyed - {b})
  {
    var t' := Remove(t, keyed[b]);
    forall a | a in t'.cache ensures t'.cache[a] == OfAccount(t'.buddies, a) {
      assert t.cache[a] == OfAccount(t.buddies, a);
    }
  }

  lemma RemoveAbsent(t: Tables, keyed: map<Node, Key>, k: Key)
    requires Indexed(t, keyed) && k !in t.buddies && k.account in t.cache
    ensures Remove(t, k) == t
  {
    assert t.buddies - {k} == t.buddies;
    assert t.cache[k.account] == OfAccount(t.buddies, k.account);
    assert t.cache[k.account] - {k} == t.cache[k.account];
    assert t.cache[k.account := t.cache[k.account]] == t.cache;
  }

  /** The tables cannot hold two buddies under one key. */
  lemma OneKeyOneBuddy(t: Tables, keyed: map<Node, Key>, b: Node, other: Node)
    requires Indexed(t, keyed) && b in keyed && other in keyed && b != other
    ensures keyed[b] != keyed[other]
  {
  }

  /** What holds the name table together when group `g` leaves the list. */
  lemma UnnameKeeps(env: Env, groups: map<string, Node>, list: seq<Node>, info: map<Node, Info>, g: Node)
    requires Named(env, groups, list, info) && NoDup(list) && g in list
    ensures g in info && info[g].Group?
    ensures Named(env, groups - {env.collateKey(info[g].name)}, Without(list, g), info)
  {
    WithoutKeeps(list, g);
    hide Without;
  }

  lemma NameKeeps(env: Env, groups: map<string, Node>, list: seq<Node>, info: map<Node, Info>, g: Node, a: Ptr)
    requires Named(env, groups, list, info) && NoDup(list) && g !in list && (a.Some? ==> a.value in list)
    requires g in info && info[g].Group? && env.collateKey(info[g].name) !in groups
    ensures Named(env, groups[env.collateKey(info[g].name) := g], InsertAfter(list, a, g), info)
  {
    InsertKeeps(list, a, g);
    hide InsertAfter;
  }

  /** Only the listed groups' names matter. */
  lemma NamedSame(env: Env, groups: map<string, Node>, list: seq<Node>, list': seq<Node>,
                  info: map<Node, Info>, info': map<Node, Info>)
    requires Named(env, groups, list, info)
    requires forall g :: g in list <==> g in list'
    requires forall g :: g in list && g in info ==> g in info' && info'[g] == info[g]
    ensures Named(env, groups, list', info')
  {
  }

  lemma RemovedBuddies(t: Tables, k: Key)
    requires k.account in t.cache
    ensures Remove(t, k).buddies == Less(t.buddies, k) && Remove(t, k).groups == t.groups
  {
  }

  lemma InsertedBuddies(t: Tables, k: Key, b: Node)
    requires k.account in t.cache
    ensures Insert(t, k, b).buddies == t.buddies[k := b] && Insert(t, k, b).groups == t.groups
  {
  }

  lemma RemovedCache(t: Tables, k: Key)
    requires k.account in t.cache
    ensures Remove(t, k).cache.Keys == t.cache.Keys
  {
  }
}
