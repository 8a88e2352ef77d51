/** libpurple/blist.c: the operations on the buddy list. */
module Blist {
  import opened BlistSeq
  import opened Options
  import opened BlistLinks
  import opened BlistModel
  import opened BlistSizes
  import opened BlistIndex
  import opened BlistPriority
  import opened BlistSteps
  import opened BlistMoves
  import opened BlistGroups
  import opened BlistFloat
  import opened BlistBuddies
  import opened BlistPlaces
  import opened BlistMerge
  import opened BlistStatus
  import opened BlistSweep
  import opened BlistRename
  import opened BlistScan
  import opened BlistWalk
  import opened BlistPurge

  class BuddyList {
    const env: Env

    /** The list's root, and prev, next, parent and child of every node. */
    var links: Links
    /** Node types and the fields that go with them. */
    var info: map<Node, Info>
    /** totalsize, currentsize and online of contacts and groups. */
    var sizes: Sizes
    /** priority and priority_valid of contacts. */
    var priorities: Priorities
    /** The hash tables. */
    var tables: Tables
    /** purple_account_is_connected. */
    var connected: set<Account>

    ghost var kids: Lists
    ghost var linked: Lists
    ghost var drift: map<Node, nat>
    ghost var keyed: map<Node, Key>

    /** purple_blist_new and purple_set_blist: an empty list, with a table for every account. */
    constructor (env: Env, accounts: set<Account>)
      requires TotalPreorder(env) && !env.isOnline(env.offline) && env.buddiesGroup != "" && env.chatsGroup != ""
      ensures Valid(S()) && this.env == env && kids == map[None := []] && info == map[] && connected == {}
      ensures drift == map[]
      ensures tables == Tables(map[], map a | a in accounts :: map[], map[])
    {
      this.env := env;
      links := Links(None, map[], map[], map[], map[]);
      info := map[];
      sizes := Sizes(map[], map[], map[]);
      priorities := Priorities(map[], map[]);
      tables := Tables(map[], map a | a in accounts :: map[], map[]);
      connected := {};
      kids, linked, drift, keyed := map[None := []], map[None := []], map[], map[];
      new;
      NothingIsValid(S());
    }

    ghost function S(): State
      reads this
    {
      State(env, links, kids, linked, info, sizes, drift, priorities, tables, keyed, connected)
    }

    // ------------------------------------------------------------ primitives

    /** node->next = v. */
    method SetNext(n: Node, v: Ptr)
      requires n in links.next
      modifies `links
      ensures links == old(links).(next := old(links).next[n := v])
    {
      links := links.(next := links.next[n := v]);
    }

    method SetPrev(n: Node, v: Ptr)
      requires n in links.prev
      modifies `links
      ensures links == old(links).(prev := old(links).prev[n := v])
    {
      links := links.(prev := links.prev[n := v]);
    }

    /** The first child of `q`, or the root, becomes `h`. */
    method SetHead(q: Ptr, h: Ptr)
      requires HasHead(links, q)
      modifies `links
      ensures links == WithHead(old(links), q, h)
    {
      match q {
        case None => links := links.(root := h);
        case Some(p) => links := links.(child := links.child[p := h]);
      }
    }

    /** The pointer surgery that takes a node out from between its siblings. */
    method UnlinkNode(n: Node)
      requires Live(links, n) && HasHead(links, links.parent[n])
      requires links.prev[n].Some? ==> links.prev[n].value in links.next
      requires links.next[n].Some? ==> links.next[n].value in links.prev
      modifies `links
      ensures links == Unlinked(old(links), n)
    {
      var before, after := links.prev[n], links.next[n];
      if Head(links, links.parent[n]) == Some(n) {
        SetHead(links.parent[n], after);
      }
      if before.Some? {
        SetNext(before.value, after);
      }
      if after.Some? {
        SetPrev(after.value, before);
      }
    }

    /** The pointer surgery that puts `n` behind its new sibling `a`. */
    method LinkAfter(n: Node, a: Node)
      requires Live(links, n) && Live(links, a) && n != a
      requires links.next[a].Some? ==> links.next[a].value in links.prev
      modifies `links
      ensures links == LinkedBehind(old(links), n, a)
    {
      var b := links.next[a];
      if b.Some? {
        SetPrev(b.value, Some(n));
      }
      SetNext(n, b);
      SetPrev(n, Some(a));
      links := links.(parent := links.parent[n := links.parent[a]]);
      SetNext(a, Some(n));
    }

    /** The pointer surgery that puts `n` in front of the children of `q`, or of the groups. */
    method LinkFirst(n: Node, q: Ptr)
      requires Live(links, n) && HasHead(links, q)
      requires Head(links, q).Some? ==> Head(links, q).value in links.prev
      modifies `links
      ensures links == LinkedFirst(old(links), n, q)
    {
      var first := Head(links, q);
      if first.Some? {
        SetPrev(first.value, Some(n));
      }
      SetPrev(n, None);
      SetNext(n, first);
      links := links.(parent := links.parent[n := q]);
      SetHead(q, Some(n));
    }

    /** `n` gets its place behind its new sibling `a`, or in front, under `q`. */
    method Link(n: Node, q: Ptr, a: Ptr)
      requires Live(links, n) && HasHead(links, q) && (Head(links, q).Some? ==> Head(links, q).value in links.prev)
      requires a.Some? ==> n != a.value && Live(links, a.value)
                           && (links.next[a.value].Some? ==> links.next[a.value].value in links.prev)
      modifies `links
      ensures links == Relinked(old(links), n, q, a)
    {
      if a.Some? {
        LinkAfter(n, a.value);
      } else {
        LinkFirst(n, q);
      }
    }

    predicate Connected(n: Node)
      reads `info, `connected
    {
      IsConnected(info, connected, n)
    }

    /** PURPLE_BUDDY_IS_ONLINE. */
    predicate Online(n: Node)
      reads `info, `connected
    {
      IsOnline(env, info, connected, n)
    }

    /** Counts buddy `b` out of contact `c` and group `g`. */
    method CountOut(b: Node, c: Node, g: Node)
      requires HasSizes(sizes, c) && HasSizes(sizes, g)
      modifies `sizes
      ensures sizes == BuddyOut(old(sizes), IsOnline(env, info, connected, b), IsConnected(info, connected, b), c, g)
    {
      var z := sizes;
      if Online(b) {
        z := z.(online := z.online[c := z.online[c] - 1]);
        if z.online[c] == 0 {
          z := z.(online := z.online[g := z.online[g] - 1]);
        }
      }
      if Connected(b) {
        z := z.(current := z.current[c := z.current[c] - 1]);
        if z.current[c] == 0 {
          z := z.(current := z.current[g := z.current[g] - 1]);
        }
      }
      sizes := z.(total := z.total[c := z.total[c] - 1]);
    }

    /** Counts buddy `b` into contact `c` and group `g`. */
    method CountIn(b: Node, c: Node, g: Node)
      requires HasSizes(sizes, c) && HasSizes(sizes, g)
      modifies `sizes
      ensures sizes == BuddyIn(old(sizes), IsOnline(env, info, connected, b), IsConnected(info, connected, b), c, g)
    {
      var z := sizes;
      if Online(b) {
        z := z.(online := z.online[c := z.online[c] + 1]);
        if z.online[c] == 1 {
          z := z.(online := z.online[g := z.online[g] + 1]);
        }
      }
      if Connected(b) {
        z := z.(current := z.current[c := z.current[c] + 1]);
        if z.current[c] == 1 {
          z := z.(current := z.current[g := z.current[g] + 1]);
        }
      }
      sizes := z.(total := z.total[c := z.total[c] + 1]);
    }

    /** Counts contact or chat `n` into (d = 1) or out of (d = -1) group `g`. */
    method CountChild(n: Node, g: Node, d: int)
      requires HasSizes(sizes, g) && n in info && (info[n].Contact? || info[n].Chat?)
      requires info[n].Contact? ==> HasSizes(sizes, n)
      modifies `sizes
      ensures sizes == ChildMoves(old(sizes), CountsOnline(old(S()), n), CountsCurrent(old(S()), n), g, d)
    {
      var countsOnline := if info[n].Contact? then sizes.online[n] > 0 else Connected(n);
      var countsCurrent := if info[n].Contact? then sizes.current[n] > 0 else Connected(n);
      var z := sizes;
      if countsOnline {
        z := z.(online := z.online[g := z.online[g] + d]);
      }
      if countsCurrent {
        z := z.(current := z.current[g := z.current[g] + d]);
      }
      sizes := z.(total := z.total[g := z.total[g] + d]);
    }

    /** g_hash_table_replace in both buddy tables. */
    method InsertEntry(k: Key, b: Node)
      requires k.account in tables.cache
      modifies `tables
      ensures tables == Insert(old(tables), k, b) && tables.cache.Keys == old(tables.cache.Keys)
    {
      tables := tables.(buddies := tables.buddies[k := b]);
      var mine: map<Key, Node> := tables.cache[k.account][k := b];
      tables := tables.(cache := tables.cache[k.account := mine]);
    }

    /** g_hash_table_remove in both buddy tables. */
    method RemoveEntry(k: Key)
      requires k.account in tables.cache
      modifies `tables
      ensures tables == Remove(old(tables), k) && tables.cache.Keys == old(tables.cache.Keys)
    {
      tables := tables.(buddies := Less(tables.buddies, k));
      tables := tables.(cache := tables.cache[k.account := Less(tables.cache[k.account], k)]);
    }

    /** purple_contact_invalidate_priority_buddy. */
    method Invalidate(c: Node)
      requires c in priorities.valid
      modifies `priorities
      ensures priorities == old(priorities).(valid := old(priorities).valid[c := false])
    {
      priorities := priorities.(valid := priorities.valid[c := false]);
    }

    /** g_free of a node. */
    method FreeNode(n: Node)
      requires n in info
      modifies `links, `info, `sizes, `priorities, `kids, `linked, `drift
      ensures S() == Vanished(old(S()), n)
    {
      hide Less, Freed, Forgotten;
      links := Freed(links, n);
      info := Less(info, n);
      sizes := Forgotten(sizes, n);
      priorities := Priorities(Less(priorities.buddy, n), Less(priorities.valid, n));
      kids, linked, drift := Less(kids, Some(n)), Less(linked, Some(n)), Less(drift, n);
    }

    // ------------------------------------------------------- removing things

    /** The else branch of purple_blist_remove_contact: an empty contact is unlinked and freed. */
    method DeleteEmptyContact(c: Node, ghost x: Excuse)
      requires Sound(S(), x) && c in info && info[c].Contact? && c !in x.adrift && Some(c) in kids
      requires kids[Some(c)] == []
      requires c in links.parent && links.parent[c].Some? && (x.afloat == None || x.afloat == Some(c))
      modifies `links, `info, `sizes, `priorities, `kids, `linked, `drift
      ensures Sound(S(), x.(afloat := None, doomed := x.doomed - {c}))
      ensures var g := old(links.parent[c].value);
              && Some(g) in old(kids) && g in old(drift)
              && kids == Less(old(kids)[Some(g) := Without(old(kids)[Some(g)], c)], Some(c))
              && drift == Less(old(drift)[g := old(drift)[g] + 1], c)
      ensures info == Less(old(info), c) && links.parent == Less(old(links).parent, c)
    {
      hide Linked, Placed, Sized, Sound, Indexed, Filed, Named, Prioritized, Typed, TotalPreorder, Without, Unlinked,
           Less, Forgotten;
      ghost var s0 := S();
      ContactStands(s0, x, c);
      var g := links.parent[c].value;
      ContactNeighbours(s0, x, c, g);
      EmptiedSound(s0, x, c, g);
      UnlinkNode(c);
      kids := kids[Some(g) := Without(kids[Some(g)], c)];
      linked := linked[Some(g) := Without(linked[Some(g)], c)];
      drift := drift[g := drift[g] + 1];
      ghost var s1, x1 := S(), x.(adrift := x.adrift + {c}, afloat := None);
      assert s1 == Emptied(s0, c, g);
      NotFiled(s1, x1, c);
      VanishedSound(s1, x1, c);
      FreeNode(c);
      assert x1.adrift - {c} == x.adrift;
      UnlinkedParents(s0.links, c);
    }

    /** The key under which a buddy with this account and name is filed in group `g`. */
    function KeyFor(account: Account, name: string, g: Node): Key {
      Key(env.normalize(account, name), account, g)
    }

    /** Unlinks buddy `b`, counts it out, and invalidates its contact's priority if `b` was it and others remain. */
    method TakeOut(b: Node, c: Node, g: Node, ghost x: Excuse) returns (ghost x': Excuse)
      requires Sound(S(), x) && BuddyAt(S(), b, c, g) && b !in x.adrift && c !in x.doomed
      modifies `links, `sizes, `priorities, `kids, `linked
      ensures Sound(S(), x') && x' == x.(adrift := x.adrift + {b}, doomed := x'.doomed)
      ensures x'.doomed <= x.doomed + if Without(old(kids)[Some(c)], b) == [] then {c} else {}
      ensures kids == old(kids)[Some(c) := Without(old(kids)[Some(c)], b)]
      ensures links.parent == old(links).parent
    {
      hide Linked, Placed, Sized, Sound, Indexed, Filed, Named, Prioritized, Typed, TotalPreorder, Without, Unlinked,
           BuddyOut;
      ghost var s0 := S();
      BuddyNeighbours(s0, x, b, c);
      UnlinkNode(b);
      DepartedSound(s0, x, b, c, g, true);
      DepartedSound(s0, x, b, c, g, false);
      TakenHead(s0, x, b, c, g);
      ContactHasPriority(s0, x, c);
      UnlinkedParents(s0.links, b);
      CountOut(b, c, g);
      ghost var keep := !(links.child[c].Some? && priorities.buddy[c] == Some(b));
      if links.child[c].Some? && priorities.buddy[c] == Some(b) {
        Invalidate(c);
      }
      kids := kids[Some(c) := Without(kids[Some(c)], b)];
      linked := linked[Some(c) := Without(linked[Some(c)], b)];
      ghost var s1 := S();
      assert s1 == Departed(s0, b, c, g, keep);
      x' := Doomed(s0, x, b, c, keep);
    }

    /** The first part of purple_blist_remove_buddy: the buddy is unlinked, counted out, unfiled and freed. */
    method PluckBuddy(b: Node, c: Node, g: Node, ghost x: Excuse)
      requires Sound(S(), x) && x.adrift == {} && x.doomed == {} && BuddyAt(S(), b, c, g)
      requires b in x.unfiled ==> Files(S(), b, KeyFor(info[b].account, info[b].name, g))
      requires x.afloat == None || x.afloat == Some(c)
      modifies `links, `info, `sizes, `priorities, `tables, `kids, `linked, `drift, `keyed
      ensures Plucked(old(S()), S(), b, c, g)
      ensures Sound(S(),
                    x.(unfiled := x.unfiled - {b}, doomed := if Without(old(kids)[Some(c)], b) == [] then {c} else {}))
      ensures tables.cache.Keys == old(tables.cache.Keys)
    {
      hide Linked, Placed, Sized, Sound, Indexed, Filed, Named, Prioritized, Typed, TotalPreorder, Without, Unlinked,
           Less, Forgotten;
      ghost var s0 := S();
      var k := KeyFor(info[b].account, info[b].name, g);
      FiledUnder(s0, x, b, c, g);
      ghost var x1 := TakeOut(b, c, g, x);
      assert Files(S(), b, k);
      UnfiledSound(S(), x1, b, k);
      RemoveEntry(k);
      keyed := keyed - {b};
      VanishedSound(S(), x1, b);
      FreeNode(b);
      assert x1.adrift - {b} == {};
      ghost var x2 := x1.(adrift := {}, doomed := x1.doomed - {b});
      LessGone(s0.info, b);
      LooserExcuse(S(), x2, b, if Without(s0.kids[Some(c)], b) == [] then {c} else {});
    }

    /** purple_blist_remove_buddy for a buddy in the tree, also while its contact is being moved. */
    method DropBuddy(b: Node, ghost x: Excuse)
      requires Sound(S(), x) && x.adrift == {} && x.doomed == {}
      requires b in info && info[b].Buddy? && b in links.parent && links.parent[b].Some?
      requires x.afloat == None || x.afloat == links.parent[b]
      requires b in x.unfiled ==>
                 var c := links.parent[b].value;
                 c in links.parent && links.parent[c].Some?
                 && Files(S(), b, KeyFor(info[b].account, info[b].name, links.parent[c].value))
      modifies `links, `info, `sizes, `priorities, `tables, `kids, `linked, `drift, `keyed
      ensures var c := old(links.parent[b].value);
              && c in old(links.parent) && old(links.parent[c]).Some?
              && var g := old(links.parent[c].value);
                 && BuddyAt(old(S()), b, c, g) && g in old(drift)
                 && Dropped(old(S()), S(), b, c, g)
                 && Sound(S(), x.(unfiled := x.unfiled - {b},
                                  afloat := if Without(old(kids)[Some(c)], b) == [] then None else x.afloat))
      ensures tables.cache.Keys == old(tables.cache.Keys)
    {
      hide Linked, Placed, Sized, Sound, Indexed, Filed, Named, Prioritized, Typed, TotalPreorder, Without, Less,
           Plucked;
      ghost var s0 := S();
      BuddyStands(s0, x, b);
      var c := links.parent[b].value;
      var g := links.parent[c].value;
      GroupDrift(s0, x, g);
      PluckBuddy(b, c, g, x);
      ghost var s1 := S();
      ghost var last := Without(s0.kids[Some(c)], b) == [];
      ghost var x1 := x.(unfiled := x.unfiled - {b}, doomed := if last then {c} else {});
      PluckedRest(s0, s1, b, c, g);
      HeadIsFirst(s1, x1, c);
      if links.child[c] == None {
        DeleteEmptyContact(c, x1);
        assert x1.doomed - {c} == {};
        PluckedLast(s0, s1, S(), b, c, g);
      }
    }

    /**
     purple_blist_remove_buddy. A buddy outside the tree is only freed: no table entry can have
     its key, whose group is NULL.
    */
    method RemoveBuddy(b: Node)
      requires Valid(S()) && b in info && info[b].Buddy? && b in links.parent
      modifies this
      ensures Valid(S()) && connected == old(connected)
      ensures old(links.parent[b]) == None ==>
                info == Less(old(info), b) && kids == Less(old(kids), Some(b)) && drift == Less(old(drift), b)
      ensures old(links.parent[b]).Some? ==>
                var c := old(links.parent[b].value);
                && c in old(links.parent) && old(links.parent[c]).Some?
                && BuddyAt(old(S()), b, c, old(links.parent[c].value)) && old(links.parent[c].value) in old(drift)
                && Dropped(old(S()), S(), b, c, old(links.parent[c].value))
      ensures BuddyLeaves(old(S()), S(), b)
    {
      hide Linked, Placed, Sized, Sound, Indexed, Filed, Named, Prioritized, Typed, TotalPreorder, Without, Less,
           Forgotten, Dropped, BuddyLeaves;
      ghost var s0 := S();
      if links.parent[b].Some? {
        DropBuddy(b, NOTHING);
        StillNothing(b);
        DroppedLeaves(s0, S(), b, s0.links.parent[b].value, s0.links.parent[s0.links.parent[b].value].value);
      } else {
        LooseOutside(s0, NOTHING, b);
        LooseIsAdrift(s0, NOTHING, b);
        ghost var x := NOTHING.(adrift := {} + {b});
        VanishedSound(s0, x, b);
        FreeNode(b);
        assert x.(adrift := x.adrift - {b}, doomed := x.doomed - {b}) == NOTHING;
        LooseLeaves(s0, S(), b);
      }
    }

    /** The loop of purple_blist_remove_contact over the buddies of a contact. */
    method DropAllBuddies(c: Node, ghost g: Node)
      requires Valid(S()) && Siting(S(), {}, c, g) && c != g && c in links.parent && links.parent[c] == Some(g)
      requires kids[Some(c)] != [] && g in drift
      modifies this
      ensures Valid(S()) && connected == old(connected)
      ensures var gone := Elements(old(kids)[Some(c)]) + {c};
              && kids == KidsMinus(old(kids)[Some(g) := Without(old(kids)[Some(g)], c)], gone)
              && info == Minus(old(info), gone)
              && drift == Minus(old(drift)[g := old(drift)[g] + 1], gone)
      ensures tables.cache.Keys == old(tables.cache.Keys)
    {
      hide Linked, Placed, Sized, Sound, Indexed, Filed, Named, Prioritized, Typed, TotalPreorder, Without, Less,
           Minus, KidsMinus, Elements;
      ghost var s0 := S();
      ghost var l, i := kids[Some(c)], 0;
      BuddyKids(s0, {}, c) by { Soundly(s0, NOTHING); }
      PrunedStart(s0, c);
      HeadIsFirst(s0, NOTHING, c);
      NextIs(s0, c, 0);
      while links.next[links.child[c].value].Some?
        invariant 0 <= i < |l|
        invariant Valid(S()) && Pruned(s0, S(), c, l, i) && connected == old(connected)
        invariant tables.cache.Keys == old(tables.cache.Keys)
        invariant c in links.child && links.child[c] == Some(l[i]) && l[i] in links.next
        invariant links.next[l[i]].Some? <==> i + 1 < |l|
        decreases |l| - i
      {
        ghost var s1 := S();
        PrunedStep(s0, s1, c, g, l, i);
        DropBuddy(links.child[c].value, NOTHING);
        StillNothing(l[i]);
        PrunedNext(s0, s1, S(), c, g, l, i);
        PrunedStep(s0, S(), c, g, l, i + 1);
        i := i + 1;
        HeadIsFirst(S(), NOTHING, c);
        NextIs(S(), c, 0);
      }
      ghost var s1 := S();
      PrunedStep(s0, s1, c, g, l, i);
      DropBuddy(links.child[c].value, NOTHING);
      StillNothing(l[i]);
      PrunedAll(s0, s1, S(), c, g, l);
    }

    /** purple_blist_remove_contact: the contact goes with its last buddy, or by itself if it has none. */
    method RemoveContact(c: Node)
      requires Valid(S()) && c in info && info[c].Contact? && c in links.parent && links.parent[c].Some?
      modifies this
      ensures Valid(S()) && connected == old(connected)
      ensures var g := old(links.parent[c].value);
              && Some(g) in old(kids) && Some(c) in old(kids) && g in old(drift)
              && var gone := Elements(old(kids)[Some(c)]) + {c};
                 && kids == KidsMinus(old(kids)[Some(g) := Without(old(kids)[Some(g)], c)], gone)
                 && info == Minus(old(info), gone)
                 && drift == Minus(old(drift)[g := old(drift)[g] + 1], gone)
      ensures tables.cache.Keys == old(tables.cache.Keys)
    {
      hide Linked, Placed, Sized, Sound, Indexed, Filed, Named, Prioritized, Typed, TotalPreorder, Without, Less,
           Forgotten;
      ghost var s0 := S();
      ContactStands(s0, NOTHING, c);
      ghost var g := links.parent[c].value;
      ghost var l := kids[Some(c)];
      HeadIsFirst(s0, NOTHING, c);
      GroupDrift(s0, NOTHING, g);
      if links.child[c].Some? {
        DropAllBuddies(c, g);
      } else {
        DeleteEmptyContact(c, NOTHING);
        assert Elements(l) + {c} == {c};
        assert NOTHING.doomed - {c} == {};
        OneGone(s0.kids[Some(g) := Without(s0.kids[Some(g)], c)], s0.info, s0.drift[g := s0.drift[g] + 1], c);
      }
    }

    /** purple_blist_remove_chat. */
    method RemoveChat(n: Node)
      requires Valid(S()) && n in info && info[n].Chat? && n in links.parent
      modifies this
      ensures Valid(S())
      ensures info == Less(old(info), n) && drift == Less(old(drift), n) && tables == old(tables)
      ensures connected == old(connected)
      ensures old(links.parent[n]) == None ==> kids == Less(old(kids), Some(n))
      ensures old(links.parent[n]).Some? ==>
                var q := old(links.parent[n]);
                q in old(kids) && kids == Less(old(kids)[q := Without(old(kids)[q], n)], Some(n))
    {
      hide Linked, Placed, Sized, Sound, Indexed, Filed, Named, Prioritized, Typed, TotalPreorder, Without, Less,
           Forgotten, Unlinked, ChildMoves;
      ghost var s0 := S();
      ChildStands(s0, n);
      NotFiled(s0, NOTHING, n);
      if links.parent[n].Some? {
        var g := links.parent[n].value;
        MayUnlink(s0, Some(g), n);
        GroupKids(s0, g);
        ChildLeftSound(s0, NOTHING, n, g);
        UnlinkedParents(s0.links, n);
        UnlinkNode(n);
        CountChild(n, g, -1);
        kids := kids[Some(g) := Without(kids[Some(g)], n)];
        linked := linked[Some(g) := Without(linked[Some(g)], n)];
        assert S() == ChildLeft(s0, n, g);
      } else {
        LooseIsAdrift(s0, NOTHING, n);
      }
      ghost var x := NOTHING.(adrift := NOTHING.adrift + {n});
      VanishedSound(S(), x, n);
      FreeNode(n);
      assert x.(adrift := x.adrift - {n}, doomed := x.doomed - {n}) == NOTHING;
    }

    /** purple_find_group. */
    function FindGroup(name: string): Ptr
      reads this
    {
      if name == "" then None
      else if env.collateKey(name) in tables.groups then Some(tables.groups[env.collateKey(name)]) else None
    }

    /**
     purple_blist_remove_group. A group with children stays. Removing a group that is not in the list
     leaves everything in order exactly if no listed group goes by its name.
    */
    method RemoveGroup(g: Node)
      requires Valid(S()) && g in info && info[g].Group? && None in kids && Some(g) in kids
      modifies this
      ensures connected == old(connected)
      ensures old(kids[Some(g)]) != [] ==> S() == old(S())
      ensures old(kids[Some(g)]) == [] ==>
                && info == Less(old(info), g) && drift == Less(old(drift), g) && tables.buddies == old(tables.buddies)
                && kids == Less(old(kids)[None := Without(old(kids)[None], g)], Some(g))
                && tables.groups == Less(old(tables.groups), NameKey(old(S()), g))
                && (Valid(S()) <==> g in old(kids)[None] || Namesake(old(S()), g) == None)
    {
      hide Linked, Placed, Sized, Sound, Indexed, Filed, Named, Prioritized, Typed, TotalPreorder, Without, Less,
           Forgotten, Unlinked, Valid;
      ghost var s0 := S();
      GroupListed(s0, g);
      HeadOf(s0, Some(g));
      if links.child[g].Some? {
        return;
      }
      if g in kids[None] {
        MayUnlink(s0, None, g);
        GroupOutSound(s0, g) by { ValidIs(s0); }
      }
      UnlinkNode(g);
      tables := tables.(groups := Less(tables.groups, env.collateKey(info[g].name)));
      kids := kids[None := Without(kids[None], g)];
      linked := kids;
      ghost var s1 := S();
      ghost var x := NOTHING.(adrift := {g});
      if g in s0.kids[None] {
        assert s1 == GroupOut(s0, g);
        NotFiled(s1, x, g);
        VanishedSound(s1, x, g);
      } else {
        GroupLoose(s0, s1, g);
        if NameKey(s0, g) !in s0.tables.groups {
          NotFiled(s1, x, g);
          VanishedSound(s1, x, g);
        }
      }
      FreeNode(g);
      if g !in s0.kids[None] && NameKey(s0, g) in s0.tables.groups {
        GroupGone(s0, s1, S(), g);
      }
      assert x.(adrift := x.adrift - {g}, doomed := x.doomed - {g}) == NOTHING;
      ValidIs(S());
    }

    // ------------------------------------------------------------- groups

    /** purple_blist_get_last_sibling, of the first under `q`. */
    method LastSibling(n: Ptr, ghost q: Ptr) returns (r: Ptr)
      requires Valid(S()) && q in kids && n == First(kids[q])
      ensures r == Last(kids[q])
    {
      hide Valid;
      ghost var l := kids[q];
      if n == None {
        return None;
      }
      var m := n.value;
      ghost var i := 0;
      SiblingAt(S(), q, 0);
      while links.next[m].Some?
        invariant 0 <= i < |l| && m == l[i] && m in links.next && links.next[m] == After(l, i)
        decreases |l| - i
      {
        m := links.next[m].value;
        i := i + 1;
        SiblingAt(S(), q, i);
      }
      r := Some(m);
    }

    /** g_new0 of a node. */
    method Allocate(n: Node, x: Info)
      requires n !in info
      modifies `links, `info, `sizes, `priorities, `kids, `linked, `drift
      ensures S() == Appeared(old(S()), n, x)
    {
      hide Allocated;
      ghost var s0 := S();
      ghost var s1 := Appeared(s0, n, x);
      AppearedFields(s0, n, x);
      BornFields(s0, n, x);
      hide Appeared, Born;
      links := Allocated(links, n);
      info := info[n := x];
      sizes := if x.Group? || x.Contact? then Sizes(sizes.total[n := 0], sizes.current[n := 0], sizes.online[n := 0])
          else sizes;
      priorities := if x.Contact? then Priorities(priorities.buddy[n := None], priorities.valid[n := false])
          else priorities;
      kids, linked := kids[Some(n) := []], linked[Some(n) := []];
      drift := if x.Group? then drift[n := 0] else drift;
      SameFields(S(), s1);
    }

    /** purple_group_new; `n` is the memory the allocator would hand out. */
    method NewGroup(name: string, n: Node) returns (g: Node)
      requires Valid(S()) && name != "" && n !in info
      modifies this
      ensures Valid(S()) && None in old(kids)
      ensures FindGroup(name) == old(FindGroup(name)) && tables == old(tables) && connected == old(connected)
      ensures old(FindGroup(name)).Some? ==> g == old(FindGroup(name)).value && S() == old(S())
      ensures old(FindGroup(name)) == None ==>
                g == n && S() == Appeared(old(S()), n, Group(name)) && n !in old(kids)[None]
    {
      hide Linked, Placed, Sized, Sound, Indexed, Filed, Named, Prioritized, Typed, TotalPreorder, Appeared;
      ghost var s0 := S();
      Soundly(s0, NOTHING);
      if FindGroup(name).Some? {
        return FindGroup(name).value;
      }
      AppearedSound(s0, n, Group(name));
      AppearedFields(s0, n, Group(name));
      Allocate(n, Group(name));
      g := n;
    }

    /** purple_contact_new. */
    method NewContact(n: Node)
      requires Valid(S()) && n !in info
      modifies this
      ensures Valid(S()) && S() == Appeared(old(S()), n, Contact) && None in old(kids) && n !in old(kids)[None]
      ensures Loose(links, n)
    {
      hide Linked, Placed, Sized, Sound, Indexed, Filed, Named, Prioritized, Typed, TotalPreorder, Appeared;
      Soundly(S(), NOTHING);
      AppearedSound(S(), n, Contact);
      Allocate(n, Contact);
    }

    /** purple_chat_new. */
    method NewChat(account: Account, n: Node)
      requires Valid(S()) && n !in info
      modifies this
      ensures Valid(S()) && S() == Appeared(old(S()), n, Chat(account))
    {
      hide Linked, Placed, Sized, Sound, Indexed, Filed, Named, Prioritized, Typed, TotalPreorder, Appeared;
      AppearedSound(S(), n, Chat(account));
      Allocate(n, Chat(account));
    }

    /** purple_buddy_new: its presence starts offline. */
    method NewBuddy(account: Account, name: string, n: Node)
      requires Valid(S()) && n !in info && name != "" && account in tables.cache
      modifies this
      ensures Valid(S()) && S() == Appeared(old(S()), n, Buddy(account, name, env.offline))
    {
      hide Linked, Placed, Sized, Sound, Indexed, Filed, Named, Prioritized, Typed, TotalPreorder, Appeared;
      AppearedSound(S(), n, Buddy(account, name, env.offline));
      Allocate(n, Buddy(account, name, env.offline));
    }

    /** The part of purple_blist_add_group that unlinks or indexes the group, and links it. */
    method PlaceGroup(g: Node, a: Ptr)
      requires Valid(S()) && g in info && info[g].Group? && None in kids
      requires a.Some? ==> a.value in kids[None] && a.value != g
      requires Live(links, g) && HasHead(links, links.parent[g]) && (a.Some? ==> Live(Loosened(S(), g), a.value))
      modifies `links, `tables, `kids, `linked
      ensures S() == WithGroup(old(S()), g, a)
    {
      hide Linked, Placed, Sized, Sound, Indexed, Filed, Named, Prioritized, Typed, TotalPreorder, Without,
           InsertAfter, Unlinked, Relinked, Valid;
      ghost var s0 := S();
      GroupListed(s0, g);
      TypedAt(s0, NOTHING, g) by { ValidIs(s0); }
      GroupPlaces(s0, g, a);
      var found := FindGroup(info[g].name);
      assert found.Some? <==> NameKey(s0, g) in tables.groups;
      WithGroupFields(s0, g, a);
      ghost var s1 := WithGroup(s0, g, a);
      hide WithGroup, Regrouped;
      if found.Some? {
        UnlinkNode(g);
      } else {
        tables := tables.(groups := tables.groups[env.collateKey(info[g].name) := g]);
      }
      assert links == Loosened(s0, g);
      hide Loosened, Live;
      Link(g, None, a);
      kids := kids[None := InsertAfter(Without(kids[None], g), a, g)];
      linked := kids;
      SameFields(S(), s1);
    }

    /**
     purple_blist_add_group: `g` goes behind group `node`, or in front. A group that is in the list is moved.
     The list stays in order exactly if no other group goes by the same name.
    */
    method AddGroup(g: Node, node: Ptr)
      requires Valid(S()) && g in info && info[g].Group? && None in kids
      requires node.Some? ==>
                 node.value in info && (info[node.value].Group? ==> node.value == g || node.value in kids[None])
      modifies this
      ensures info == old(info) && drift == old(drift)
      ensures tables.buddies == old(tables.buddies) && tables.cache == old(tables.cache) && connected == old(connected)
      ensures node == Some(g) && old(kids[None]) != [] ==> S() == old(S())
      ensures node != Some(g) || old(kids[None]) == [] ==>
                var a := if node.Some? && info[node.value].Group? && node.value != g then node else None;
                && kids == old(kids)[None := InsertAfter(Without(old(kids)[None], g), a, g)]
                && links.parent == old(links.parent)
                && (Valid(S()) <==> Namesake(old(S()), g) == None || Namesake(old(S()), g) == Some(g))
                && (Valid(S()) ==> tables.groups == old(tables.groups)[NameKey(old(S()), g) := g])
    {
      hide Linked, Placed, Sized, Sound, Indexed, Filed, Named, Prioritized, Typed, TotalPreorder, Without,
           InsertAfter, Unlinked, Relinked, Valid;
      ghost var s0 := S();
      var node := node;
      GroupListed(s0, g);
      HeadOf(s0, None);
      if node == Some(g) {
        if links.root == None {
          node := None;
        } else {
          return;
        }
      }
      var a := if node.Some? && info[node.value].Group? then node else None;
      GroupPlaces(s0, g, a);
      GroupAdded(s0, g, a);
      WithGroupFields(s0, g, a);
      PlaceGroup(g, a);
    }

    /** The group is appended to the list unless a group there has its name. */
    method AppendGroup(g: Node)
      requires Valid(S()) && g in info && info[g].Group? && None in kids
      requires g in kids[None] || Namesake(S(), g) == None
      modifies this
      ensures Valid(S()) && kids == Listed(old(kids), g)
      ensures info == old(info) && drift == old(drift) && links.parent == old(links.parent)
      ensures tables.buddies == old(tables.buddies) && tables.cache == old(tables.cache) && connected == old(connected)
    {
      hide Linked, Placed, Sized, Sound, Indexed, Filed, Named, Prioritized, Typed, TotalPreorder, Without,
           InsertAfter, Valid;
      ghost var s0 := S();
      TypedAt(s0, NOTHING, g) by { ValidIs(s0); }
      assert FindGroup(info[g].name) == Namesake(s0, g);
      if FindGroup(info[g].name) == None {
        HeadOf(s0, None);
        var last := LastSibling(links.root, None);
        ListedAfter(s0, g);
        AddGroup(g, last);
      }
    }

    /**
     The start of purple_blist_add_chat and purple_blist_add_buddy: the group asked for, or else the one
     with the default name, appended to the list if no group there has its name. `n` is fresh memory.
    */
    method TargetGroup(group: Ptr, name: string, n: Node) returns (g: Node)
      requires Valid(S()) && None in kids && name != "" && n !in info
      requires group.Some? ==> group.value in info && info[group.value].Group?
                               && (group.value in kids[None] || Namesake(S(), group.value) == None)
      modifies this
      ensures Valid(S()) && g in info && info[g].Group? && None in kids && g in kids[None] && Some(g) in kids
      ensures g == if group.Some? then group.value else if old(FindGroup(name)).Some? then old(FindGroup(name)).value
                else n
      ensures kids == Listed(old(kids), g)
      ensures info == (if g == n then old(info)[n := Group(name)] else old(info))
      ensures drift == (if g == n then old(drift)[n := 0] else old(drift))
      ensures links.parent == (if g == n then old(links.parent)[n := None] else old(links.parent))
      ensures tables.buddies == old(tables.buddies) && tables.cache == old(tables.cache) && connected == old(connected)
    {
      hide Linked, Placed, Sized, Sound, Indexed, Filed, Named, Prioritized, Typed, TotalPreorder, Valid, Appeared;
      ghost var s0 := S();
      if group.Some? {
        g := group.value;
      } else {
        g := NewGroup(name, n);
        GroupMade(s0, n, name);
      }
      if group.None? && g != n {
        GroupIndexed(s0, env.collateKey(name));
      }
      AppendGroup(g);
      TopIsGroup(S(), g);
    }

    // ---------------------------------------------------- contacts and chats

    /** A childless contact or a chat is counted out of its group and unlinked. */
    method LeaveGroup(n: Node, g: Node)
      requires Valid(S()) && n in info && (info[n].Contact? || info[n].Chat?) && n in links.parent
      requires links.parent[n] == Some(g)
      requires Some(n) in kids && kids[Some(n)] == []
      modifies `links, `sizes, `kids, `linked
      ensures Sound(S(), NOTHING.(adrift := {n})) && Some(g) in old(kids)
      ensures kids == old(kids)[Some(g) := Without(old(kids)[Some(g)], n)] && links.parent == old(links.parent)
    {
      hide Linked, Placed, Sized, Sound, Indexed, Filed, Named, Prioritized, Typed, TotalPreorder, Without, Unlinked,
           ChildMoves;
      ghost var s0 := S();
      ChildStands(s0, n);
      MayUnlink(s0, Some(g), n);
      ChildLeftSound(s0, NOTHING, n, g);
      ChildLeftFields(s0, n, g);
      UnlinkedParents(s0.links, n);
      ghost var s1 := ChildLeft(s0, n, g);
      assert s1.sizes == ChildMoves(s0.sizes, CountsOnline(s0, n), CountsCurrent(s0, n), g, -1);
      hide ChildLeft, AfterChild;
      ContactHasSizes(s0, NOTHING, n);
      CountChild(n, g, -1);
      UnlinkNode(n);
      kids := kids[Some(g) := Without(kids[Some(g)], n)];
      linked := linked[Some(g) := Without(linked[Some(g)], n)];
      SameFields(S(), s1);
      assert NOTHING.adrift + {n} == {n};
    }

    /** A childless contact or a chat is linked behind `a` in group `g`, or in front, and counted in. */
    method EnterGroup(n: Node, g: Node, a: Ptr)
      requires Sound(S(), NOTHING.(adrift := {n})) && n in info && (info[n].Contact? || info[n].Chat?)
      requires g in info && info[g].Group? && None in kids && g in kids[None] && Some(g) in kids
      requires a.Some? ==> a.value in kids[Some(g)]
      modifies `links, `sizes, `kids, `linked
      ensures Valid(S())
      ensures kids == old(kids)[Some(g) := InsertAfter(old(kids)[Some(g)], a, n)]
      ensures links.parent == old(links.parent)[n := Some(g)]
    {
      hide Linked, Placed, Sized, Sound, Indexed, Filed, Named, Prioritized, Typed, TotalPreorder, InsertAfter,
           Relinked, ChildMoves;
      ghost var s0, x := S(), NOTHING.(adrift := {n});
      MayLinkIn(s0, x, Some(g), a);
      Adrifts(s0, x, n, Some(g));
      JoinedLinks(s0, x, n, a, g);
      ChildJoinedSound(s0, x, n, a, g);
      ChildJoinedFields(s0, n, a, g);
      ghost var s1 := ChildJoined(s0, n, a, g);
      assert s1.sizes == ChildMoves(s0.sizes, CountsOnline(s0, n), CountsCurrent(s0, n), g, 1);
      hide ChildJoined, AfterChild;
      ContactHasSizes(s0, x, n);
      Link(n, Some(g), a);
      CountChild(n, g, 1);
      kids := kids[Some(g) := InsertAfter(kids[Some(g)], a, n)];
      linked := linked[Some(g) := InsertAfter(linked[Some(g)], a, n)];
      SameFields(S(), s1);
      assert {n} - {n} == {};
    }

    /** A childless contact or a chat goes from where it is, if anywhere, to its place in group `g`. */
    method MoveChild(n: Node, g: Node, a: Ptr)
      requires Valid(S()) && n in info && (info[n].Contact? || info[n].Chat?) && Some(n) in kids && kids[Some(n)] == []
      requires g in info && info[g].Group? && None in kids && g in kids[None] && Some(g) in kids
      requires a.Some? ==> a.value in kids[Some(g)] && a.value != n
      modifies `links, `sizes, `kids, `linked
      ensures Valid(S())
      ensures n in old(links.parent) && (old(links.parent[n]).Some? ==> old(links.parent[n]) in old(kids))
      ensures kids == Moved(old(kids), old(links.parent[n]), n, g, a) && links.parent == old(links.parent)[n := Some(g)]
    {
      hide Linked, Placed, Sized, Sound, Indexed, Filed, Named, Prioritized, Typed, TotalPreorder, Valid, InsertAfter,
           Without;
      ghost var s0 := S();
      ChildStands(s0, n);
      if links.parent[n].Some? {
        LeaveGroup(n, links.parent[n].value);
        HeadOf(s0, s0.links.parent[n]);
        WithoutKeeps(s0.kids[s0.links.parent[n]], n);
      } else {
        LooseIsAdrift(s0, NOTHING, n) by { ValidIs(s0); }
        assert NOTHING.adrift + {n} == {n};
      }
      EnterGroup(n, g, a);
    }

    /**
     purple_blist_add_chat: the chat, wherever it was, goes behind `node` in its group, or in front of the
     children of `group`. `spare` is memory for the default group.
    */
    method AddChat(n: Node, group: Ptr, node: Ptr, spare: Node) returns (g: Node)
      requires Valid(S()) && None in kids && n in info && info[n].Chat? && spare !in info
      requires node.Some? ==> node.value in info && (info[node.value].Contact? || info[node.value].Chat?)
                              && node.value in links.parent && links.parent[node.value].Some?
      requires group.Some? ==> group.value in info && info[group.value].Group?
                               && (group.value in kids[None] || Namesake(S(), group.value) == None)
      modifies this
      ensures Valid(S()) && n in old(links.parent)
      ensures node.Some? ==> Some(g) == old(links.parent[node.value])
      ensures node == None && group.Some? ==> g == group.value
      ensures node == None && group == None ==>
                g == if old(FindGroup(env.chatsGroup)).Some? then old(FindGroup(env.chatsGroup)).value else spare
      ensures info == (if g == spare then old(info)[spare := Group(env.chatsGroup)] else old(info))
      ensures node == Some(n) ==> S() == old(S())
      ensures var k := Listed(old(kids), g);
              node != Some(n) ==> Some(g) in k && (old(links.parent[n]).Some? ==> old(links.parent[n]) in k)
                                  && kids == Moved(k, old(links.parent[n]), n, g, node)
      ensures node != Some(n) ==> ChatComes(old(S()), S(), n, g, node)
      ensures drift == (if g == spare then old(drift)[spare := 0] else old(drift))
      ensures tables.buddies == old(tables.buddies) && connected == old(connected)
      ensures tables.cache.Keys == old(tables.cache.Keys)
    {
      hide Linked, Placed, Sized, Sound, Indexed, Filed, Named, Prioritized, Typed, TotalPreorder, Valid, InsertAfter,
           Without, ChatComes;
      ghost var s0 := S();
      ChildStands(s0, n);
      TypedNames(s0);
      if node == None {
        g := TargetGroup(group, env.chatsGroup, spare);
      } else {
        g := links.parent[node.value].value;
        ChildStands(s0, node.value);
      }
      if node == Some(n) {
        return;
      }
      MoveChild(n, g, node);
      ChatAdded(s0, S(), n, group, g, node, spare);
    }

    // --------------------------------------------- a contact changes its place

    /** purple_find_buddy_in_group. */
    function FindBuddyInGroup(account: Account, name: string, g: Node): Ptr
      reads this
    {
      if name == "" then None
      else if KeyFor(account, name, g) in tables.buddies then Some(tables.buddies[KeyFor(account, name, g)]) else None
    }

    /**
     One turn of the loop in purple_blist_add_contact: buddy `b` is filed in group `g` instead of `g0`, or removed
     if its key is taken there. `empty` tells that its contact went with it.
    */
    method RefileBuddy(b: Node, c: Node, g0: Node, g: Node, ghost x: Excuse) returns (kept: bool, empty: bool)
      requires Sound(S(), x) && x == NOTHING.(afloat := Some(c), unfiled := x.unfiled) && b in x.unfiled
      requires BuddyAt(S(), b, c, g0) && g != g0 && b in keyed && keyed[b] == KeyFor(info[b].account, info[b].name, g0)
      modifies `links, `info, `sizes, `priorities, `tables, `kids, `linked, `drift, `keyed
      ensures var k0, k := old(KeyFor(info[b].account, info[b].name, g0)),
                old(KeyFor(info[b].account, info[b].name, g));
              && k0.account in old(tables.cache) && (kept <==> k !in old(tables.buddies))
              && (kept ==> !empty && S() == Entered(Unfiled(old(S()), b, k0), b, k) && Sound(S(), x))
              && (!kept ==>
                    && (empty <==> Without(old(kids)[Some(c)], b) == [])
                    && BuddyAt(Unfiled(old(S()), b, k0), b, c, g0) && g0 in Unfiled(old(S()), b, k0).drift
                    && Dropped(Unfiled(old(S()), b, k0), S(), b, c, g0)
                    && Sound(S(), x.(unfiled := x.unfiled - {b}, afloat := if empty then None else x.afloat)))
      ensures tables.cache.Keys == old(tables.cache.Keys)
    {
      hide Linked, Placed, Sized, Sound, Indexed, Filed, Named, Prioritized, Typed, TotalPreorder, Without, Less,
           Dropped, Insert, Remove;
      ghost var s0 := S();
      TypedAt(s0, x, b);
      GroupDrift(s0, x, g0);
      var k0 := KeyFor(info[b].account, info[b].name, g0);
      UnfiledSound(s0, x, b, k0);
      Soundly(s0, x);
      UnfiledKeys(s0, b, k0, KeyFor(info[b].account, info[b].name, g));
      RemoveEntry(k0);
      keyed := keyed - {b};
      ghost var s1 := S();
      assert s1 == Unfiled(s0, b, k0);
      empty := false;
      kept := FindBuddyInGroup(info[b].account, info[b].name, g) == None;
      if kept {
        var k := KeyFor(info[b].account, info[b].name, g);
        EnteredInTransition(s1, x, b, k);
        InsertEntry(k, b);
        keyed := keyed[b := k];
      } else {
        LastOne(s1, x, c, b);
        empty := links.next[links.child[c].value] == None;
        DropBuddy(b, x);
      }
    }

    /**
     The loop of purple_blist_add_contact over the buddies of a contact that goes from group `g0` to `g`, and
     has been unlinked from `g0` since state `s0`. `gone` tells that no buddy was left, nor the contact.
    */
    method RefileBuddies(c: Node, g0: Node, g: Node, ghost s0: State) returns (gone: bool)
      requires Valid(s0) && Siting(s0, {}, c, g0) && c in s0.links.parent && s0.links.parent[c] == Some(g0) && c != g0
      requires g != g0
      requires Live(s0.links, c) && HasHead(s0.links, s0.links.parent[c]) && Some(g0) in s0.linked
      requires S() == Floated(s0, c, g0)
      modifies this
      ensures connected == old(connected)
      ensures gone <==> s0.kids[Some(c)] != [] && Kept(s0, s0.kids[Some(c)], g) == []
      ensures GainsKeys(s0, S(), g, KeysIn(s0, Kept(s0, s0.kids[Some(c)], g), g))
      ensures !gone ==> Refiling(s0, S(), c, g0, s0.kids[Some(c)], g, |s0.kids[Some(c)]|)
      ensures gone ==>
                var l := Elements(s0.kids[Some(c)]) + {c};
                && Valid(S()) && g0 in s0.drift
                && kids == KidsMinus(s0.kids[Some(g0) := Without(s0.kids[Some(g0)], c)], l)
                && info == Minus(s0.info, l) && drift == Minus(s0.drift[g0 := s0.drift[g0] + 1], l)
      ensures tables.cache.Keys == old(tables.cache.Keys)
    {
      hide Linked, Placed, Sized, Sound, Indexed, Filed, Named, Prioritized, Typed, TotalPreorder, Without, Less,
           Dropped, Insert, Remove,
           Kept, Floated, Refiling, Minus, KidsMinus, Elements, Entered, Unfiled, GainsKeys, KeysIn;
      ghost var l := s0.kids[Some(c)];
      RefilingStart(s0, c, g0, g);
      RefilingHead(s0, S(), c, g0, l, g);
      var bnode := links.child[c];
      ghost var i := 0;
      while bnode.Some?
        invariant 0 <= i <= |l| && bnode == First(l[i..]) && connected == old(connected)
        invariant Refiling(s0, S(), c, g0, l, g, i) && tables.cache.Keys == old(tables.cache.Keys)
        decreases |l| - i
      {
        ghost var s1 := S();
        RefilingAt(s0, s1, c, g0, l, g, i);
        RefilingFacts(s0, s1, c, g0, l, g, i);
        var b := bnode.value;
        var next := links.next[b];
        var kept, empty := RefileBuddy(b, c, g0, g, Adrift(s1, c));
        if kept {
          RefilingKept(s0, s1, S(), c, g0, l, g, i);
        } else if empty {
          RefilingEmpty(s0, s1, S(), c, g0, l, g, i);
          RefilingEmptyGains(s0, s1, S(), c, g0, l, g, i);
          assert Adrift(s1, c).(unfiled := {}, afloat := None) == NOTHING;
          return true;
        } else {
          RefilingLost(s0, s1, S(), c, g0, l, g, i);
        }
        bnode := next;
        i := i + 1;
      }
      gone := false;
      assert i == |l|;
      RefilingDone(s0, S(), c, g0, l, g);
      RefilingGained(s0, S(), c, g0, l, g);
    }

    /** The contact that has been unlinked is counted out of its group, linked in its new place, and counted in. */
    method LandContact(c: Node, g0: Node, g: Node, a: Ptr, ghost x: Excuse)
      requires Sound(S(), x) && x == NOTHING.(afloat := Some(c), unfiled := x.unfiled)
      requires c in links.parent && links.parent[c] == Some(g0) && Settled(S(), c, g)
      requires x.unfiled <= Elements(kids[Some(c)])
      requires g in info && info[g].Group? && None in kids && g in kids[None] && Some(g) in kids
      requires a.Some? ==> a.value in kids[Some(g)] && a.value != c
      modifies `links, `sizes, `kids, `linked
      ensures Valid(S()) && kids == Moved(old(kids), Some(g0), c, g, a)
      ensures links.parent == old(links.parent)[c := Some(g)]
    {
      hide Linked, Placed, Sized, Sound, Indexed, Filed, Named, Prioritized, Typed, TotalPreorder, Relinked,
           ChildMoves, Elements, Spelled,
           Counting, HasSizes, Settled, Moved;
      ghost var s0 := S();
      ghost var s1 := Landing(s0, x, c, g0, g, a);
      CountChild(c, g0, -1);
      Link(c, Some(g), a);
      CountsStill(s0, S(), c, g0);
      CountChild(c, g, 1);
      kids := Moved(kids, Some(g0), c, g, a);
      linked := kids;
      SameFields(S(), s1);
    }

    /** A contact in the tree moves to another place in its group. */
    method MoveWithin(c: Node, g: Node, a: Ptr)
      requires Valid(S()) && Siting(S(), {}, c, g) && c in links.parent && links.parent[c] == Some(g) && c != g
      requires None in kids && g in kids[None] && (a.Some? ==> a.value in kids[Some(g)] && a.value != c)
      modifies `links, `sizes, `kids, `linked
      ensures Valid(S()) && kids == Moved(old(kids), Some(g), c, g, a)
    {
      hide Linked, Placed, Sized, Sound, Indexed, Filed, Named, Prioritized, Typed, TotalPreorder, Without, Elements,
           Unlinked, Valid, Moved;
      ghost var s0 := S();
      MayUnlink(s0, Some(g), c);
      FloatedSound(s0, c, g, {});
      FloatedFields(s0, c, g);
      FiledHere(s0, c, g);
      UnlinkNode(c);
      linked := linked[Some(g) := Without(linked[Some(g)], c)];
      LandContact(c, g, g, a, NOTHING.(afloat := Some(c), unfiled := {}));
    }

    /**
     A contact in the tree moves from group `g0` to another, and its buddies with it as far as their keys are free
     there.
    */
    method Emigrate(c: Node, g0: Node, g: Node, a: Ptr)
      requires Valid(S()) && Siting(S(), {}, c, g0) && c in links.parent && links.parent[c] == Some(g0) && c != g0
      requires g != g0
      requires g in info && info[g].Group? && None in kids && g in kids[None] && Some(g) in kids
      requires a.Some? ==> a.value in kids[Some(g)] && a.value != c
      modifies this
      ensures Valid(S()) && connected == old(connected) && g0 in old(drift)
      ensures kids == Rehomed(old(S()), c, g, a) && info == Minus(old(info), Casualties(old(S()), c, g))
      ensures drift == Minus(if Perishes(old(S()), c, g) then old(drift)[g0 := old(drift)[g0] + 1] else old(drift),
                             Casualties(old(S()), c, g))
      ensures GainsKeys(old(S()), S(), g, NewKeys(old(S()), c, g))
      ensures tables.cache.Keys == old(tables.cache.Keys)
    {
      hide Linked, Placed, Sized, Sound, Indexed, Filed, Named, Prioritized, Typed, TotalPreorder, Without, Kept, Lost,
           Refiling,
           Minus, KidsMinus, Elements, Unlinked, Valid, Moved, KeysIn;
      ghost var s0 := S();
      MayUnlink(s0, Some(g0), c);
      FloatedSound(s0, c, g0, {});
      GroupDrift(s0, NOTHING, g0) by { ValidIs(s0); }
      UnlinkNode(c);
      linked := linked[Some(g0) := Without(linked[Some(g0)], c)];
      assert S() == Floated(s0, c, g0);
      var gone := RefileBuddies(c, g0, g, s0);
      if !gone {
        RefilingSettled(s0, S(), c, g0, g, a);
        LandContact(c, g0, g, a, Adrift(S(), c));
      }
    }

    /** purple_blist_add_contact once the group is known. */
    method MoveContact(c: Node, g: Node, a: Ptr)
      requires Valid(S()) && c in info && info[c].Contact? && c in links.parent
      requires g in info && info[g].Group? && None in kids && g in kids[None] && Some(g) in kids
      requires a.Some? ==> a.value in kids[Some(g)] && a.value != c
      modifies this
      ensures Valid(S()) && connected == old(connected)
      ensures kids == Rehomed(old(S()), c, g, a) && info == Minus(old(info), Casualties(old(S()), c, g))
      ensures drift == Minus(Bereaved(old(S()), c, g), Casualties(old(S()), c, g))
      ensures GainsKeys(old(S()), S(), g, NewKeys(old(S()), c, g))
      ensures ContactComes(old(S()), S(), c, g, a)
      ensures tables.cache.Keys == old(tables.cache.Keys)
    {
      hide Linked, Placed, Sized, Sound, Indexed, Filed, Named, Prioritized, Typed, TotalPreorder, Without, Kept, Lost,
           Minus, KidsMinus, Elements, Valid, Moved, ContactComes;
      ghost var s0 := S();
      ChildStands(s0, c);
      MinusNone(info);
      MinusNone(drift);
      if links.parent[c] == None {
        MoveChild(c, g, a);
      } else {
        ContactStands(s0, NOTHING, c) by { ValidIs(s0); }
        if links.parent[c] == Some(g) {
          MoveWithin(c, g, a);
        } else {
          Emigrate(c, links.parent[c].value, g, a);
        }
      }
      RehomedComes(s0, S(), c, g, a);
    }

    /**
     purple_blist_add_contact: the contact goes behind `node` in its group, or in front of the children of `group`
     or of the default group; whatever the keys, the list stays in order. `spare` is memory for the default group.
    */
    method AddContact(c: Node, group: Ptr, node: Ptr, spare: Node) returns (g: Node)
      requires Valid(S()) && None in kids && c in info && info[c].Contact? && spare !in info
      requires node.Some? ==> node.value in info && node.value in links.parent
                              && (info[node.value].Contact? || info[node.value].Chat? ==>
                                  links.parent[node.value].Some?)
      requires group.Some? ==> group.value in info && info[group.value].Group? && group.value in kids[None]
      modifies this
      ensures Valid(S()) && connected == old(connected) && c in old(links.parent)
      ensures node == Some(c) ==> S() == old(S())
      ensures var beside := node.Some? && (old(info[node.value]).Contact? || old(info[node.value]).Chat?);
              node != Some(c) ==>
                && g == (if beside then old(links.parent[node.value]).value else if group.Some? then group.value
                         else if old(FindGroup(env.buddiesGroup)).Some? then old(FindGroup(env.buddiesGroup)).value
                         else spare)
                && var s := Hosted(old(S()), g, spare, env.buddiesGroup);
                   && c in s.links.parent && kids == Rehomed(s, c, g, if beside then node else None)
                   && info == Minus(s.info, Casualties(s, c, g))
                   && drift == Minus(Bereaved(s, c, g), Casualties(s, c, g))
      ensures node != Some(c) ==>
                ContactComes(old(S()), S(), c, g,
                             if node.Some? && (old(info[node.value]).Contact? || old(info[node.value]).Chat?) then node
                             else None)
      ensures tables.cache.Keys == old(tables.cache.Keys)
    {
      hide Linked, Placed, Sized, Sound, Indexed, Filed, Named, Prioritized, Typed, TotalPreorder, Kept, Lost,
           Minus, KidsMinus, Elements, Valid, Rehomed, Casualties, Bereaved, Listed,
           ContactComes;
      ghost var s0 := S();
      TypedNames(s0);
      ChildStands(s0, c);
      if node == Some(c) {
        g := c;
        return;
      }
      var a := if node.Some? && (info[node.value].Contact? || info[node.value].Chat?) then node else None;
      if a.Some? {
        g := links.parent[a.value].value;
        ChildStands(s0, a.value);
      } else {
        g := TargetGroup(group, env.buddiesGroup, spare);
      }
      assert SameHome(S(), Hosted(s0, g, spare, env.buddiesGroup)) by { ListedIs(s0, g); }
      RehomedSame(S(), Hosted(s0, g, spare, env.buddiesGroup), c, g, a);
      ghost var s1 := S();
      MoveContact(c, g, a);
      AddedComes(s0, s1, S(), c, g, a, spare);
    }

    // ----------------------------------------------- a buddy changes its place

    /** The buddy is counted out of contact `c0` and unlinked. */
    method UnplaceBuddy(b: Node, c0: Node, g0: Node) returns (empty: bool)
      requires Live(links, b) && HasHead(links, links.parent[b]) && c0 in Unlinked(links, b).child
      requires links.prev[b].Some? ==> links.prev[b].value in links.next
      requires links.next[b].Some? ==> links.next[b].value in links.prev
      requires HasSizes(sizes, c0) && HasSizes(sizes, g0) && Some(c0) in kids && Some(c0) in linked
      modifies `links, `sizes, `kids, `linked
      ensures links == Unlinked(old(links), b) && (empty <==> links.child[c0] == None)
      ensures sizes == BuddyOut(old(sizes), IsOnline(env, info, connected, b), IsConnected(info, connected, b), c0, g0)
      ensures kids == old(kids)[Some(c0) := Without(old(kids)[Some(c0)], b)]
      ensures linked == old(linked)[Some(c0) := Without(old(linked)[Some(c0)], b)]
    {
      hide Without, Unlinked, BuddyOut, IsOnline, IsConnected;
      CountOut(b, c0, g0);
      UnlinkNode(b);
      empty := links.child[c0] == None;
      kids := kids[Some(c0) := Without(kids[Some(c0)], b)];
      linked := linked[Some(c0) := Without(linked[Some(c0)], b)];
    }

    /**
     Buddy `b` in contact `c0` of group `g0` is counted out and unlinked, and taken out of the tables if it goes to
     another group.
    */
    method DetachBuddy(b: Node, c0: Node, g0: Node, g: Node, ghost but: set<Node>) returns (empty: bool)
      requires Nearly(S(), but) && b !in but && BuddyAt(S(), b, c0, g0)
      modifies `links, `sizes, `priorities, `tables, `kids, `linked, `keyed
      ensures keyed == if g0 != g then old(keyed) - {b} else old(keyed)
      ensures Sound(S(), Emptier(old(S()), b, c0, but)) && links.parent == old(links.parent)
      ensures kids == old(kids)[Some(c0) := Without(At(old(kids), Some(c0)), b)]
      ensures (empty <==> Empties(old(kids), b, c0))
      ensures b in keyed ==> keyed[b] == KeyIn(old(S()), b, g)
      ensures tables.buddies == TableLeft(old(S()), b, g0, g)
      ensures tables.groups == old(tables.groups)
      ensures tables.cache.Keys == old(tables.cache.Keys)
    {
      hide Linked, Placed, Sized, Sound, Indexed, Filed, Named, Prioritized, Typed, TotalPreorder, Without, Unlinked,
           BuddyOut, Nearly,
           HasSizes, Live, Less, Emptier, Remove, IsOnline, IsConnected;
      ghost var s0 := S();
      ghost var s1 := Leaving(s0, b, c0, g0, g, but);
      RemovedBuddies(tables, KeyIn(s0, b, g0));
      var k0 := KeyFor(info[b].account, info[b].name, g0);
      empty := UnplaceBuddy(b, c0, g0);
      if g0 != g {
        RemoveEntry(k0);
        keyed := keyed - {b};
      }
      if !empty {
        Invalidate(c0);
      }
      SameFields(S(), s1);
    }

    /**
     The part of purple_blist_add_buddy for a buddy that is in contact `c0` of group `g0` and goes to group `g`:
     its contact goes if it is empty now, or else has its priority invalidated.
    */
    method TakeBuddyAway(b: Node, c0: Node, g0: Node, g: Node, ghost but: set<Node>)
      requires Nearly(S(), but) && b !in but && BuddyAt(S(), b, c0, g0)
      modifies `links, `info, `sizes, `priorities, `tables, `kids, `linked, `drift, `keyed
      ensures NearlyBut(S(), b, but)
      ensures kids == KidsLeft(old(kids), b, c0, g0) && drift == DriftLeft(old(kids), old(drift), b, c0, g0)
      ensures info == StoreLeft(old(kids), old(info), b, c0)
      ensures links.parent == StoreLeft(old(kids), old(links.parent), b, c0)
      ensures b in keyed ==> keyed[b] == KeyIn(old(S()), b, g)
      ensures tables.buddies == TableLeft(old(S()), b, g0, g)
      ensures tables.groups == old(tables.groups)
      ensures tables.cache.Keys == old(tables.cache.Keys)
    {
      hide Linked, Placed, Sized, Sound, Indexed, Filed, Named, Prioritized, Typed, TotalPreorder, Without, Less,
           Emptier, Nearly, NearlyBut,
           Unfound;
      ghost var s0 := S();
      var empty := DetachBuddy(b, c0, g0, g, but);
      LeftBehind(s0, S(), b, c0, g0, but);
      EmptierIs(s0, b, c0, but);
      if empty {
        DeleteEmptyContact(c0, Emptier(s0, b, c0, but));
      }
      StillNearly(s0, S(), b, c0, but);
    }

    /** The buddy is linked behind `a` in contact `c`, or in front, and counted in. */
    method PlaceBuddy(b: Node, c: Node, g: Node, a: Ptr)
      requires Live(links, b) && HasHead(links, Some(c))
      requires (Head(links, Some(c)).Some? ==> Head(links, Some(c)).value in links.prev)
      requires a.Some? ==> b != a.value && Live(links, a.value)
                           && (links.next[a.value].Some? ==> links.next[a.value].value in links.prev)
      requires HasSizes(sizes, c) && HasSizes(sizes, g) && Some(c) in kids
      modifies `links, `sizes, `kids, `linked
      ensures links == Relinked(old(links), b, Some(c), a)
      ensures sizes == BuddyIn(old(sizes), IsOnline(env, info, connected, b), IsConnected(info, connected, b), c, g)
      ensures kids == old(kids)[Some(c) := InsertAfter(old(kids)[Some(c)], a, b)] && linked == kids
    {
      hide InsertAfter, Relinked, BuddyIn, IsOnline, IsConnected;
      Link(b, Some(c), a);
      CountIn(b, c, g);
      kids := kids[Some(c) := InsertAfter(kids[Some(c)], a, b)];
      linked := kids;
    }

    /** The buddy is filed under `k`, in place of whoever was, and its contact's priority invalidated. */
    method FileBuddy(k: Key, b: Node, c: Node)
      requires k.account in tables.cache && c in priorities.valid
      modifies `tables, `keyed, `priorities
      ensures tables.cache.Keys == old(tables.cache.Keys)
      ensures tables == Insert(old(tables), k, b) && keyed == (old(keyed) - Displaced(old(tables), k, b))[b := k]
      ensures priorities == old(priorities).(valid := old(priorities).valid[c := false])
    {
      keyed := (keyed - Displaced(tables, k, b))[b := k];
      InsertEntry(k, b);
      Invalidate(c);
    }

    /** The part of purple_blist_add_buddy that links the buddy, counts it in and files it. */
    method PutBuddy(b: Node, c: Node, g: Node, a: Ptr, ghost but: set<Node>)
      requires NearlyBut(S(), b, but) && b in info && info[b].Buddy?
      requires c in info && info[c].Contact? && c in links.parent && links.parent[c] == Some(g) && Some(c) in kids
      requires a.Some? ==> a.value in kids[Some(c)]
      requires b in keyed ==> keyed[b] == KeyIn(S(), b, g)
      modifies `links, `sizes, `priorities, `tables, `kids, `linked, `keyed
      ensures Nearly(S(), but + Displaced(old(tables), KeyIn(old(S()), b, g), b))
      ensures kids == KidsJoined(old(kids), b, c, a) && links.parent == old(links.parent)[b := Some(c)]
      ensures tables.buddies == old(tables.buddies)[KeyIn(old(S()), b, g) := b] && tables.groups == old(tables.groups)
      ensures tables.cache.Keys == old(tables.cache.Keys)
    {
      hide Linked, Placed, Sized, Sound, Indexed, Filed, Named, Prioritized, Typed, TotalPreorder, InsertAfter,
           Relinked, BuddyIn, Nearly,
           NearlyBut, HasSizes, Live, Insert, Displaced, IsOnline, IsConnected;
      ghost var s0 := S();
      ghost var s1 := Arriving(s0, b, a, c, g, but);
      InsertedBuddies(tables, KeyIn(s0, b, g), b);
      PlaceBuddy(b, c, g, a);
      FileBuddy(KeyFor(info[b].account, info[b].name, g), b, c);
      SameFields(S(), s1);
    }

    /** A new contact at the end of group `g`. */
    method AppendContact(c: Node, g: Node)
      requires Valid(S()) && c !in info && g in info && info[g].Group? && None in kids && g in kids[None]
      requires Some(g) in kids
      modifies `links, `info, `sizes, `priorities, `kids, `linked, `drift
      ensures Valid(S()) && g != c && Some(c) in kids && kids == WithContact(old(kids), c, g)
      ensures info == old(info)[c := Contact] && links.parent == old(links.parent)[c := Some(g)] && drift == old(drift)
    {
      hide Linked, Placed, Sized, Sound, Indexed, Filed, Named, Prioritized, Typed, TotalPreorder, Valid, Appeared,
           Loose, Moved, WithContact;
      ghost var s0 := S();
      AppendedContact(s0, c, g);
      AppearedFields(s0, c, Contact);
      BornFields(s0, c, Contact);
      AppearedSound(s0, c, Contact);
      Allocate(c, Contact);
      ghost var s1 := S();
      HeadOf(s1, Some(g));
      ChildStands(s1, c);
      var last := LastSibling(links.child[g], Some(g));
      MoveChild(c, g, last);
      assert s0.links.parent[c := None][c := Some(g)] == s0.links.parent[c := Some(g)];
    }

    /** A new contact at the end of the group asked for, or of the default group, which is listed if need be. */
    method TargetContact(group: Ptr, spare: Node, c: Node) returns (g: Node)
      requires Valid(S()) && None in kids && spare !in info && c !in info && c != spare
      requires group.Some? ==> group.value in info && info[group.value].Group?
                               && (group.value in kids[None] || Namesake(S(), group.value) == None)
      modifies this
      ensures Valid(S()) && connected == old(connected) && tables.buddies == old(tables.buddies)
      ensures g == if group.Some? then group.value
                   else if old(FindGroup(env.buddiesGroup)).Some? then old(FindGroup(env.buddiesGroup)).value else spare
      ensures g in info && info[g].Group? && g != c && Some(c) in kids
      ensures kids == WithContact(Listed(old(kids), g), c, g)
      ensures info == (if g == spare then old(info)[spare := Group(env.buddiesGroup)] else old(info))[c := Contact]
      ensures links.parent == (if g == spare then old(links.parent)[spare := None] else old(links.parent))[c := Some(g)]
      ensures drift == if g == spare then old(drift)[spare := 0] else old(drift)
      ensures tables.cache.Keys == old(tables.cache.Keys)
    {
      hide Linked, Placed, Sized, Sound, Indexed, Filed, Named, Prioritized, Typed, TotalPreorder, Valid, Listed,
           WithContact;
      TypedNames(S());
      g := TargetGroup(group, env.buddiesGroup, spare);
      AppendContact(c, g);
    }

    /** purple_blist_add_buddy once the contact and group are known. */
    method MoveBuddy(b: Node, c: Node, g: Node, a: Ptr, ghost but: set<Node>)
      requires Nearly(S(), but) && b !in but && b in info && info[b].Buddy? && b in links.parent && a != Some(b)
      requires c in info && info[c].Contact? && c in links.parent && links.parent[c] == Some(g) && Some(c) in kids
      requires a.Some? ==> a.value in kids[Some(c)]
      requires a == None ==> links.parent[b] != Some(c) || First(kids[Some(c)]) != Some(b)
      modifies this
      ensures connected == old(connected)
      ensures Repositions(old(S()), S(), b, c, g, a)
      ensures Nearly(S(), but + Displaced(old(tables), KeyIn(old(S()), b, g), b))
      ensures tables.cache.Keys == old(tables.cache.Keys)
    {
      hide Linked, Placed, Sized, Sound, Indexed, Filed, Named, Prioritized, Typed, TotalPreorder, Nearly, NearlyBut,
           Listed, Displaced,
           KidsLeft, KidsJoined, Less, DriftLeft, StoreLeft, TableLeft;
      ghost var s0 := S();
      if links.parent[b].Some? {
        NearlyAt(s0, b, but);
        var c0 := links.parent[b].value;
        var g0 := links.parent[c0].value;
        TakeBuddyAway(b, c0, g0, g, but);
        TargetRemains(s0, S(), b, c0, g0, c, g, a, but);
      } else {
        NearlyLoose(s0, b, but);
      }
      PutBuddy(b, c, g, a, but);
    }

    /** purple_blist_add_buddy with a buddy `node` to go behind, or else a contact to go in front in. */
    method AddBuddyTo(b: Node, contact: Ptr, node: Ptr, ghost but: set<Node>) returns (c: Node, g: Node)
      requires Nearly(S(), but) && b !in but && b in info && info[b].Buddy? && b in links.parent
      requires node.Some? || contact.Some?
      requires node.Some? ==>
                 && node.value in info && info[node.value].Buddy? && node.value in links.parent
                 && links.parent[node.value].Some?
      requires node == None ==> contact.value in info && info[contact.value].Contact?
                                && contact.value in links.parent && links.parent[contact.value].Some?
      modifies this
      ensures Overtop(old(S()), b, contact, node) ==> S() == old(S())
      ensures !Overtop(old(S()), b, contact, node) ==>
                && Bound(old(S()), contact, node, c, g) && Repositions(old(S()), S(), b, c, g, node)
                && Nearly(S(), but + Displaced(old(tables), KeyIn(old(S()), b, g), b))
      ensures connected == old(connected)
      ensures tables.cache.Keys == old(tables.cache.Keys)
    {
      hide Linked, Placed, Sized, Sound, Indexed, Filed, Named, Prioritized, Typed, TotalPreorder, Nearly, Displaced,
           Repositions;
      ghost var s0 := S();
      NearlyDomain(s0, but);
      if node == Some(b) || (node == None && links.parent[b] == contact && links.child[contact.value] == Some(b)) {
        c, g := b, b;
        return;
      }
      if node.Some? {
        NearlyAt(s0, node.value, but);
        c := links.parent[node.value].value;
      } else {
        c := contact.value;
        NearlyContact(s0, c, but);
      }
      g := links.parent[c].value;
      MoveBuddy(b, c, g, node, but);
    }

    /** purple_blist_add_buddy into a new contact `c`. */
    method AddBuddyAlone(b: Node, group: Ptr, spare: Node, c: Node) returns (g: Node)
      requires Valid(S()) && None in kids && b in info && info[b].Buddy? && b in links.parent
      requires spare !in info && c !in info && spare != c
      requires group.Some? ==> group.value in info && info[group.value].Group?
                               && (group.value in kids[None] || Namesake(S(), group.value) == None)
      modifies this
      ensures connected == old(connected) && g == Default(old(S()), group, env.buddiesGroup, spare)
      ensures Repositions(Novel(old(S()), c, g, spare, env.buddiesGroup), S(), b, c, g, None)
      ensures BuddyComesAlone(old(S()), S(), b, c, g)
      ensures Nearly(S(), Displaced(old(tables), KeyIn(old(S()), b, g), b)) && (Valid(S()) <==> Fresh(old(S()), b, g))
      ensures tables.cache.Keys == old(tables.cache.Keys)
    {
      hide Linked, Placed, Sized, Sound, Indexed, Filed, Named, Prioritized, Typed, TotalPreorder, Valid, Fresh,
           Repositions, Listed, WithContact, BuddyComesAlone;
      ghost var s0 := S();
      TypedNames(s0);
      g := TargetContact(group, spare, c);
      ghost var s1 := S();
      NovelTarget(s0, s1, b, c, g, spare, env.buddiesGroup);
      assert SameHome(s1, Novel(s0, c, g, spare, env.buddiesGroup));
      hide SameHome, Novel;
      NearlyNow(s1);
      MoveBuddy(b, c, g, None, {});
      FreshIs(s1, b, g);
      FreshIs(s0, b, g);
      assert Displaced(s0.tables, KeyIn(s0, b, g), b) == Displaced(s1.tables, KeyIn(s1, b, g), b);
      NearlyIs(S(), Displaced(s1.tables, KeyIn(s1, b, g), b));
      AddedAlone(s0, s1, S(), b, c, group, g, spare);
      RepositionsSame(s1, Novel(s0, c, g, spare, env.buddiesGroup), S(), b, c, g, None);
    }

    /**
     purple_blist_add_buddy: the buddy, wherever it was, goes behind buddy `node`, or in front in `contact`, or into a
     new contact `novel` at the end of `group` or of the default group. The list stays in order exactly if no other
     buddy of the group it goes to has its key; otherwise it is in order but for that buddy's entry.
    */
    method AddBuddy(b: Node, contact: Ptr, group: Ptr, node: Ptr, spare: Node, novel: Node) returns (c: Node, g: Node)
      requires Valid(S()) && None in kids && b in info && info[b].Buddy? && b in links.parent
      requires node.Some? ==>
                 && node.value in info && info[node.value].Buddy? && node.value in links.parent
                 && links.parent[node.value].Some?
      requires node == None && contact.Some? ==> contact.value in info && info[contact.value].Contact?
                                                 && contact.value in links.parent && links.parent[contact.value].Some?
      requires spare !in info && novel !in info && spare != novel
      requires group.Some? ==> group.value in info && info[group.value].Group?
                               && (group.value in kids[None] || Namesake(S(), group.value) == None)
      modifies this
      ensures Overtop(old(S()), b, contact, node) ==> S() == old(S())
      ensures !Overtop(old(S()), b, contact, node) ==>
                && (if node.Some? || contact.Some?
                    then Bound(old(S()), contact, node, c, g) && Repositions(old(S()), S(), b, c, g, node)
                    else c == novel && g == Default(old(S()), group, env.buddiesGroup, spare)
                         && Repositions(Novel(old(S()), c, g, spare, env.buddiesGroup), S(), b, c, g, None))
                && (if node.Some? || contact.Some? then BuddyComes(old(S()), S(), b, c, node)
                    else BuddyComesAlone(old(S()), S(), b, c, g))
                && Nearly(S(), Displaced(old(tables), KeyIn(old(S()), b, g), b))
                && (Valid(S()) <==> Fresh(old(S()), b, g))
      ensures connected == old(connected)
      ensures tables.cache.Keys == old(tables.cache.Keys)
    {
      hide Linked, Placed, Sized, Sound, Indexed, Filed, Named, Prioritized, Typed, TotalPreorder, Valid, Fresh,
           Repositions, Novel, Bound, Default, Namesake,
           Nearly, Displaced, BuddyComes, BuddyComesAlone;
      ghost var s0 := S();
      if node.Some? || contact.Some? {
        NearlyNow(s0);
        c, g := AddBuddyTo(b, contact, node, {});
        if !Overtop(s0, b, contact, node) {
          FreshIs(s0, b, g);
          NearlyIs(S(), Displaced(s0.tables, KeyIn(s0, b, g), b));
          BoundComes(s0, S(), b, contact, node, c, g);
        }
      } else {
        c := novel;
        g := AddBuddyAlone(b, group, spare, c);
      }
    }

    /**
     The loop of purple_blist_merge_contact: the buddies of `source` go, in order, behind buddy `node` of contact
     `target`, or in front there. Whoever in the target's group has a key of theirs loses its entry to them.
    */
    method MergeBuddies(source: Node, ghost g0: Node, target: Node, g: Node, node: Ptr)
      requires Mergeable(S(), source, g0, target, g, node)
      modifies this
      ensures connected == old(connected)
      ensures var l := At(old(kids), Some(source));
              && Nearly(S(), Overwritten(old(S()), l, g)) && (Valid(S()) <==> Overwritten(old(S()), l, g) == {})
              && kids == KidsMerged(old(kids), source, g0, target, node, l, |l|)
              && info == StoreMerged(old(info), source, l, |l|) && drift == DriftMerged(old(drift), source, g0, l, |l|)
    {
      hide Linked, Placed, Sized, Sound, Indexed, Filed, Named, Prioritized, Typed, TotalPreorder, Valid, Nearly,
           Overwritten, Displaced,
           Repositions, Merging, Spliced, KidsMerged, StoreMerged, DriftMerged;
      ghost var s0, l, i := S(), kids[Some(source)], 0;
      HeadOf(s0, Some(source));
      MergingStart(s0, source, g0, target, g, node);
      var next, prev := links.child[source], node;
      while next.Some?
        invariant 0 <= i <= |l| && next == First(l[i..]) && connected == old(connected)
        invariant Merging(s0, S(), source, g0, target, g, node, l, i)
        invariant i < |l| ==> prev == if i == 0 then node else Some(l[i - 1])
        decreases |l| - i
      {
        ghost var s1 := S();
        var cur := next.value;
        MergingAt(s0, s1, source, g0, target, g, node, l, i);
        MergingBehind(s0, s1, source, g0, target, g, node, l, i);
        next := links.next[cur];
        var _, _ := AddBuddyTo(cur, Some(target), prev, Overwritten(s0, l[..i], g));
        MergingNext(s0, s1, S(), source, g0, target, g, node, l, i);
        prev := Some(cur);
        i := i + 1;
      }
      MergingEnd(s0, S(), source, g0, target, g, node, l, i);
    }

    /**
     purple_blist_merge_contact: all buddies of `source` go, in order, behind buddy `node`, or to the end of contact
     `node`; the emptied contact goes. The list is in order afterwards exactly if nobody else in the target's group
     has a key of theirs; in any case it is but for the entries of those who have.
    */
    method MergeContact(source: Node, node: Node)
      requires Valid(S()) && source in info && info[source].Contact? && source in links.parent
      requires node in info && node in links.parent
      requires info[node].Contact? ==> links.parent[node].Some?
      requires var t := MergeTarget(S(), node);
               t.Some? && t.value != source && source in links.parent && links.parent[source].Some? ==>
                 t.value in links.parent && links.parent[t.value].Some?
      modifies this
      ensures connected == old(connected)
      ensures var t, l := MergeTarget(old(S()), node), At(old(kids), Some(source));
              if t == None || t == Some(source) || l == [] then S() == old(S())
              else
                var a := if old(info[node]).Buddy? then Some(node) else Last(At(old(kids), t));
                && source in old(links.parent) && old(links.parent[source]).Some?
                && t.value in old(links.parent) && old(links.parent)[t.value].Some?
                && var g0, g := old(links.parent[source]).value, old(links.parent)[t.value].value;
                   && Nearly(S(), Overwritten(old(S()), l, g))
                   && (Valid(S()) <==> forall b :: b in l ==> Fresh(old(S()), b, g))
                   && kids == KidsMerged(old(kids), source, g0, t.value, a, l, |l|)
                   && info == StoreMerged(old(info), source, l, |l|)
                   && drift == DriftMerged(old(drift), source, g0, l, |l|)
      ensures var l, x, q := At(old(kids), Some(source)), old(info[node]), old(links.parent[node]);
              if l != [] && x.Contact? && node != source then
                MergeComes(old(S()), S(), source, node, |At(old(kids), Some(node))| - 1)
              else if l != [] && x.Buddy? && q.Some? && q != Some(source) then
                MergesBehind(old(S()), S(), source, q.value, node)
              else S() == old(S())
    {
      hide Linked, Placed, Sized, Sound, Indexed, Filed, Named, Prioritized, Typed, TotalPreorder, Valid, Nearly,
           Fresh, Overwritten, MergeComes, MergesBehind,
           KidsMerged, StoreMerged, DriftMerged;
      ghost var s0 := S();
      var prev: Ptr, target: Ptr;
      ChildStands(s0, source);
      if info[node].Contact? {
        target := Some(node);
        ChildStands(s0, node);
        HeadOf(s0, Some(node));
        prev := LastSibling(links.child[node], Some(node));
      } else if info[node].Buddy? {
        target := links.parent[node];
        prev := Some(node);
      } else {
        return;
      }
      if target == None || target == Some(source) {
        return;
      }
      HeadOf(s0, Some(source));
      if links.child[source].Some? {
        MergeableBy(s0, source, target.value, node, prev);
        OverwrittenAre(s0, kids[Some(source)], links.parent[target.value].value);
        MergeBuddies(source, links.parent[source].value, target.value, links.parent[target.value].value, prev);
        MergedComes(s0, S(), source, s0.links.parent[source].value, target.value,
                    s0.links.parent[target.value].value, node);
      }
    }

    // ---------------------------------------------------- names and presences

    /** purple_blist_rename_buddy. The list stays in order exactly if no other buddy of the group has the new key. */
    method RenameBuddy(b: Node, name: string)
      requires Valid(S()) && b in info && info[b].Buddy? && b in links.parent && links.parent[b].Some? && name != ""
      modifies `info, `tables, `keyed
      ensures info == old(info)[b := old(info)[b].(name := name)]
      ensures var c := links.parent[b].value;
              && c in links.parent && links.parent[c].Some?
              && var k := NewKey(old(S()), b, name, links.parent[c].value);
                 && tables.buddies == Less(old(tables.buddies), KeyIn(old(S()), b, links.parent[c].value))[k := b]
                 && (Valid(S()) <==> (k in old(tables.buddies) ==> old(tables.buddies)[k] == b))
    {
      hide Linked, Placed, Sized, Sound, Indexed, Filed, Named, Prioritized, Typed, TotalPreorder, Valid, Insert,
           Remove;
      ghost var s0 := S();
      BuddyStands(s0, NOTHING, b) by { ValidIs(s0); }
      var c := links.parent[b].value;
      var g := links.parent[c].value;
      ghost var s1 := RenamedValid(s0, b, c, g, name);
      RemovedCache(tables, KeyFor(info[b].account, info[b].name, g));
      RemovedBuddies(tables, KeyFor(info[b].account, info[b].name, g));
      RemoveEntry(KeyFor(info[b].account, info[b].name, g));
      InsertedBuddies(tables, KeyFor(info[b].account, name, g), b);
      InsertEntry(KeyFor(info[b].account, name, g), b);
      keyed := (keyed - {b})[b := KeyFor(info[b].account, name, g)];
      info := info[b := info[b].(name := name)];
      SameFields(S(), s1);
    }

    /** The online counts follow a buddy of contact `c` of group `g` that comes online or goes offline. */
    method CountStatus(was: bool, on: bool, c: Node, g: Node)
      requires HasSizes(sizes, c) && HasSizes(sizes, g)
      modifies `sizes
      ensures sizes == old(sizes).(online := OnlineChanged(old(sizes).online, was, on, c, g))
    {
      var online := sizes.online;
      if on && !was {
        online := online[c := online[c] + 1];
        if online[c] == 1 {
          online := online[g := online[g] + 1];
        }
      } else if !on && was {
        online := online[c := online[c] - 1];
        if online[c] == 0 {
          online := online[g := online[g] - 1];
        }
      }
      sizes := sizes.(online := online);
    }

    /** purple_blist_update_buddy_status, for a buddy of a connected account whose presence has become `p`. */
    method UpdateBuddyStatus(b: Node, p: Presence)
      requires Valid(S()) && b in info && info[b].Buddy? && b in links.parent && links.parent[b].Some?
      requires info[b].account in connected
      modifies `info, `sizes, `priorities
      ensures Valid(S()) && info == old(info)[b := old(info)[b].(presence := p)]
    {
      hide Linked, Placed, Sized, Sound, Indexed, Filed, Named, Prioritized, Typed, TotalPreorder, Valid;
      ghost var s0 := S();
      BuddyStands(s0, NOTHING, b) by { ValidIs(s0); }
      var c := links.parent[b].value;
      ghost var s1 := StatusValid(s0, b, p, c, links.parent[c].value);
      StatusFields(s0, b, p, c, links.parent[c].value);
      hide StatusChanged, OnlineChanged, SameFrame;
      FrameFields(s0, s1);
      var was := env.isOnline(info[b].presence);
      info := info[b := info[b].(presence := p)];
      CountStatus(was, env.isOnline(info[b].presence), c, links.parent[c].value);
      Invalidate(c);
      SameFields(S(), s1);
    }

    /** purple_contact_compute_priority_buddy. */
    method ComputePriorityBuddy(c: Node)
      requires Valid(S()) && c in info && info[c].Contact? && Some(c) in kids
      modifies `priorities
      ensures Valid(S()) && c in priorities.buddy && c in priorities.valid && priorities.valid[c]
      ensures IsBest(env, info, connected, kids[Some(c)], priorities.buddy[c])
    {
      hide Linked, Placed, Sized, Sound, Indexed, Filed, Named, Prioritized, Typed, TotalPreorder, Valid, BestAt,
           IsConnected;
      ghost var s0, l, i, k := S(), kids[Some(c)], 0, 0;
      assert TotalPreorder(env) && Placed(links, kids, info, {}) by { ValidIs(s0); Soundly(s0, NOTHING); }
      BuddyKids(s0, {}, c);
      HeadOf(s0, Some(c));
      var best: Ptr := None;
      var bnode := links.child[c];
      while bnode.Some?
        invariant 0 <= i <= |l| && bnode == First(l[i..]) && priorities == s0.priorities
        invariant if i == 0 then best == None
                    else 0 <= k < i && best == Some(l[k]) && BestAt(env, info, connected, l[..i], k)
        decreases |l| - i
      {
        var buddy := bnode.value;
        SiblingAt(s0, Some(c), i);
        assert l[..i + 1][..i] == l[..i] && l[..i + 1][i] == l[i];
        if best == None {
          BestFirst(env, info, connected, l);
          best, k := Some(buddy), 0;
        } else {
          BestNext(env, info, connected, l[..i + 1], k);
          if Connected(buddy) {
            var cmp := if Connected(best.value) then env.compare(info[best.value].presence, info[buddy].presence)
                  else 1;
            if cmp > 0 || (cmp == 0 && env.lastMatch) {
              best := Some(buddy);
              k := i;
            }
          }
        }
        bnode := links.next[buddy];
        i := i + 1;
      }
      assert l[..i] == l;
      assert l != [] ==> BestAt(env, info, connected, l, k);
      assert IsBest(env, info, connected, l, best);
      hide IsBest;
      ghost var s1 := PriorityStored(s0, c, best);
      priorities := Priorities(priorities.buddy[c := best], priorities.valid[c := true]);
      SameFields(S(), s1);
    }

    /**
     purple_contact_get_priority_buddy: the best connected buddy, first or last among equals as preferred, or else the
     first buddy, whatever happened since it was computed.
    */
    method GetPriorityBuddy(c: Node) returns (p: Ptr)
      requires Valid(S()) && c in info && info[c].Contact? && Some(c) in kids
      modifies `priorities
      ensures Valid(S()) && IsBest(env, info, connected, kids[Some(c)], p)
      ensures c in priorities.valid && priorities.valid[c] && c in priorities.buddy && priorities.buddy[c] == p
    {
      hide Linked, Placed, Sized, Sound, Indexed, Filed, Named, Typed, TotalPreorder, IsBest;
      Soundly(S(), NOTHING);
      assert ContactPrioritized(S(), c);
      if !priorities.valid[c] {
        ComputePriorityBuddy(c);
      }
      p := priorities.buddy[c];
    }

    // ----------------------------------------------- accounts come and go online

    /** The innermost loop of purple_blist_add_account: the contact's buddies on account `a` are counted in. */
    method ConnectContact(c: Node, g: Node, a: Account, ghost s0: State, ghost done: set<Node>)
      returns (recompute: bool)
      requires links == s0.links && info == s0.info && env == s0.env
      requires SweepAt(s0, s0.connected + {a}, done, sizes, c, g) && a !in s0.connected && c in info && info[c].Contact?
      modifies `sizes
      ensures Recounted(s0, s0.connected + {a}, old(sizes), sizes, c, g)
      ensures recompute <==> exists b :: b in At(s0.kids, Some(c)) && b in Mine(info, a)
    {
      hide Linked, Placed, Sized, Sound, Indexed, Filed, Named, Prioritized, Typed, TotalPreorder, Valid, Swept,
           Counted, Recounted,
           ConnectedNodes, OnlineNodes, SweepAt, IsConnected;
      ghost var conn, z := s0.connected + {a}, sizes;
      SweepFacts(s0, conn, done, sizes, c, g);
      assert Valid(s0) by { SweepValid(s0, conn, done, z, c, g); }
      ghost var l, i := s0.kids[Some(c)], 0;
      ghost var now, was := ConnectedNodes(s0.info, conn), ConnectedNodes(s0.info, s0.connected);
      HeadOf(s0, Some(c));
      recompute := false;
      var current: map<Node, int> := sizes.current;
      CountedStart(z.current, c, g, l, now, was);
      var bnode := links.child[c];
      while bnode.Some?
        invariant 0 <= i <= |l| && bnode == First(l[i..]) && sizes == z
        invariant Counted(z.current, current, c, g, l, i, now, was)
        invariant recompute <==> exists b :: b in l[..i] && b in Mine(info, a)
        decreases |l| - i
      {
        var b := bnode.value;
        SiblingAt(s0, Some(c), i);
        Counts(s0, a, b);
        PrefixMine(l, i, Mine(info, a));
        if info[b].account == a {
          recompute := true;
          CountedMore(z.current, current, c, g, l, i, now, was);
          CountedKeys(z.current, current, c, g, l, i, now, was);
          current := current[c := current[c] + 1];
          if current[c] == 1 {
            current := current[g := current[g] + 1];
          }
        } else {
          CountedSame(z.current, current, c, g, l, i, now, was);
        }
        bnode := links.next[b];
        i := i + 1;
      }
      assert i == |l| && l[..i] == l;
      sizes := sizes.(current := current);
      ConnectedContact(s0, a, done, z, sizes, c, g);
    }

    /**
     The innermost loop of purple_blist_remove_account: the contact's buddies on account `a` are counted out, collected,
     and the contact's priority invalidated if there are any.
    */
    method DisconnectContact(c: Node, g: Node, a: Account, collected: seq<Node>, ghost s0: State, ghost done: set<Node>)
      returns (list: seq<Node>)
      requires links == s0.links && info == s0.info && env == s0.env
      requires SweepAt(s0, s0.connected - {a}, done, sizes, c, g) && a in s0.connected && c in info && info[c].Contact?
      requires c in priorities.buddy && c in priorities.valid
      modifies `sizes, `priorities
      ensures priorities == if Elements(At(s0.kids, Some(c))) * Mine(info, a) == {} then old(priorities)
                            else old(priorities).(valid := old(priorities).valid[c := false])
      ensures Elements(list) == Elements(collected) + Elements(At(s0.kids, Some(c))) * Mine(info, a)
      ensures Recounted(s0, s0.connected - {a}, old(sizes), sizes, c, g)
    {
      hide Linked, Placed, Sized, Sound, Indexed, Filed, Named, Prioritized, Typed, TotalPreorder, Valid, Swept,
           Counted, Recounted,
           ConnectedNodes, OnlineNodes, SweepAt, IsConnected, Elements, Mine, Uncounted;
      ghost var conn, z := s0.connected - {a}, sizes;
      SweepFacts(s0, conn, done, sizes, c, g);
      assert Valid(s0) by { SweepValid(s0, conn, done, z, c, g); }
      ghost var l, i := s0.kids[Some(c)], 0;
      HeadOf(s0, Some(c));
      list := collected;
      var stale, recompute := false, false;
      var current: map<Node, int>, online: map<Node, int> := sizes.current, sizes.online;
      UncountedStart(s0, a, z, c, g);
      MineStart(l, Mine(info, a), collected);
      var bnode := links.child[c];
      while bnode.Some?
        invariant 0 <= i <= |l| && bnode == First(l[i..]) && sizes == z && priorities == old(priorities)
        invariant Uncounted(s0, a, z, current, online, c, g, i)
        invariant Elements(list) == Elements(collected) + Elements(l[..i]) * Mine(info, a)
        invariant stale || recompute <==> Elements(l[..i]) * Mine(info, a) != {}
        decreases |l| - i
      {
        var b := bnode.value;
        SiblingAt(s0, Some(c), i);
        UncountedNext(s0, a, z, current, online, c, g, i);
        MineNext(l, i, info, a, list, collected);
        if info[b].account == a {
          if env.isOnline(info[b].presence) {
            online := online[c := online[c] - 1];
            if online[c] == 0 {
              online := online[g := online[g] - 1];
            }
          }
          current := current[c := current[c] - 1];
          if current[c] == 0 {
            current := current[g := current[g] - 1];
          }
          if b !in list {
            list := [b] + list;
          }
          if priorities.buddy[c] == Some(b) {
            stale := true;
          } else {
            recompute := true;
          }
        }
        bnode := links.next[b];
        i := i + 1;
      }
      assert i == |l| && l[..i] == l;
      sizes := sizes.(current := current, online := online);
      if stale || recompute {
        Invalidate(c);
      }
      DisconnectedContact(s0, a, done, z, sizes, c, g);
    }

    /** The middle loop of purple_blist_add_account, over the children of group `g`. */
    method ConnectGroup(g: Node, a: Account, showOffline: set<Node>, ghost s0: State, ghost done: set<Node>)
      requires links == s0.links && info == s0.info && env == s0.env && connected == s0.connected + {a}
      requires a !in s0.connected
      requires Valid(s0) && Swept(s0, connected, done, sizes) && Stale(s0, a, done, priorities)
      requires g in info && info[g].Group? && Some(g) in s0.kids && done !! Elements(s0.kids[Some(g)])
      modifies `sizes, `priorities
      ensures Swept(s0, connected, done + Elements(s0.kids[Some(g)]), sizes)
      ensures Stale(s0, a, done + Elements(s0.kids[Some(g)]), priorities)
    {
      hide Linked, Placed, Sized, Sound, Indexed, Filed, Named, Prioritized, Typed, TotalPreorder, Valid, Swept, Stale,
           Recounted, Elements;
      ghost var l, i, d := s0.kids[Some(g)], 0, done;
      HeadOf(s0, Some(g));
      ElementsNone(l, done);
      var cnode := links.child[g];
      while cnode.Some?
        invariant 0 <= i <= |l| && cnode == First(l[i..]) && d == done + Elements(l[..i])
        invariant Swept(s0, connected, d, sizes) && Stale(s0, a, d, priorities)
        decreases |l| - i
      {
        var n := cnode.value;
        ghost var z, pr := sizes, priorities;
        SiblingAt(s0, Some(g), i);
        ElementsNext(l, i, done);
        SweepFacts(s0, connected, d, z, n, g);
        if info[n].Contact? {
          var recompute := ConnectContact(n, g, a, s0, d);
          AnyMine(At(s0.kids, Some(n)), Mine(info, a));
          StaleHas(s0, a, d, pr, n);
          if recompute || n in showOffline {
            Invalidate(n);
          }
          SweepsOn(s0, connected, d, z, sizes, n, g);
        } else {
          if info[n].account == a {
            sizes := sizes.(current := sizes.current[g := sizes.current[g] + 1],
                            online := sizes.online[g := sizes.online[g] + 1]);
          }
          ChildlessChat(s0, n, g);
          ChatCounts(s0, connected, d, z, sizes, n, g,
                     Bit(info[n].account in connected) - Bit(info[n].account in s0.connected));
        }
        StaleNext(s0, a, d, pr, n, priorities);
        d := d + {n};
        cnode := links.next[n];
        i := i + 1;
      }
      assert i == |l| && l[..i] == l;
    }

    /**
     purple_blist_add_account together with the account's change to connected: the sizes are counted anew and the list
     stays in order. `showOffline` are the contacts with the setting of that name.
    */
    method Connect(a: Account, showOffline: set<Node>)
      requires Valid(S()) && None in kids && a !in connected
      modifies `sizes, `priorities, `connected
      ensures Valid(S()) && connected == old(connected) + {a}
    {
      hide Linked, Placed, Sized, Sound, Indexed, Filed, Named, Prioritized, Typed, TotalPreorder, Valid, Swept, Stale,
           Elements, ChildrenOf;
      ghost var s0, l, i := S(), kids[None], 0;
      HeadOf(s0, None);
      SweepStarts(s0, connected + {a}) by { ValidIs(s0); Soundly(s0, NOTHING); }
      StaleStart(s0, a);
      connected := connected + {a};
      assert ChildrenOf(s0, l[..0]) == {} by { ChildrenNone(s0, l); }
      var gnode := links.root;
      while gnode.Some?
        invariant 0 <= i <= |l| && gnode == First(l[i..]) && connected == s0.connected + {a}
        invariant Swept(s0, connected, ChildrenOf(s0, l[..i]), sizes)
        invariant Stale(s0, a, ChildrenOf(s0, l[..i]), priorities)
        decreases |l| - i
      {
        SiblingAt(s0, None, i);
        TopIsGroup(s0, l[i]);
        ChildrenNext(s0, l, i);
        ChildrenDisjoint(s0, l, i);
        ConnectGroup(gnode.value, a, showOffline, s0, ChildrenOf(s0, l[..i]));
        gnode := links.next[gnode.value];
        i := i + 1;
      }
      assert i == |l| && l[..i] == l;
      ConnectedValid(s0, a, S());
    }

    /** The middle loop of purple_blist_remove_account. */
    method DisconnectGroup(g: Node, a: Account, collected: seq<Node>, ghost s0: State, ghost done: set<Node>)
      returns (list: seq<Node>)
      requires links == s0.links && info == s0.info && env == s0.env && connected == s0.connected - {a}
      requires a in s0.connected
      requires Valid(s0) && Swept(s0, connected, done, sizes) && Stale(s0, a, done, priorities)
      requires g in info && info[g].Group? && Some(g) in s0.kids && done !! Elements(s0.kids[Some(g)])
      requires Elements(collected) == Reached(s0, a, done)
      modifies `sizes, `priorities
      ensures Swept(s0, connected, done + Elements(s0.kids[Some(g)]), sizes)
      ensures Stale(s0, a, done + Elements(s0.kids[Some(g)]), priorities)
      ensures Elements(list) == Reached(s0, a, done + Elements(s0.kids[Some(g)]))
    {
      hide Linked, Placed, Sized, Sound, Indexed, Filed, Named, Prioritized, Typed, TotalPreorder, Valid, Swept, Stale,
           Recounted, Elements, Reached, Mine;
      ghost var l, i, d := s0.kids[Some(g)], 0, done;
      HeadOf(s0, Some(g));
      ElementsNone(l, done);
      list := collected;
      var cnode := links.child[g];
      while cnode.Some?
        invariant 0 <= i <= |l| && cnode == First(l[i..]) && d == done + Elements(l[..i])
        invariant Swept(s0, connected, d, sizes) && Stale(s0, a, d, priorities) && Elements(list) == Reached(s0, a, d)
        decreases |l| - i
      {
        var n := cnode.value;
        ghost var z, pr := sizes, priorities;
        SiblingAt(s0, Some(g), i);
        ElementsNext(l, i, done);
        SweepFacts(s0, connected, d, z, n, g);
        ReachedNext(s0, a, d, n, g);
        if info[n].Contact? {
          StaleHas(s0, a, d, pr, n);
          list := DisconnectContact(n, g, a, list, s0, d);
          SweepsOn(s0, connected, d, z, sizes, n, g);
        } else {
          if info[n].account == a {
            sizes := sizes.(current := sizes.current[g := sizes.current[g] - 1],
                            online := sizes.online[g := sizes.online[g] - 1]);
          }
          ChildlessChat(s0, n, g);
          ChatCounts(s0, connected, d, z, sizes, n, g,
                     Bit(info[n].account in connected) - Bit(info[n].account in s0.connected));
        }
        StaleNext(s0, a, d, pr, n, priorities);
        d := d + {n};
        cnode := links.next[n];
        i := i + 1;
      }
      assert i == |l| && l[..i] == l;
    }

    /** The last loop of purple_blist_remove_account: the presences collected go offline. */
    method SetOffline(list: seq<Node>)
      requires forall b :: b in list ==> b in info && info[b].Buddy?
      modifies `info
      ensures info == Offlined(old(info), Elements(list), env.offline)
    {
      var i := 0;
      ElementsNone(list, {});
      assert Offlined(info, Elements(list[..0]), env.offline) == info;
      while i < |list|
        invariant 0 <= i <= |list| && info == Offlined(old(info), Elements(list[..i]), env.offline)
        invariant forall b :: b in list ==> b in info && info[b].Buddy?
      {
        assert list[..i + 1] == list[..i] + [list[i]];
        info := info[list[i] := info[list[i]].(presence := env.offline)];
        i := i + 1;
      }
      assert list[..i] == list;
    }

    /**
     purple_blist_remove_account together with the account's change to disconnected: the sizes are counted anew, the
     account's buddies in the list go offline, and the list stays in order.
    */
    method Disconnect(a: Account)
      requires Valid(S()) && None in kids && a in connected
      modifies `sizes, `priorities, `connected, `info
      ensures Valid(S()) && connected == old(connected) - {a}
      ensures info == Offlined(old(info), Reached(old(S()), a, ChildrenOf(old(S()), kids[None])), env.offline)
      ensures WentOffline(old(S()), S(), a)
    {
      hide Linked, Placed, Sized, Sound, Indexed, Filed, Named, Prioritized, Typed, TotalPreorder, Valid, Swept, Stale,
           Elements, ChildrenOf,
           Reached, Offlined, WentOffline;
      ghost var s0, l, i := S(), kids[None], 0;
      HeadOf(s0, None);
      SweepStarts(s0, connected - {a}) by { ValidIs(s0); Soundly(s0, NOTHING); }
      StaleStart(s0, a);
      connected := connected - {a};
      ChildrenNone(s0, l);
      ReachedNone(s0, a);
      var list: seq<Node> := [];
      var gnode := links.root;
      while gnode.Some?
        invariant 0 <= i <= |l| && gnode == First(l[i..]) && info == s0.info && connected == s0.connected - {a}
        invariant Swept(s0, connected, ChildrenOf(s0, l[..i]), sizes)
        invariant Stale(s0, a, ChildrenOf(s0, l[..i]), priorities)
        invariant Elements(list) == Reached(s0, a, ChildrenOf(s0, l[..i]))
        decreases |l| - i
      {
        SiblingAt(s0, None, i);
        TopIsGroup(s0, l[i]);
        ChildrenNext(s0, l, i);
        ChildrenDisjoint(s0, l, i);
        list := DisconnectGroup(gnode.value, a, list, s0, ChildrenOf(s0, l[..i]));
        gnode := links.next[gnode.value];
        i := i + 1;
      }
      assert i == |l| && l[..i] == l;
      ReachedBuddies(s0, a, ChildrenOf(s0, l), list);
      SetOffline(list);
      DisconnectedValid(s0, a, S(), Elements(list));
      OfflinedIs(s0, S(), a);
    }

    // ------------------------------------------------------- renaming a group

    /** The inner loop of a merge of groups: every buddy of the moved contact is added again where it is. */
    method ReaddBuddies(c: Node, ghost g: Node)
      requires Valid(S()) && c in info && info[c].Contact? && c in links.parent && links.parent[c] == Some(g)
      requires Some(c) in kids
      modifies this
      ensures Valid(S()) && kids == old(kids) && info == old(info) && drift == old(drift)
      ensures links.parent == old(links.parent)
      ensures tables.buddies == old(tables.buddies) && connected == old(connected)
    {
      hide Linked, Placed, Sized, Sound, Indexed, Filed, Named, Prioritized, Typed, TotalPreorder, Valid, Nearly,
           Displaced, Repositions, Fresh;
      ghost var l, i := kids[Some(c)], 0;
      HeadOf(S(), Some(c));
      var bnode := links.child[c];
      while bnode.Some?
        invariant 0 <= i <= |l| && bnode == First(l[i..])
        invariant Valid(S()) && kids == old(kids) && info == old(info) && drift == old(drift)
        invariant links.parent == old(links.parent)
        invariant tables.buddies == old(tables.buddies) && connected == old(connected)
        decreases |l| - i
      {
        ghost var s1 := S();
        var b := bnode.value;
        FreshHere(s1, c, g, i);
        if i > 0 {
          FreshHere(s1, c, g, i - 1);
          HeadOf(s1, Some(c));
        }
        NearlyNow(s1);
        FreshIs(s1, b, g);
        var _, _ := AddBuddyTo(b, Some(c), links.prev[b], {});
        if i > 0 {
          NearlyIs(S(), {});
          Reseated(s1, S(), c, g, i);
        }
        FreshHere(S(), c, g, i);
        bnode := links.next[b];
        i := i + 1;
      }
    }

    /**
     One turn of the loop over the children of a group that is merged into another. If the contact has lost all its
     buddies it is freed, and the code goes on to read its child pointer: `ok` is false, and this is where the model
     stops.
    */
    method MoveToEnd(n: Node, ghost from: Node, to: Node, prev: Ptr, ghost s0: State, ghost i: nat) returns (ok: bool)
      requires Moving(s0, S(), from, to, i) && i < |At(s0.kids, Some(from))| && n == At(s0.kids, Some(from))[i]
      requires prev == Last(At(s0.kids, Some(to)) + At(s0.kids, Some(from))[..i])
      modifies this
      ensures connected == old(connected) && (ok <==> Outlives(s0, n, to))
      ensures ok ==> Moving(s0, S(), from, to, i + 1)
      ensures !ok ==> Valid(S()) && FirstPerishing(s0, At(s0.kids, Some(from)), to) == Some(n) && n !in info
                      && info == Minus(s0.info, GroupLost(s0, At(s0.kids, Some(from))[..i + 1], to) + {n})
    {
      hide Linked, Placed, Sized, Sound, Indexed, Filed, Named, Prioritized, Typed, TotalPreorder, Valid, Movable,
           Moving, Rehomed, Casualties,
           Bereaved, Minus, Moved, Kept, Outlives, FirstPerishing, GroupLost;
      ghost var s1 := S();
      MovingAt(s0, s1, from, to, i);
      MovingValid(s0, s1, from, to, i);
      if info[n].Contact? {
        MovingKeeps(s0, s1, from, to, i);
        MoveContact(n, to, prev);
        ghost var s2 := S();
        MovedSurvives(s0, s1, s2, from, to, i);
        if n !in info {
          MovedAway(s0, s1, s2, from, to, i);
          return false;
        }
        MovingNext(s0, s1, s2, from, to, i);
        MovedThere(s0, s2, from, to, i);
        ReaddBuddies(n, to);
      } else {
        NoneToLose(s0, n, to);
        MoveChild(n, to, prev);
      }
      MovingNext(s0, s1, S(), from, to, i);
      ok := true;
    }

    /**
     The loop over the children of the group that is merged into another, up to the first contact that is freed on the
     way and whose child pointer is read next, if there is one.
    */
    method MoveChildren(from: Node, to: Node) returns (freed: Ptr)
      requires Unitable(S(), from, to)
      modifies this
      ensures connected == old(connected)
      ensures freed == FirstPerishing(old(S()), At(old(kids), Some(from)), to)
      ensures (freed == None <==> Movable(old(S()), from, to))
      ensures freed == None ==> Moving(old(S()), S(), from, to, |At(old(kids), Some(from))|)
      ensures freed.Some? ==> Valid(S()) && freed.value !in info
    {
      hide Linked, Placed, Sized, Sound, Indexed, Filed, Named, Prioritized, Typed, TotalPreorder, Valid, Movable,
           Moving, Rehomed, Casualties,
           Bereaved, Minus, Moved, Kept, Outlives, GroupLost, FirstPerishing;
      ghost var s0 := S();
      MovableKids(s0, from, to);
      MovingStart(s0, from, to);
      ghost var l, t, i := kids[Some(from)], kids[Some(to)], 0;
      assert Valid(s0) by { MovingValid(s0, s0, from, to, 0); }
      HeadOf(s0, Some(to));
      HeadOf(s0, Some(from));
      var prev := LastSibling(links.child[to], Some(to));
      var child := links.child[from];
      assert t + l[..0] == t;
      while child.Some?
        invariant 0 <= i <= |l| && child == First(l[i..]) && prev == Last(t + l[..i]) && connected == old(connected)
        invariant Moving(s0, S(), from, to, i)
        decreases |l| - i
      {
        ghost var s1 := S();
        MovingAt(s0, s1, from, to, i);
        var n := child.value;
        var next := links.next[n];
        var ok := MoveToEnd(n, from, to, prev, s0, i);
        if !ok {
          NotAllOutlive(s0, from, to);
          return Some(n);
        }
        assert (t + l[..i + 1])[|t| + i] == n;
        prev := Some(n);
        child := next;
        i := i + 1;
      }
      AllOutlive(s0, S(), from, to);
      freed := None;
    }

    /**
     purple_blist_rename_group. With the name of another group, told apart ignoring case, the children go to the end
     of that group, losing the buddies whose keys are taken there, and the emptied group goes. If a contact loses all
     of them it is freed before its children are read: `freed` is the first such contact, and the model stops there.
     Otherwise the group only takes the name, and the list stays in order exactly if no other group is indexed under
     it. (A name is equal to itself ignoring case.)
    */
    method RenameGroup(source: Node, name: string) returns (freed: Ptr)
      requires Valid(S()) && None in kids && source in kids[None] && Rival(S(), source, name) != Some(source)
      modifies this
      ensures connected == old(connected) && source in old(info) && old(info[source]).Group?
      ensures name == "" || name == old(info[source]).name ==> S() == old(S()) && freed == None
      ensures name != "" && name != old(info[source]).name ==>
                var d := Rival(old(S()), source, name);
                if d.Some? then
                  && freed == FirstPerishing(old(S()), At(old(kids), Some(source)), d.value)
                  && (freed == None <==> Movable(old(S()), source, d.value)) && Valid(S())
                  && (freed.Some? ==> freed.value !in info && freed.value !in links.child)
                  && (freed == None ==>
                      kids == KidsUnited(old(S()), source, d.value) && info == InfoUnited(old(S()), source, d.value)
                                        && drift == DriftUnited(old(S()), source, d.value))
                else freed == None && S() == GroupRenamed(old(S()), source, name)
                     && (Valid(S()) <==> old(FindGroup(name)) == None || old(FindGroup(name)) == Some(source))
      ensures name != "" && name != old(info[source]).name ==>
                var d := old(FindGroup(name));
                if d.Some? && d.value in old(info) && old(info)[d.value].Group?
                   && !env.sameIgnoringCase(old(info[source]).name, old(info)[d.value].name)
                then freed == None ==> GroupsUnite(old(S()), S(), source, d.value)
                else freed == None && kids == old(kids) && info == old(info)[source := Group(name)]
    {
      hide Linked, Placed, Sized, Sound, Indexed, Filed, Named, Prioritized, Typed, TotalPreorder, Valid, Movable,
           Moving, Kept, FirstPerishing, GroupsUnite;
      ghost var s0 := S();
      TopIsGroup(s0, source);
      freed := None;
      if name == "" || name == info[source].name {
        return;
      }
      var dest := FindGroup(name);
      if dest.Some? {
        GroupIndexed(s0, env.collateKey(name));
      }
      if dest.Some? && !env.sameIgnoringCase(info[source].name, info[dest.value].name) {
        freed := MoveChildren(source, dest.value);
        if freed.Some? {
          LinksDomain(S(), NOTHING) by { ValidIs(S()); }
          return;
        }
        MovingEnd(s0, S(), source, dest.value);
        MovingIs(s0, S(), source, dest.value);
        RemoveGroup(source);
        UnitedComes(s0, S(), source, dest.value);
      } else {
        GroupRenamedValid(s0, source, name);
        var key := env.collateKey(info[source].name);
        info := info[source := Group(name)];
        tables := tables.(groups := Less(tables.groups, key)[env.collateKey(name) := source]);
      }
    }

    // --------------------------------------------------------------- looking up

    /** purple_find_buddy: the first that a scan of all groups from left to right would find. */
    method FindBuddy(account: Account, name: string) returns (r: Ptr)
      requires Valid(S()) && None in kids
      ensures r == if name == "" then None
                   else First(Matching(S(), account, env.normalize(account, name), AllBuddies(kids, kids[None])))
    {
      hide Valid, AllBuddies, Matching;
      if name == "" {
        return None;
      }
      ghost var s, k, l, i := S(), env.normalize(account, name), kids[None], 0;
      HeadOf(s, None);
      assert l[0..] == l;
      var group := links.root;
      while group.Some?
        invariant 0 <= i <= |l| && group == First(l[i..])
        invariant First(Matching(s, account, k, AllBuddies(kids, l[i..])))
                    == First(Matching(s, account, k, AllBuddies(kids, l)))
        decreases |l| - i
      {
        var g := group.value;
        SiblingAt(s, None, i);
        TopIsGroup(s, g);
        HeadOf(s, Some(g));
        ScanNext(s, account, k, l, i);
        LookupIsScan(s, account, name, g);
        if links.child[g].Some? && KeyFor(account, name, g) in tables.buddies {
          return Some(tables.buddies[KeyFor(account, name, g)]);
        }
        NoBuddies(kids, s, account, k);
        group := links.next[g];
        i := i + 1;
      }
      NoneLeft(s, account, k);
      r := None;
    }

    /** purple_find_buddies with a name: all that a scan would find, the last one first. */
    method FindBuddies(account: Account, name: string) returns (list: seq<Node>)
      requires Valid(S()) && None in kids && name != ""
      ensures list == Reversed(Matching(S(), account, env.normalize(account, name), AllBuddies(kids, kids[None])))
    {
      hide Valid, AllBuddies, Matching;
      ghost var s, k, l, i := S(), env.normalize(account, name), kids[None], 0;
      HeadOf(s, None);
      list := [];
      assert l[0..] == l;
      var node := links.root;
      while node.Some?
        invariant 0 <= i <= |l| && node == First(l[i..])
        invariant Reversed(Matching(s, account, k, AllBuddies(kids, l[i..]))) + list
                    == Reversed(Matching(s, account, k, AllBuddies(kids, l)))
        decreases |l| - i
      {
        var g := node.value;
        SiblingAt(s, None, i);
        TopIsGroup(s, g);
        HeadOf(s, Some(g));
        ScanNext(s, account, k, l, i);
        LookupIsScan(s, account, name, g);
        NoBuddies(kids, s, account, k);
        ghost var found, later := FoundAt(s, KeyFor(account, name, g)),
              Matching(s, account, k, AllBuddies(kids, l[i + 1..]));
        ReversedBoth(found, later);
        if links.child[g].Some? && KeyFor(account, name, g) in tables.buddies {
          var b := tables.buddies[KeyFor(account, name, g)];
          assert Reversed([b]) == [b] by { assert Reversed([]) == []; }
          assert Reversed(later) + [b] + list == Reversed(later) + ([b] + list);
          list := [b] + list;
        } else {
          assert found == [];
          assert Reversed(later) + [] + list == Reversed(later) + list;
        }
        node := links.next[g];
        i := i + 1;
      }
      NoneLeft(s, account, k);
      assert [] + list == list;
    }

    /** purple_find_buddies without a name: the values of the account's own table, in whatever order. */
    method FindAccountBuddies(account: Account) returns (found: set<Node>)
      requires Valid(S()) && None in kids && account in tables.cache
      ensures found == set b | b in AllBuddies(kids, kids[None]) && b in info && info[b].Buddy?
                               && info[b].account == account
    {
      CacheIsScan(S(), account);
      found := tables.cache[account].Values;
    }

    // ------------------------------------------------------------ walking along

    /** get_next_node. */
    method NextNode(n: Ptr, deep: bool) returns (r: Ptr)
      requires Valid(S()) && (n.Some? ==> Reachable(S(), n.value))
      ensures n == None ==> r == None
      ensures n.Some? ==> r == First(if deep then Rest(S(), n.value) else Past(S(), n.value))
      ensures n.Some? && r.Some? ==>
                Reachable(S(), r.value)
                    && (if deep then Rest(S(), n.value) else Past(S(), n.value)) == [r.value] + Rest(S(), r.value)
      decreases if n == None then 0 else if info[n.value].Group? then 1 else if info[n.value].Buddy? then 3
                  else 2, if deep then 1 else 0
    {
      hide Valid, Rest, Past;
      if n == None {
        return None;
      }
      BelowGoesOn(S(), n.value);
      PastGoesOn(S(), n.value);
      TreeKinds(S(), n.value);
      if deep && links.child[n.value].Some? {
        return links.child[n.value];
      }
      if links.next[n.value].Some? {
        return links.next[n.value];
      }
      r := NextNode(links.parent[n.value], false);
    }

    /** purple_blist_node_next: the next node in preorder, with `offline` unset the next that is not hidden. */
    method NodeNext(n: Node, offline: bool) returns (r: Ptr)
      requires Valid(S()) && Reachable(S(), n)
      ensures var rest := if offline then Rest(S(), n) else Visible(S(), Rest(S(), n));
              && r == First(rest)
              && (r.Some? ==> Reachable(S(), r.value)
                              && rest == [r.value] + if offline then Rest(S(), r.value)
                                   else Visible(S(), Rest(S(), r.value)))
    {
      hide Valid, Rest, Past, Reachable;
      ghost var s := S();
      r := NextNode(Some(n), true);
      if offline {
        return;
      }
      RestEnds(s, n, r);
      while r.Some? && info[r.value].Buddy? && info[r.value].account !in connected
        invariant r.Some? ==> Reachable(s, r.value) && r.value in info
        invariant r.Some? ==>
                    Visible(s, Rest(s, n))
                    == (if Hidden(s, r.value) then [] else [r.value]) + Visible(s, Rest(s, r.value))
        invariant r == None ==> Visible(s, Rest(s, n)) == []
        decreases if r.Some? then |Rest(s, r.value)| + 1 else 0
      {
        ghost var was := r.value;
        r := NextNode(r, true);
        RestEnds(s, was, r);
      }
    }

    /**
     Walking from the root with purple_blist_node_next comes to an end, having been at every node of the tree in
     preorder.
    */
    method Walk(offline: bool) returns (visited: seq<Node>)
      requires Valid(S()) && None in kids
      ensures visited == if offline then Preorder(S()) else Visible(S(), Preorder(S()))
    {
      hide Valid, Rest, Reachable, Listing, Visible;
      ghost var s := S();
      HeadOf(s, None);
      visited := [];
      var n := links.root;
      RootFirst(s);
      while n.Some?
        invariant n.Some? ==> Reachable(s, n.value)
        invariant visited + Todo(s, n, offline) == if offline then Preorder(s) else Visible(s, Preorder(s))
        decreases |Todo(s, n, offline)|
      {
        var was := n.value;
        n := NodeNext(was, offline);
        TodoNext(visited, was, Todo(s, n, offline));
        visited := visited + [was];
      }
    }

    // ------------------------------------------------------ deleting an account

    /**
     The innermost loop of purple_accounts_delete: the contact's buddies on account `a` are removed while it is walked.
    */
    method PurgeContact(c: Node, a: Account, ghost s0: State, ghost gone: set<Node>)
      requires Purged(s0, S(), gone) && c in s0.info && s0.info[c].Contact? && Some(c) in s0.kids && c !in gone
      requires c in links.child && (forall b :: b in s0.kids[Some(c)] ==> b !in gone)
      modifies this
      ensures Purged(s0, S(), gone + Victims(s0, a, c))
    {
      hide Linked, Placed, Sized, Sound, Indexed, Filed, Named, Prioritized, Typed, TotalPreorder, Valid, Purged,
           SoFar, Victims, Dropped, WithBuddy;
      ghost var l, i := s0.kids[Some(c)], 0;
      PurgedParts(s0, S(), gone);
      StillFirst(s0, S(), gone, Some(c));
      SoFarStarts(s0, a, gone, c);
      assert l[0..] == l;
      var bnode := links.child[c];
      while bnode.Some?
        invariant 0 <= i <= |l| && bnode == First(l[i..]) && Purged(s0, S(), SoFar(s0, a, gone, c, i))
        decreases |l| - i
      {
        ghost var s1, r := S(), SoFar(s0, a, gone, c, i);
        var b := bnode.value;
        SoFarAhead(s0, a, gone, c, i);
        StillThere(s0, s1, r, Some(c), i);
        BuddyHere(s0, s1, r, c, b);
        SoFarNext(s0, a, gone, c, i);
        var next := links.next[b];
        if info[b].account == a {
          RemoveBuddy(b);
          PurgeBuddy(s0, s1, S(), r, b, c, s1.links.parent[c].value);
        }
        bnode := next;
        i := i + 1;
      }
      SoFarEnds(s0, a, gone, c);
    }

    /** The middle loop of purple_accounts_delete, over the children of group `g`. */
    method PurgeGroup(g: Node, a: Account, ghost s0: State, ghost gone: set<Node>)
      requires Purged(s0, S(), gone) && g in s0.info && s0.info[g].Group? && Some(g) in s0.kids && g !in gone
      requires g in links.child
      requires forall n :: n in s0.kids[Some(g)] || (exists c :: c in s0.kids[Some(g)] && n in At(s0.kids, Some(c))) ==>
                 n !in gone
      modifies this
      ensures Purged(s0, S(), gone + ChildVictims(s0, a, s0.kids[Some(g)]))
    {
      hide Linked, Placed, Sized, Sound, Indexed, Filed, Named, Prioritized, Typed, TotalPreorder, Valid, Purged,
           Victims, ChildVictims, Less, Without;
      ghost var l, j := s0.kids[Some(g)], 0;
      StillFirst(s0, S(), gone, Some(g));
      assert gone + ChildVictims(s0, a, l[..0]) == gone by { NoVictims(s0, a, l); }
      assert l[0..] == l;
      var cnode := links.child[g];
      while cnode.Some?
        invariant 0 <= j <= |l| && cnode == First(l[j..]) && Purged(s0, S(), gone + ChildVictims(s0, a, l[..j]))
        decreases |l| - j
      {
        ghost var s1, r := S(), gone + ChildVictims(s0, a, l[..j]);
        var n := cnode.value;
        ChildAhead(s0, s1, a, gone, g, j);
        VictimsNext(s0, a, l, j);
        var next := links.next[n];
        if info[n].Contact? {
          PurgeContact(n, a, s0, r);
        } else if info[n].account == a {
          RemoveChat(n);
          PurgeChat(s0, s1, S(), r, n, g);
        }
        assert gone + (ChildVictims(s0, a, l[..j]) + Victims(s0, a, n)) == r + Victims(s0, a, n) && r + {} == r;
        cnode := next;
        j := j + 1;
      }
      assert l[..j] == l;
    }

    /**
     The walk of purple_accounts_delete: the account's buddies and chats, and the contacts they leave empty, are out of
     the list, everything else is where it was, and nothing is filed under the account any more.
    */
    method DeleteAccount(a: Account)
      requires Valid(S()) && None in kids
      modifies this
      ensures Purged(old(S()), S(), GroupVictims(old(S()), a, old(kids)[None]))
      ensures forall k :: k in tables.buddies ==> k.account != a
      ensures AccountGone(old(S()), S(), a)
    {
      hide Linked, Placed, Sized, Sound, Indexed, Filed, Named, Prioritized, Typed, TotalPreorder, Valid, Purged,
           ChildVictims, GroupVictims, AccountGone;
      ghost var s0, l, i := S(), kids[None], 0;
      PurgeStarts(s0);
      HeadOf(s0, None);
      assert GroupVictims(s0, a, l[..0]) == {} by { NoVictims(s0, a, l); }
      assert l[0..] == l;
      var gnode := links.root;
      while gnode.Some?
        invariant 0 <= i <= |l| && gnode == First(l[i..]) && Purged(s0, S(), GroupVictims(s0, a, l[..i]))
        decreases |l| - i
      {
        GroupAhead(s0, S(), a, i);
        VictimsNext(s0, a, l, i);
        PurgeGroup(gnode.value, a, s0, GroupVictims(s0, a, l[..i]));
        GroupsStay(s0, S(), GroupVictims(s0, a, l[..i + 1]), i);
        gnode := links.next[gnode.value];
        i := i + 1;
      }
      assert l[..i] == l;
      NothingFiled(s0, S(), a);
      PurgedIs(s0, S(), a);
    }

    // ------------------------------------------------------ accounts' tables

    /**
     purple_blist_buddies_cache_add_account: right for an account that has no buddies in the list yet, and for no other.
    */
    method AddAccountTable(a: Account)
      requires Valid(S())
      modifies `tables
      ensures tables == old(tables).(cache := old(tables).cache[a := map[]])
      ensures Valid(S()) <==> forall k :: k in tables.buddies ==> k.account != a
    {
      ghost var s0 := S();
      var none: map<Key, Node> := map[];
      tables := tables.(cache := tables.cache[a := none]);
      NewTable(s0, a, S());
    }

    /** purple_blist_buddies_cache_remove_account: right once no buddy is on the account. */
    method RemoveAccountTable(a: Account)
      requires Valid(S())
      modifies `tables
      ensures tables == old(tables).(cache := Less(old(tables).cache, a))
      ensures Valid(S()) <==> forall b :: b in info && info[b].Buddy? ==> info[b].account != a
    {
      ghost var s0 := S();
      tables := tables.(cache := Less(tables.cache, a));
      OldTable(s0, a, S());
    }
  }
}
