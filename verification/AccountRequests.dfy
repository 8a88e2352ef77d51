/**
 libpurple/account.c: the life of a request for authorization, from the user interface's answer, or lack of
 one, to the memory's end.

 A request is an id in a mutable store; once it is freed it is in the store no more, so touching it is a
 proof obligation that fails.
*/
module AccountRequests {
  import opened BlistSeq
  import opened Options

  type Account = nat
  type Handle = nat
  type Request = nat

  /** The fields of PurpleAccountRequestInfo that matter. */
  datatype Info = Info(account: Account, ui: Option<Handle>, refs: int)

  /** What a user interface does while it is being asked: nothing yet, or call one of the callbacks. */
  datatype Reply = Later | Grant | Deny

  /** What became of a request: the auth callback, the deny callback, or its window closed. */
  datatype Event = Granted(r: Request) | Denied(r: Request) | Closed(r: Request)

  /** How often request `r` has been answered or closed. */
  function Times(log: seq<Event>, r: Request): nat {
    if log == [] then 0 else Times(log[..|log| - 1], r) + if log[|log| - 1].r == r then 1 else 0
  }

  lemma TimesMore(log: seq<Event>, e: Event, r: Request)
    ensures Times(log + [e], r) == Times(log, r) + if e.r == r then 1 else 0
  {
    assert (log + [e])[..|log|] == log;
  }

  /** A request that was issued and is not live any more has been answered or closed once, all others not at all. */
  ghost predicate Accounted(log: seq<Event>, issued: set<Request>, live: set<Request>) {
    live <= issued && forall r {:trigger Times(log, r)} :: Times(log, r) == if r in issued && r !in live then 1 else 0
  }

  /** A request that stays, one that is answered at once, and one that is done with. */
  lemma AccountedFor(log: seq<Event>, issued: set<Request>, live: set<Request>, e: Event)
    requires Accounted(log, issued, live)
    ensures e.r !in issued ==>
              Accounted(log, issued + {e.r}, live + {e.r}) && Accounted(log + [e], issued + {e.r}, live)
    ensures e.r in live ==> Accounted(log + [e], issued, live - {e.r})
  {
    forall r ensures Times(log + [e], r) == Times(log, r) + if e.r == r then 1 else 0 {
      TimesMore(log, e, r);
    }
  }

  class Requests {
    /** The live requests. */
    var store: map<Request, Info>
    /** The pending requests, oldest first. */
    var handles: seq<Request>

    ghost var log: seq<Event>
    ghost var issued: set<Request>

    /**
     Between calls exactly the pending requests are live, each held once; a request that is not pending any more
     has been answered or closed exactly once, one that is pending has not.
    */
    ghost predicate Valid()
      reads this
    {
      && NoDup(handles)
      && (forall r :: r in handles <==> r in store)
      && (forall r :: r in store ==> store[r].refs == 1)
      && Accounted(log, issued, store.Keys)
    }

    constructor ()
      ensures Valid() && handles == [] && log == [] && issued == {}
    {
      store, handles, log, issued := map[], [], [], {};
    }

    /** purple_account_request_info_unref: whether the request is still live. */
    method Unref(r: Request) returns (live: bool)
      requires r in store && store[r].refs >= 1
      modifies `store
      ensures live <==> old(store)[r].refs > 1
      ensures store == if live then old(store)[r := old(store)[r].(refs := old(store)[r].refs - 1)]
                else old(store) - {r}
    {
      var info := store[r].(refs := store[r].refs - 1);
      store := store[r := info];
      if info.refs != 0 {
        return true;
      }
      ghost var s := store;
      store := store - {r};
      assert store == old(store) - {r};
      return false;
    }

    /** request_auth_cb and request_deny_cb. */
    method Callback(r: Request, granted: bool)
      requires r in store && store[r].refs >= 1 && NoDup(handles)
      modifies this
      ensures handles == Without(old(handles), r) && issued == old(issued)
      ensures log == old(log) + [if granted then Granted(r) else Denied(r)]
      ensures store == if old(store)[r].refs > 1 then old(store)[r := old(store)[r].(refs := old(store)[r].refs - 1)]
                else old(store) - {r}
    {
      handles := Without(handles, r);
      log := log + [if granted then Granted(r) else Denied(r)];
      var _ := Unref(r);
    }

    /** The user grants or denies a pending request. */
    method Answer(r: Request, granted: bool)
      requires Valid() && r in handles
      modifies this
      ensures Valid() && handles == Without(old(handles), r) && r !in store && issued == old(issued)
      ensures log == old(log) + [if granted then Granted(r) else Denied(r)]
    {
      hide Accounted, Without;
      WithoutKeeps(handles, r);
      AccountedFor(log, issued, store.Keys, if granted then Granted(r) else Denied(r));
      Callback(r, granted);
      assert store.Keys == old(store).Keys - {r};
    }

    /** purple_account_request_close_info. */
    method CloseInfo(r: Request)
      requires r in store && store[r].refs >= 1
      modifies `store, `log
      ensures log == old(log) + [Closed(r)]
      ensures store == if old(store)[r].refs > 1 then old(store)[r := old(store)[r].(refs := old(store)[r].refs - 1)]
                else old(store) - {r}
    {
      log := log + [Closed(r)];
      var _ := Unref(r);
    }

    /** A pending request is taken off the list and its window closed. */
    method Close(r: Request)
      requires Valid() && r in handles
      modifies this
      ensures Valid() && handles == Without(old(handles), r) && store == old(store) - {r} && issued == old(issued)
      ensures log == old(log) + [Closed(r)]
    {
      hide Accounted, Without;
      WithoutKeeps(handles, r);
      AccountedFor(log, issued, store.Keys, Closed(r));
      handles := Without(handles, r);
      CloseInfo(r);
      assert store.Keys == old(store).Keys - {r};
    }

    /** Whether a request is the account's, or has the handle. */
    predicate Concerns(r: Request, account: Option<Account>, ui: Option<Handle>)
      requires r in store
      reads `store
    {
      (account.Some? && store[r].account == account.value) || (account.None? && ui.Some? && store[r].ui == ui)
    }

    lemma Issued()
      requires Valid()
      ensures store.Keys <= issued && forall r :: r in handles ==> r in issued
    {
    }

    lemma Pending()
      requires Valid()
      ensures NoDup(handles) && forall r :: r in handles ==> r in store
    {
    }

    /** One turn of the loops below. */
    method CloseIfConcerned(r: Request, account: Option<Account>, ui: Option<Handle>)
      requires Valid() && r in handles && r in store
      modifies this
      ensures Valid() && issued == old(issued)
      ensures handles == if old(Concerns(r, account, ui)) then Without(old(handles), r) else old(handles)
      ensures store == if old(Concerns(r, account, ui)) then old(store) - {r} else old(store)
      ensures log == if old(Concerns(r, account, ui)) then old(log) + [Closed(r)] else old(log)
    {
      hide Without, Times, Valid;
      if Concerns(r, account, ui) {
        Close(r);
      }
    }

    /**
     purple_account_request_close_with_account and purple_account_request_close: the pending requests of the account, or
     with the handle, are closed while the list of them is walked; all others stay pending, in order. The next link is
     saved before the request, and its link with it, may go; it leads to a request that is still in the list.
    */
    method CloseAll(account: Option<Account>, ui: Option<Handle>)
      requires Valid()
      modifies this
      ensures Valid() && issued == old(issued)
      ensures handles == Staying(old(store), old(handles), account, ui)
      ensures forall r :: r in handles <==> r in old(handles) && !IsMeant(old(store), r, account, ui)
      ensures InTurn(handles, old(handles)) && OnlyClosed(old(log), log)
      ensures forall r :: r in store ==> r in old(store) && store[r] == old(store)[r]
    {
      hide Valid, Walked, Behind, Staying, InTurn, OnlyClosed, IsMeant;
      ghost var s, l, i := store, handles, 0;
      NothingClosed(log);
      WalkedStart(s, l, account, ui);
      assert l[0..] == l;
      var link := First(handles);
      while link.Some?
        invariant 0 <= i <= |l| && link == First(l[i..]) && Valid() && issued == old(issued)
        invariant Walked(s, l, i, account, ui, handles, store)
        invariant OnlyClosed(old(log), log)
        decreases |l| - i
      {
        var r := link.value;
        Pending();
        WalkedNext(s, l, i, account, ui, handles, store);
        WalkedBehind(s, l, i, account, ui, handles, store);
        var next := Behind(handles, r);
        OneClosed(old(log), log, r);
        CloseIfConcerned(r, account, ui);
        link := next;
        i := i + 1;
      }
      WalkedEnd(s, l, account, ui, handles, store);
      StayingAre(s, l, account, ui);
    }

    /**
     The end of purple_account_request_authorization, where a user interface is asked that replies at once or later.
     `r` is the memory for the request; the extra reference keeps it alive while the interface calls back.
    */
    method Ask(r: Request, account: Account, ui: Handle, reply: Reply) returns (handle: Option<Handle>)
      requires Valid() && r !in issued
      modifies this
      ensures Valid() && issued == old(issued) + {r}
      ensures reply == Later ==> handle == Some(ui) && handles == old(handles) + [r] && log == old(log)
                                 && r in store && store[r].account == account && store[r].ui == Some(ui)
      ensures reply != Later ==> handle == None && handles == old(handles) && r !in store
                                 && log == old(log) + [if reply == Grant then Granted(r) else Denied(r)]
      ensures store == if reply == Later then old(store)[r := Info(account, Some(ui), 1)] else old(store)
    {
      hide Accounted, Without;
      AccountedFor(log, issued, store.Keys, if reply == Grant then Granted(r) else Denied(r));
      assert r !in store by { Issued(); }
      store := store[r := Info(account, None, 2)];
      issued := issued + {r};
      if reply != Later {
        WithoutAbsent(handles, r);
        Callback(r, reply == Grant);
      }
      store := store[r := store[r].(ui := Some(ui))];
      var live := Unref(r);
      if live {
        assert store.Keys == old(store).Keys + {r};
        handles := handles + [r];
        return Some(ui);
      }
      assert store == old(store);
      return None;
    }
  }

  /** The requests among `l` that are not concerned. */
  function Staying(s: map<Request, Info>, l: seq<Request>, account: Option<Account>, ui: Option<Handle>): seq<Request> {
    if l == [] then []
    else
      var r := l[|l| - 1];
      var concerned := r in s
            && ((account.Some? && s[r].account == account.value) || (account.None? && ui.Some? && s[r].ui == ui));
      Staying(s, l[..|l| - 1], account, ui) + if concerned then [] else [r]
  }

  /** Request `r` comes before request `q` in the list. */
  ghost predicate Earlier(l: seq<Request>, r: Request, q: Request) {
    exists i, j :: 0 <= i < j < |l| && l[i] == r && l[j] == q
  }

  /** The requests in `h` come in the order they have in `l`. */
  ghost predicate InTurn(h: seq<Request>, l: seq<Request>) {
    forall i, j :: 0 <= i < j < |h| ==> Earlier(l, h[i], h[j])
  }

  /** Request `r` is on the account, if one is given, or else has the handle. */
  predicate IsMeant(s: map<Request, Info>, r: Request, account: Option<Account>, ui: Option<Handle>) {
    r in s && if account.Some? then s[r].account == account.value else ui.Some? && s[r].ui == ui
  }

  /** All that has happened since is that requests were closed. */
  ghost predicate OnlyClosed(was: seq<Event>, log: seq<Event>) {
    |log| >= |was| && log[..|was|] == was && forall i :: |was| <= i < |log| ==> log[i].Closed?
  }

  lemma NothingClosed(log: seq<Event>)
    ensures OnlyClosed(log, log)
  {
  }

  lemma OneClosed(was: seq<Event>, log: seq<Event>, r: Request)
    requires OnlyClosed(was, log)
    ensures OnlyClosed(was, log + [Closed(r)])
  {
    assert (log + [Closed(r)])[..|was|] == log[..|was|];
  }

  lemma {:induction false} StayingAre(s: map<Request, Info>, l: seq<Request>, account: Option<Account>,
                                      ui: Option<Handle>)
    ensures forall r :: r in Staying(s, l, account, ui) <==> r in l && !IsMeant(s, r, account, ui)
    ensures InTurn(Staying(s, l, account, ui), l)
  {
    if l != [] {
      var n, h := |l| - 1, Staying(s, l, account, ui);
      var p := Staying(s, l[..n], account, ui);
      StayingAre(s, l[..n], account, ui);
      assert l == l[..n] + [l[n]];
      forall i, j | 0 <= i < j < |h|
        ensures Earlier(l, h[i], h[j])
      {
        assert h[i] == p[i] && p[i] in l[..n];
        var k :| 0 <= k < n && l[..n][k] == p[i];
        if j < |p| {
          assert Earlier(l[..n], p[i], p[j]);
          var x, y :| 0 <= x < y < n && l[..n][x] == p[i] && l[..n][y] == p[j];
          assert l[x] == h[i] && l[y] == h[j];
        } else {
          assert l[k] == h[i] && l[n] == h[j];
        }
      }
    }
  }

  /**
   After the first `i` pending requests have been looked at: those concerned are gone from the list and from memory.
  */
  ghost predicate Walked(s: map<Request, Info>, l: seq<Request>, i: nat, account: Option<Account>, ui: Option<Handle>,
                         handles: seq<Request>, store: map<Request, Info>) {
    && i <= |l| && handles == Staying(s, l[..i], account, ui) + l[i..]
    && forall r :: r in store ==> r in s && store[r] == s[r]
  }

  lemma WalkedStart(s: map<Request, Info>, l: seq<Request>, account: Option<Account>, ui: Option<Handle>)
    ensures Walked(s, l, 0, account, ui, l, s)
  {
  }

  lemma WalkedEnd(s: map<Request, Info>, l: seq<Request>, account: Option<Account>, ui: Option<Handle>,
                  handles: seq<Request>, store: map<Request, Info>)
    requires Walked(s, l, |l|, account, ui, handles, store)
    ensures handles == Staying(s, l, account, ui) && forall r :: r in store ==> r in s && store[r] == s[r]
  {
    assert l[..|l|] == l && l[|l|..] == [];
  }

  lemma WalkedNext(s: map<Request, Info>, l: seq<Request>, i: nat, account: Option<Account>, ui: Option<Handle>,
                   handles: seq<Request>, store: map<Request, Info>)
    requires Walked(s, l, i, account, ui, handles, store) && i < |l| && NoDup(handles)
    requires forall r :: r in handles ==> r in store
    ensures var r := l[i];
            && r in handles && r in store && r in s
            && (if (account.Some? && store[r].account == account.value)
                || (account.None? && ui.Some? && store[r].ui == ui)
                then Walked(s, l, i + 1, account, ui, Without(handles, r), store - {r})
                else Walked(s, l, i + 1, account, ui, handles, store))
  {
    hide Staying, Without;
    StayingNext(s, l, i, account, ui);
    assert handles[|Staying(s, l[..i], account, ui)|] == l[i];
  }

  /** The next link of a request in the list. */
  function Behind(l: seq<Request>, r: Request): Option<Request>
    requires r in l
  {
    if l[0] == r then First(l[1..]) else Behind(l[1..], r)
  }

  lemma {:induction false} BehindIs(p: seq<Request>, r: Request, q: seq<Request>)
    requires r !in p
    ensures Behind(p + [r] + q, r) == First(q)
  {
    var l := p + [r] + q;
    if p == [] {
      assert l[1..] == q;
    } else {
      assert l[1..] == p[1..] + [r] + q;
      BehindIs(p[1..], r, q);
    }
  }

  /** The next link leads to the next of the requests that were pending in the beginning. */
  lemma WalkedBehind(s: map<Request, Info>, l: seq<Request>, i: nat, account: Option<Account>, ui: Option<Handle>,
                     handles: seq<Request>, store: map<Request, Info>)
    requires Walked(s, l, i, account, ui, handles, store) && i < |l| && NoDup(handles)
    ensures l[i] in handles && Behind(handles, l[i]) == First(l[i + 1..])
  {
    hide Staying, Behind;
    var p := Staying(s, l[..i], account, ui);
    assert l[i..] == [l[i]] + l[i + 1..];
    assert handles == p + [l[i]] + l[i + 1..];
    assert forall k :: 0 <= k < |p| ==> handles[k] == p[k] && handles[|p|] == l[i];
    BehindIs(p, l[i], l[i + 1..]);
  }

  lemma StayingNext(s: map<Request, Info>, l: seq<Request>, i: nat, account: Option<Account>, ui: Option<Handle>)
    requires i < |l|
    ensures var p, r, q := Staying(s, l[..i], account, ui), l[i], l[i + 1..];
            var concerned := r in s
                  && ((account.Some? && s[r].account == account.value) || (account.None? && ui.Some? && s[r].ui == ui));
            && (p + l[i..])[|p|] == r
            && Staying(s, l[..i + 1], account, ui) == p + (if concerned then [] else [r])
            && (!concerned ==> Staying(s, l[..i + 1], account, ui) + q == p + l[i..])
            && (concerned && NoDup(p + l[i..]) ==> Staying(s, l[..i + 1], account, ui) + q == Without(p + l[i..], r))
  {
    hide Without;
    var p, r, q := Staying(s, l[..i], account, ui), l[i], l[i + 1..];
    assert l[..i + 1][..i] == l[..i] && l[i..] == [r] + q;
    assert p + l[i..] == p + [r] + q && p + [] == p;
    var t := p + l[i..];
    if NoDup(t) {
      WithoutAt(t, |p|);
      assert t[..|p|] == p && t[|p| + 1..] == q;
    }
  }
}
