/**
 The order of the accounts: purple_accounts_reorder of libpurple/account.c, and the keys of
 finch/gntaccount.c that move an account up and down the list.
*/
module AccountList {

  type Account = nat

  ghost predicate Distinct(l: seq<Account>) {
    forall i, j :: 0 <= i < j < |l| ==> l[i] != l[j]
  }

  /** g_list_index: -1 if it is not there. */
  function Index(l: seq<Account>, a: Account): (i: int)
    ensures -1 <= i < |l| && (i >= 0 ==> l[i] == a) && (i == -1 <==> a !in l)
  {
    if l == [] then -1
    else if l[0] == a then 0
    else if Index(l[1..], a) == -1 then -1 else Index(l[1..], a) + 1
  }

  /** The others, in order. */
  function Others(l: seq<Account>, a: Account): seq<Account> {
    if l == [] then [] else (if l[0] == a then [] else [l[0]]) + Others(l[1..], a)
  }

  /** `rest` with `a` so that `i` of them stand before it. */
  function Placed(rest: seq<Account>, a: Account, i: nat): seq<Account>
    requires i <= |rest|
  {
    rest[..i] + [a] + rest[i..]
  }

  lemma {:induction false} OthersBoth(l: seq<Account>, r: seq<Account>, a: Account)
    ensures Others(l + r, a) == Others(l, a) + Others(r, a)
  {
    if l == [] {
      assert l + r == r;
    } else {
      assert (l + r)[1..] == l[1..] + r;
      OthersBoth(l[1..], r, a);
    }
  }

  lemma {:induction false} OthersNone(l: seq<Account>, a: Account)
    requires a !in l
    ensures Others(l, a) == l
  {
    if l != [] {
      OthersNone(l[1..], a);
    }
  }

  /** The place of an element that does not occur before it, and what is around it. */
  lemma {:induction false} IndexBehind(p: seq<Account>, a: Account, q: seq<Account>)
    requires a !in p
    ensures Index(p + [a] + q, a) == |p|
  {
    if p != [] {
      IndexBehind(p[1..], a, q);
      assert (p + [a] + q)[1..] == p[1..] + [a] + q;
    }
  }

  lemma OthersAround(p: seq<Account>, a: Account, q: seq<Account>)
    requires a !in p && a !in q
    ensures Others(p + [a] + q, a) == p + q
  {
    hide Others;
    OthersBoth(p + [a], q, a);
    OthersBoth(p, [a], a);
    OthersNone(p, a);
    OthersNone(q, a);
    OthersOne(a);
  }

  lemma OthersOne(a: Account)
    ensures Others([a], a) == [] && forall p: seq<Account> {:trigger p + []} :: p + [] == p
  {
  }

  /** A list without repetitions is one of its elements placed among the others. */
  lemma Splits(l: seq<Account>, a: Account)
    requires Distinct(l) && a in l
    ensures var i := Index(l, a);
            && Others(l, a) == l[..i] + l[i + 1..] && |Others(l, a)| == |l| - 1 && l == Placed(Others(l, a), a, i)
            && a !in Others(l, a) && Distinct(Others(l, a))
  {
    hide Others;
    var i := Index(l, a);
    hide Index;
    var p, q := l[..i], l[i + 1..];
    assert l == p + [a] + q;
    assert a !in p && a !in q;
    OthersAround(p, a, q);
    assert (p + q)[..i] == p && (p + q)[i..] == q;
  }

  /** Taking it out of its place gives the others and the place. */
  lemma PlacedBack(rest: seq<Account>, a: Account, i: nat)
    requires Distinct(rest) && a !in rest && i <= |rest|
    ensures var l := Placed(rest, a, i); Distinct(l) && a in l && Index(l, a) == i && Others(l, a) == rest
  {
    hide Others, Index;
    var p, q := rest[..i], rest[i..];
    assert rest == p + q;
    IndexBehind(p, a, q);
    OthersAround(p, a, q);
    var l := Placed(rest, a, i);
    assert l[i] == a;
    forall j, k | 0 <= j < k < |l| ensures l[j] != l[k] {
      PlacedAt(rest, a, i, j);
      PlacedAt(rest, a, i, k);
    }
  }

  lemma PlacedAt(rest: seq<Account>, a: Account, i: nat, j: nat)
    requires i <= |rest| && j <= |rest|
    ensures Placed(rest, a, i)[j] == if j < i then rest[j] else if j == i then a else rest[j - 1]
  {
  }

  /** What is behind it when it has been put among the others. */
  lemma PlacedBefore(l: seq<Account>, a: Account, index: nat)
    requires index < |l| && l[index] == a
    ensures forall k :: 0 <= k < |l| && k != index ==>
              var t := Target(index, k);
              var r := Placed(l[..index] + l[index + 1..], a, t); t + 1 < |r| && r[t + 1] == l[k]
    ensures var r := Placed(l[..index] + l[index + 1..], a, Target(index, |l|)); r[|r| - 1] == a
  {
  }

  /** What comes of an account that is taken out and put before the one that was at `newIndex`. */
  lemma Reordered(l: seq<Account>, a: Account, newIndex: nat)
    requires Distinct(l) && a in l && newIndex <= |l|
    ensures var index := Index(l, a);
            var t, rest := Target(index, newIndex), l[..index] + l[index + 1..];
            && t <= |rest|
            && var r := Placed(rest, a, t);
               && Distinct(r) && |r| == |l| && a in r && Others(r, a) == Others(l, a) && t < |r| && Index(r, a) == t
               && (newIndex < |l| && l[newIndex] != a ==> t + 1 < |r| && r[t + 1] == l[newIndex])
               && (newIndex == |l| ==> r[|r| - 1] == a)
  {
    var index := Index(l, a);
    hide Others, Distinct, Index, Placed;
    Splits(l, a);
    PlacedBack(l[..index] + l[index + 1..], a, Target(index, newIndex));
    PlacedBefore(l, a, index);
    PlacedSize(l[..index] + l[index + 1..], a, Target(index, newIndex));
  }

  lemma PlacedIs(rest: seq<Account>, a: Account, i: nat)
    requires i <= |rest|
    ensures Placed(rest, a, i) == rest[..i] + [a] + rest[i..]
  {
  }

  lemma PlacedSize(rest: seq<Account>, a: Account, i: nat)
    requires i <= |rest|
    ensures |Placed(rest, a, i)| == |rest| + 1
  {
  }

  // -------------------------------------------------------------- reordering

  /** Where the account ends up if it is to go before the one that is at `new_index` now. */
  function Target(index: nat, newIndex: nat): nat {
    if newIndex > index then newIndex - 1 else newIndex
  }

  /** One place up and down a list of `n`, around its ends. */
  function Up(i: nat, n: nat): nat
    requires i < n
  {
    if i == 0 then n - 1 else i - 1
  }

  function Down(i: nat, n: nat): nat
    requires i < n
  {
    if i + 1 == n then 0 else i + 1
  }

  class Accounts {
    var accounts: seq<Account>

    /**
     purple_accounts_reorder: the account goes before the one now at `newIndex`, or to the end, and all others stay in
     order. An account that is not registered changes nothing.
    */
    method Reorder(a: Account, newIndex: int)
      requires Distinct(accounts)
      modifies this
      ensures Distinct(accounts)
      ensures !(0 <= newIndex <= |old(accounts)|) || a !in old(accounts) ==> accounts == old(accounts)
      ensures 0 <= newIndex <= |old(accounts)| && a in old(accounts) ==>
                var t := Target(Index(old(accounts), a), newIndex);
                && |accounts| == |old(accounts)| && a in accounts && Others(accounts, a) == Others(old(accounts), a)
                && t < |accounts| && Index(accounts, a) == t
      ensures 0 <= newIndex < |old(accounts)| && a in old(accounts) && old(accounts)[newIndex] != a ==>
                var i := Index(accounts, a); 0 <= i < |accounts| - 1 && accounts[i + 1] == old(accounts)[newIndex]
      ensures newIndex == |old(accounts)| && a in old(accounts) ==> accounts[|accounts| - 1] == a
    {
      hide Others, Distinct, Placed;
      if newIndex < 0 || newIndex > |accounts| {
        return;
      }
      var index := Index(accounts, a);
      if index == -1 {
        return;
      }
      Reordered(accounts, a, newIndex);
      var newIndex := newIndex;
      if newIndex > index {
        newIndex := newIndex - 1;
      }
      accounts := accounts[..index] + accounts[index + 1..];
      PlacedIs(accounts, a, newIndex);
      accounts := accounts[..newIndex] + [a] + accounts[newIndex..];
    }

    /**
     account_list_key_pressed_cb: `-` moves the account one place up, `=` one place down, both around the ends. One that
     is not registered any more stays where it is.
    */
    method KeyPressed(a: Account, key: char) returns (done: bool)
      requires Distinct(accounts)
      modifies this
      ensures Distinct(accounts) && (a in accounts <==> a in old(accounts)) && |accounts| == |old(accounts)|
      ensures done <==> key == '-' || key == '='
      ensures !done || a !in old(accounts) ==> accounts == old(accounts)
      ensures Others(accounts, a) == Others(old(accounts), a)
      ensures key == '-' && a in old(accounts) ==> Index(accounts, a) == Up(Index(old(accounts), a), |accounts|)
      ensures key == '=' && a in old(accounts) ==> Index(accounts, a) == Down(Index(old(accounts), a), |accounts|)
    {
      var move: int;
      if key == '-' {
        move := -1;
      } else if key == '=' {
        move := 2;
      } else {
        return false;
      }
      var count := |accounts|;
      var pos := Index(accounts, a);
      if pos != -1 {
        Around(pos, count);
      }
      pos := (move + pos + count + 1) % (count + 1);
      Reorder(a, pos);
      done := true;
    }

    /** One key undoes the other. */
    method UpAndDown(a: Account, up: bool)
      requires Distinct(accounts) && a in accounts
      modifies this
      ensures accounts == old(accounts)
    {
      ghost var i := Index(accounts, a);
      Splits(accounts, a);
      var _ := KeyPressed(a, if up then '-' else '=');
      var _ := KeyPressed(a, if up then '=' else '-');
      Splits(accounts, a);
    }

    /** Going down as many places as there are accounts comes back to where it was. */
    method AllTheWayDown(a: Account)
      requires Distinct(accounts) && a in accounts
      modifies this
      ensures accounts == old(accounts)
    {
      var n := |accounts|;
      ghost var start := Index(accounts, a);
      Splits(accounts, a);
      for i := 0 to n
        invariant Distinct(accounts) && a in accounts && |accounts| == n
        invariant Others(accounts, a) == Others(old(accounts), a)
        invariant Index(accounts, a) == if start + i < n then start + i else start + i - n
      {
        var _ := KeyPressed(a, '=');
      }
      Splits(accounts, a);
    }
  }

  /** What the keys' arithmetic comes to, with the list's length plus one as modulus and the removed element behind. */
  lemma Around(pos: nat, count: nat)
    requires pos < count
    ensures var up := (-1 + pos + count + 1) % (count + 1); 0 <= up <= count && Target(pos, up) == Up(pos, count)
    ensures var down := (2 + pos + count + 1) % (count + 1); 0 <= down <= count && Target(pos, down) == Down(pos, count)
  {
    var n := count + 1;
    if pos == 0 {
      Residue(n - 1, n, 0, n - 1);
    } else {
      Residue(pos - 1 + n, n, 1, pos - 1);
    }
    if pos + 2 < n {
      Residue(pos + 2 + n, n, 1, pos + 2);
    } else {
      Residue(pos + 2 + n, n, 2, 0);
    }
  }

  lemma Residue(x: nat, n: nat, q: nat, r: nat)
    requires n > 0 && r < n && x == q * n + r
    ensures x % n == r
  {
    var k := x / n - q;
    assert x == (x / n) * n + x % n;
    assert k * n == r - x % n;
    assert k >= 1 ==> k * n >= n;
    assert k <= -1 ==> k * n + n <= 0;
  }
}
