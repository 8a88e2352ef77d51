/** Sibling lists as sequences of node ids, and counting along them. */
module BlistSeq {
  import opened Options

  type Node = nat

  type Ptr = Option<Node>

  /** g_hash_table_remove and g_free on a store: the map without one key. */
  function Less<K, V>(m: map<K, V>, k: K): map<K, V> {
    m - {k}
  }

  lemma LessGone<K, V>(m: map<K, V>, k: K)
    ensures k !in Less(m, k)
  {
  }

  lemma LessAt<K, V>(m: map<K, V>, k: K, j: K)
    requires j != k
    ensures j in Less(m, k) <==> j in m
    ensures j in m ==> Less(m, k)[j] == m[j]
  {
  }

  ghost predicate NoDup(s: seq<Node>) {
    forall i, j :: 0 <= i < j < |s| ==> s[i] != s[j]
  }

  /** `s` without its first `n`. */
  function Without(s: seq<Node>, n: Node): seq<Node> {
    if s == [] then [] else if s[0] == n then s[1..] else [s[0]] + Without(s[1..], n)
  }

  /** `s` with `n` right behind `a`, or in front if there is no `a`. */
  function InsertAfter(s: seq<Node>, a: Ptr, n: Node): seq<Node> {
    if a == None then [n] + s
    else if s == [] then [n]
    else if s[0] == a.value then [s[0], n] + s[1..]
    else [s[0]] + InsertAfter(s[1..], a, n)
  }

  function First(s: seq<Node>): Ptr {
    if s == [] then None else Some(s[0])
  }

  function Last(s: seq<Node>): Ptr {
    if s == [] then None else Some(s[|s| - 1])
  }

  function Before(s: seq<Node>, i: nat): Ptr
    requires i <= |s|
  {
    if i == 0 then None else Some(s[i - 1])
  }

  function After(s: seq<Node>, i: int): Ptr
    requires -1 <= i < |s|
  {
    if i + 1 == |s| then None else Some(s[i + 1])
  }

  lemma {:induction false} WithoutAt(s: seq<Node>, i: nat)
    requires NoDup(s) && i < |s|
    ensures Without(s, s[i]) == s[..i] + s[i + 1..]
  {
    if i > 0 {
      assert s[0] != s[i] && s[1..][i - 1] == s[i];
      WithoutAt(s[1..], i - 1);
      assert [s[0]] + (s[1..][..i - 1] + s[1..][i..]) == s[..i] + s[i + 1..];
    }
  }

  lemma {:induction false} WithoutAbsent(s: seq<Node>, n: Node)
    requires n !in s
    ensures Without(s, n) == s
  {
    if s != [] {
      WithoutAbsent(s[1..], n);
    }
  }

  /** Membership, length and distinctness after a removal. */
  lemma {:induction false} WithoutKeeps(s: seq<Node>, n: Node)
    requires NoDup(s)
    ensures NoDup(Without(s, n)) && n !in Without(s, n)
    ensures forall m :: m in Without(s, n) <==> m in s && m != n
    ensures |Without(s, n)| == |s| - (if n in s then 1 else 0)
  {
    if n in s {
      var i :| 0 <= i < |s| && s[i] == n;
      WithoutAt(s, i);
    } else {
      WithoutAbsent(s, n);
    }
  }

  lemma {:induction false} InsertAt(s: seq<Node>, i: int, n: Node)
    requires NoDup(s) && -1 <= i < |s|
    ensures InsertAfter(s, Before(s, i + 1), n) == s[..i + 1] + [n] + s[i + 1..]
  {
    if i == -1 {
      assert [n] + s == s[..0] + [n] + s[0..];
    } else if i == 0 {
      assert s[0] == Before(s, 1).value;
      assert [s[0], n] + s[1..] == s[..1] + [n] + s[1..];
    } else {
      assert s[0] != s[i] && Before(s, i + 1) == Some(s[i]) == Before(s[1..], i);
      InsertAt(s[1..], i - 1, n);
      assert [s[0]] + (s[1..][..i] + [n] + s[1..][i..]) == s[..i + 1] + [n] + s[i + 1..];
    }
  }

  lemma InsertKeeps(s: seq<Node>, a: Ptr, n: Node)
    requires NoDup(s) && n !in s && (a.Some? ==> a.value in s)
    ensures NoDup(InsertAfter(s, a, n))
    ensures forall m :: m in InsertAfter(s, a, n) <==> m in s || m == n
    ensures |InsertAfter(s, a, n)| == |s| + 1
  {
    var i :| -1 <= i < |s| && Before(s, i + 1) == a by {
      if a.Some? {
        var i :| 0 <= i < |s| && s[i] == a.value;
        assert Before(s, i + 1) == a;
      } else {
        assert Before(s, 0) == a;
      }
    }
    InsertAt(s, i, n);
  }

  /** Inserting behind the last one is appending. */
  lemma InsertLast(s: seq<Node>, n: Node)
    requires NoDup(s)
    ensures InsertAfter(s, Last(s), n) == s + [n]
  {
    InsertAt(s, |s| - 1, n);
  }

  // ------------------------------------------------------------ counting

  /** How many elements of `s` lie in `f`. */
  function Count(s: seq<Node>, f: set<Node>): nat {
    if s == [] then 0 else (if s[0] in f then 1 else 0) + Count(s[1..], f)
  }

  lemma {:induction false} CountWithout(s: seq<Node>, n: Node, f: set<Node>)
    requires n in s
    ensures Count(Without(s, n), f) == Count(s, f) - (if n in f then 1 else 0)
  {
    if s[0] != n {
      CountWithout(s[1..], n, f);
      assert Without(s, n)[1..] == Without(s[1..], n);
    }
  }

  lemma {:induction false} CountInsert(s: seq<Node>, a: Ptr, n: Node, f: set<Node>)
    ensures Count(InsertAfter(s, a, n), f) == Count(s, f) + (if n in f then 1 else 0)
  {
    var r := InsertAfter(s, a, n);
    if a == None {
      assert r[1..] == s;
    } else if s == [] {
    } else if s[0] == a.value {
      assert r[1..] == [n] + s[1..] && r[1..][1..] == s[1..];
    } else {
      CountInsert(s[1..], a, n, f);
      assert r[1..] == InsertAfter(s[1..], a, n);
    }
  }

  /** Only membership along the sequence matters. */
  lemma {:induction false} CountSame(s: seq<Node>, f: set<Node>, f': set<Node>)
    requires forall n :: n in s ==> (n in f <==> n in f')
    ensures Count(s, f) == Count(s, f')
  {
    if s != [] {
      CountSame(s[1..], f, f');
    }
  }

  /** One more node in the counted set counts once if it stands in the sequence. */
  lemma {:induction false} CountGrows(s: seq<Node>, f: set<Node>, n: Node)
    requires NoDup(s) && n !in f
    ensures Count(s, f + {n}) == Count(s, f) + (if n in s then 1 else 0)
  {
    if s != [] {
      if s[0] == n {
        assert n !in s[1..];
        CountSame(s[1..], f, f + {n});
      } else {
        CountGrows(s[1..], f, n);
      }
    }
  }

  lemma {:induction false} CountZero(s: seq<Node>, f: set<Node>)
    ensures Count(s, f) <= |s|
    ensures Count(s, f) == 0 <==> forall n :: n in s ==> n !in f
  {
    if s != [] {
      CountZero(s[1..], f);
      assert forall n :: n in s <==> n == s[0] || n in s[1..];
    }
  }
}
