/**
 The priority buddy of a contact: what is specified, what the fold computes, and what may change without recomputing.
*/
module BlistPriority {
  import opened BlistSeq
  import opened Options
  import opened BlistModel

  /** There is only one specified priority buddy. */
  lemma BestIsUnique(env: Env, info: map<Node, Info>, connected: set<Account>, s: seq<Node>, p: Ptr, p': Ptr)
    requires TotalPreorder(env) && IsBest(env, info, connected, s, p) && IsBest(env, info, connected, s, p')
    ensures p == p'
  {
    if s != [] {
      var i :| 0 <= i < |s| && s[i] == p.value && BestAt(env, info, connected, s, i);
      var j :| 0 <= j < |s| && s[j] == p'.value && BestAt(env, info, connected, s, j);
      if IsConnected(info, connected, s[i]) && IsConnected(info, connected, s[j]) {
        assert Preferred(env, info, connected, s, i, j) && Preferred(env, info, connected, s, j, i);
      } else {
        assert i == j;
      }
    }
  }

  /** Taking a buddy that is not the priority out of a contact leaves the priority what it is. */
  lemma BestWithout(env: Env, info: map<Node, Info>, connected: set<Account>, s: seq<Node>, b: Node, p: Ptr)
    requires NoDup(s) && b in s && p != Some(b) && IsBest(env, info, connected, s, p)
    ensures IsBest(env, info, connected, Without(s, b), p)
  {
    hide Without, BestAt, Preferred;
    var i :| 0 <= i < |s| && s[i] == p.value && BestAt(env, info, connected, s, i);
    var k :| 0 <= k < |s| && s[k] == b;
    WithoutAt(s, k);
    WithoutKeeps(s, b);
    BestCut(env, info, connected, s, i, k);
    var t, i' := s[..k] + s[k + 1..], if i < k then i else i - 1;
    assert t[i'] == s[i] && BestAt(env, info, connected, t, i');
  }

  lemma BestCut(env: Env, info: map<Node, Info>, connected: set<Account>, s: seq<Node>, i: nat, k: nat)
    requires i < |s| && k < |s| && i != k
    requires forall n :: n in s ==> n in info && info[n].Buddy?
    requires BestAt(env, info, connected, s, i)
    ensures forall n :: n in s[..k] + s[k + 1..] ==> n in info && info[n].Buddy?
    ensures BestAt(env, info, connected, s[..k] + s[k + 1..], if i < k then i else i - 1)
  {
    var t, i' := s[..k] + s[k + 1..], if i < k then i else i - 1;
    assert t[i'] == s[i];
    if IsConnected(info, connected, s[i]) {
      forall j' | 0 <= j' < |t| ensures Preferred(env, info, connected, t, i', j') {
        var j := if j' < k then j' else j' + 1;
        assert t[j'] == s[j] && Preferred(env, info, connected, s, i, j);
      }
    } else {
      forall j' | 0 <= j' < |t| ensures !IsConnected(info, connected, t[j']) {
        var j := if j' < k then j' else j' + 1;
        assert t[j'] == s[j];
      }
    }
  }

  /** The specification reads only the contact's own buddies. */
  lemma BestSame(env: Env, info: map<Node, Info>, info': map<Node, Info>, connected: set<Account>,
                 connected': set<Account>, s: seq<Node>, p: Ptr)
    requires IsBest(env, info, connected, s, p)
    requires forall n :: n in s ==> n in info && n in info' && info'[n] == info[n]
    requires forall n :: n in s && n in info && info[n].Buddy? ==>
               (info[n].account in connected <==> info[n].account in connected')
    ensures IsBest(env, info', connected', s, p)
  {
    if s != [] {
      var i :| 0 <= i < |s| && s[i] == p.value && BestAt(env, info, connected, s, i);
      forall j | 0 <= j < |s|
        ensures IsConnected(info, connected, s[j]) <==> IsConnected(info', connected', s[j])
        ensures Preferred(env, info, connected, s, i, j) <==> Preferred(env, info', connected', s, i, j)
      {
      }
      assert BestAt(env, info', connected', s, i);
    }
  }

  /** The buddy the fold holds after the first k: the specified one of those. */
  lemma BestNext(env: Env, info: map<Node, Info>, connected: set<Account>, s: seq<Node>, i: nat)
    requires TotalPreorder(env) && s != [] && i < |s| - 1
    requires forall n :: n in s ==> n in info && info[n].Buddy?
    requires BestAt(env, info, connected, s[..|s| - 1], i)
    ensures var b := s[|s| - 1];
            BestAt(env, info, connected, s, if Replaces(env, info, connected, s[i], b) then |s| - 1 else i)
  {
    var t, k := s[..|s| - 1], |s| - 1;
    var b := s[k];
    if Replaces(env, info, connected, s[i], b) {
      forall j | 0 <= j < |s| ensures Preferred(env, info, connected, s, k, j) {
        if j < k {
          if IsConnected(info, connected, s[i]) {
            assert Preferred(env, info, connected, t, i, j);
          } else {
            assert !IsConnected(info, connected, t[j]);
          }
        } else {
          assert env.compare(info[b].presence, info[b].presence) <= 0;
        }
      }
    } else if IsConnected(info, connected, s[i]) {
      forall j | 0 <= j < |s| ensures Preferred(env, info, connected, s, i, j) {
        if j < k {
          assert Preferred(env, info, connected, t, i, j);
        }
      }
    } else {
      forall j | 0 <= j < |s| ensures !IsConnected(info, connected, s[j]) {
        if j < k {
          assert !IsConnected(info, connected, t[j]);
        }
      }
    }
  }

  /** The test of the fold: `b` takes over from `current`. */
  predicate Replaces(env: Env, info: map<Node, Info>, connected: set<Account>, current: Node, b: Node)
    requires current in info && info[current].Buddy? && b in info && info[b].Buddy?
  {
    && IsConnected(info, connected, b)
    && (IsConnected(info, connected, current) ==>
          var d := env.compare(info[current].presence, info[b].presence);
          d > 0 || (d == 0 && env.lastMatch))
  }
}
