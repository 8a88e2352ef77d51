/**
 finch/gntaccount.c: a username cut into the pieces a protocol asks for (update_user_splits), and put
 together again (save_account_cb).
*/
module UserSplits {
  import opened Options

  /** What an entry of the dialog is set to, if it is. */
  type Entry = Option<string>

  /** A piece behind the name proper: its separator, its default, and from which end the separator is looked for. */
  datatype UserSplit = UserSplit(sep: char, fallback: Option<string>, reverse: bool)

  /** strchr: the first place of `c`, or the length. */
  function First(s: string, c: char): (i: nat)
    ensures i <= |s| && c !in s[..i] && (i < |s| ==> s[i] == c)
  {
    if s == [] || s[0] == c then 0
    else
      var i := First(s[1..], c);
      assert s[..i + 1] == [s[0]] + s[1..][..i];
      i + 1
  }

  /** strrchr: the last place of `c`, or the length. */
  function Last(s: string, c: char): (i: nat)
    ensures i <= |s| && (i < |s| ==> s[i] == c && c !in s[i + 1..]) && (i == |s| <==> c !in s)
  {
    if s == [] then 0
    else if s[|s| - 1] == c then |s| - 1
    else
      var i := Last(s[..|s| - 1], c);
      assert s == s[..|s| - 1] + [s[|s| - 1]];
      if i == |s| - 1 then |s| else assert s[i + 1..] == s[..|s| - 1][i + 1..] + [s[|s| - 1]]; i
  }

  function Cut(s: string, split: UserSplit): (i: nat)
    ensures i <= |s| && (i < |s| ==> s[i] == split.sep) && (i == |s| <==> split.sep !in s)
  {
    if split.reverse then Last(s, split.sep)
    else assert First(s, split.sep) == |s| ==> s[..|s|] == s; First(s, split.sep)
  }

  /** The name proper and the text of every entry, the splits being taken from the last to the first. */
  function Pieces(s: string, splits: seq<UserSplit>): (string, seq<Entry>)
    decreases |splits|
  {
    if splits == [] then (s, [])
    else
      var n := |splits| - 1;
      var i := Cut(s, splits[n]);
      if i < |s| then var p := Pieces(s[..i], splits[..n]); (p.0, p.1 + [Some(s[i + 1..])])
      else var p := Pieces(s, splits[..n]); (p.0, p.1 + [splits[n].fallback])
  }

  lemma {:induction false} PiecesCount(s: string, splits: seq<UserSplit>)
    ensures |Pieces(s, splits).1| == |splits|
    decreases |splits|
  {
    if splits != [] {
      var n := |splits| - 1;
      var i := Cut(s, splits[n]);
      PiecesCount(if i < |s| then s[..i] else s, splits[..n]);
    }
  }

  /** What printf makes of a string that may be NULL. */
  function Text(s: Option<string>): string {
    if s.Some? then s.value else "(null)"
  }

  /** What is put behind the separator for an entry: its text, or the default if it is empty. */
  function Piece(value: string, split: UserSplit): string {
    if value == "" then Text(split.fallback) else value
  }

  function Joined(s: string, splits: seq<UserSplit>, values: seq<string>): string
    requires |values| == |splits|
  {
    if splits == [] then s
    else var n := |splits| - 1; Joined(s, splits[..n], values[..n]) + [splits[n].sep] + Piece(values[n], splits[n])
  }

  /** An entry shows nothing for a default that is NULL. */
  function Shown(values: seq<Entry>): seq<string> {
    seq(|values|, i requires 0 <= i < |values| => if values[i].Some? then values[i].value else "")
  }

  // ------------------------------------------------------- cut, then joined

  /** Every separator is found, and no piece is empty unless its default is. */
  predicate Cuttable(s: string, splits: seq<UserSplit>)
    decreases |splits|
  {
    splits == [] ||
    var n := |splits| - 1;
    var i := Cut(s, splits[n]);
    && i < |s|
    && (i + 1 < |s| || splits[n].fallback == Some(""))
    && Cuttable(s[..i], splits[..n])
  }

  /** The last split first: what is behind its separator, and the pieces of what is before. */
  lemma PiecesAt(s: string, splits: seq<UserSplit>, i: nat)
    requires splits != [] && i == Cut(s, splits[|splits| - 1]) && i < |s|
    ensures var n, p, q := |splits| - 1, Pieces(s[..i], splits[..|splits| - 1]), Pieces(s, splits);
            && q.0 == p.0 && q.1 == p.1 + [Some(s[i + 1..])] && |p.1| == n
  {
    PiecesCount(s[..i], splits[..|splits| - 1]);
  }

  /** The name that the pieces of `s` are put together to. */
  function Rejoined(s: string, splits: seq<UserSplit>): string {
    PiecesCount(s, splits);
    Joined(Pieces(s, splits).0, splits, Shown(Pieces(s, splits).1))
  }

  /** One split more: what is before its separator put together, the separator, and what the entry stands for. */
  lemma RejoinedAt(s: string, splits: seq<UserSplit>)
    requires splits != []
    ensures var n := |splits| - 1;
            var i := Cut(s, splits[n]);
            var p, v := (if i < |s| then s[..i] else s), (if i < |s| then s[i + 1..] else Text(splits[n].fallback));
            Rejoined(s, splits) == Rejoined(p, splits[..n]) + [splits[n].sep] + Piece(v, splits[n])
  {
    hide Cut;
    var n := |splits| - 1;
    var i := Cut(s, splits[n]);
    var q := Pieces(s, splits);
    PiecesCount(s, splits);
    if i < |s| {
      PiecesAt(s, splits, i);
      assert Shown(q.1)[..n] == Shown(Pieces(s[..i], splits[..n]).1);
    } else {
      PiecesCount(s, splits[..n]);
      assert Shown(q.1)[..n] == Shown(Pieces(s, splits[..n]).1);
    }
  }

  /**
   Putting the pieces of a name together never loses a character, and gives the name back exactly if it is cuttable.
  */
  lemma {:induction false} CutThenJoined(s: string, splits: seq<UserSplit>)
    ensures |Rejoined(s, splits)| >= |s|
    ensures Rejoined(s, splits) == s <==> Cuttable(s, splits)
    decreases |splits|
  {
    hide Cut, Pieces, Joined, Rejoined, Shown;
    if splits == [] {
      NoSplits(s);
    } else {
      var n := |splits| - 1;
      var i := Cut(s, splits[n]);
      RejoinedAt(s, splits);
      CutThenJoined(if i < |s| then s[..i] else s, splits[..n]);
      if i < |s| {
        var p, v := Rejoined(s[..i], splits[..n]), s[i + 1..];
        assert s == s[..i] + [splits[n].sep] + v;
        SameCut(p, splits[n].sep, Piece(v, splits[n]), s[..i], v);
      }
    }
  }

  lemma NoSplits(s: string)
    ensures Rejoined(s, []) == s
  {
  }

  /** Two ways to write a string around a separator, when neither part of the first is the shorter one. */
  lemma SameCut(p: string, c: char, v: string, p': string, v': string)
    requires |p| >= |p'| && |v| >= |v'|
    ensures p + [c] + v == p' + [c] + v' <==> p == p' && v == v'
  {
    if p + [c] + v == p' + [c] + v' {
      var w, w' := p + [c] + v, p' + [c] + v';
      assert |p| == |p'|;
      assert w[..|p|] == p && w'[..|p|] == p' && w[|p| + 1..] == v && w'[|p| + 1..] == v';
    }
  }

  // ------------------------------------------------------- joined, then cut

  /**
   What a caller can check: a backward separator is not in its piece, and a forward separator is nowhere before it.
  */
  predicate Joinable(s: string, splits: seq<UserSplit>, values: seq<string>)
    requires |values| == |splits|
  {
    splits == [] ||
    var n := |splits| - 1;
    && (if splits[n].reverse then splits[n].sep !in Piece(values[n], splits[n])
        else splits[n].sep !in Joined(s, splits[..n], values[..n]))
    && Joinable(s, splits[..n], values[..n])
  }

  lemma {:induction false} FirstIs(p: string, c: char, q: string)
    ensures c !in p ==> First(p + [c] + q, c) == |p|
    ensures c in p ==> First(p + [c] + q, c) < |p|
  {
    if p != [] {
      FirstIs(p[1..], c, q);
      assert (p + [c] + q)[1..] == p[1..] + [c] + q;
      assert p == [p[0]] + p[1..];
    }
  }

  lemma {:induction false} LastIs(p: string, c: char, q: string)
    ensures c !in q ==> Last(p + [c] + q, c) == |p|
    ensures c in q ==> |p| < Last(p + [c] + q, c) < |p + [c] + q|
  {
    var s := p + [c] + q;
    if q == [] {
      assert s[|s| - 1] == c;
    } else {
      var n := |q| - 1;
      LastIs(p, c, q[..n]);
      assert q == q[..n] + [q[n]];
      assert s[..|s| - 1] == p + [c] + q[..n] && s[|s| - 1] == q[n];
    }
  }

  lemma CutIs(p: string, split: UserSplit, q: string)
    ensures Cut(p + [split.sep] + q, split) == |p| <==> if split.reverse then split.sep !in q else split.sep !in p
  {
    FirstIs(p, split.sep, q);
    LastIs(p, split.sep, q);
  }

  function Wanted(splits: seq<UserSplit>, values: seq<string>): seq<Entry>
    requires |values| == |splits|
  {
    seq(|values|, i requires 0 <= i < |values| => Some(Piece(values[i], splits[i])))
  }

  /** Pieces that were joined are found again exactly if they are joinable. */
  lemma {:induction false} JoinedThenCut(s: string, splits: seq<UserSplit>, values: seq<string>)
    requires |values| == |splits|
    ensures Found(Joined(s, splits, values), s, splits, values) <==> Joinable(s, splits, values)
    decreases |splits|
  {
    hide Pieces, Wanted, Cut;
    if splits == [] {
      FoundNone(s);
    } else {
      var n := |splits| - 1;
      var p, q := Joined(s, splits[..n], values[..n]), Piece(values[n], splits[n]);
      JoinedThenCut(s, splits[..n], values[..n]);
      CutIs(p, splits[n], q);
      FoundOneMore(p, s, splits, values);
    }
  }

  /** The pieces are the wanted ones exactly if the last one is and the ones before are. */
  lemma OneMore(found: seq<Entry>, last: string, splits: seq<UserSplit>, values: seq<string>)
    requires |values| == |splits| > 0 && |found| == |splits| - 1
    ensures var n := |splits| - 1;
            found + [Some(last)] == Wanted(splits, values) <==>
              last == Piece(values[n], splits[n]) && found == Wanted(splits[..n], values[..n])
  {
    var n := |splits| - 1;
    var w, w' := Wanted(splits, values), Wanted(splits[..n], values[..n]);
    assert w == w' + [Some(Piece(values[n], splits[n]))];
    assert (found + [Some(last)])[..n] == found && w[..n] == w';
    assert (found + [Some(last)])[n] == Some(last);
  }

  /** Cutting `whole` gives back the name proper and what the entries stood for. */
  predicate Found(whole: string, s: string, splits: seq<UserSplit>, values: seq<string>)
    requires |values| == |splits|
  {
    Pieces(whole, splits).0 == s && Pieces(whole, splits).1 == Wanted(splits, values)
  }

  lemma FoundNone(s: string)
    ensures Found(s, s, [], [])
  {
  }

  /** With one split more, the cut has to fall on the separator that was put there. */
  lemma FoundOneMore(p: string, s: string, splits: seq<UserSplit>, values: seq<string>)
    requires |values| == |splits| > 0
    ensures var n := |splits| - 1;
            var whole := p + [splits[n].sep] + Piece(values[n], splits[n]);
            Found(whole, s, splits, values) <==>
              Cut(whole, splits[n]) == |p| && Found(p, s, splits[..n], values[..n])
  {
    hide Pieces, Wanted, Piece;
    var n := |splits| - 1;
    var q := Piece(values[n], splits[n]);
    var whole := p + [splits[n].sep] + q;
    assert whole[|p|] == splits[n].sep && splits[n].sep in whole;
    var i := Cut(whole, splits[n]);
    hide Cut;
    PiecesAt(whole, splits, i);
    OneMore(Pieces(whole[..i], splits[..n]).1, whole[i + 1..], splits, values);
    if i == |p| {
      assert whole[..i] == p && whole[i + 1..] == q;
    } else {
      assert |whole[i + 1..]| != |q|;
    }
  }

  // ------------------------------------------------------- place by place

  /**
   `ends` are the places at which the name is cut: each split looks for its separator in what the ones behind it have
   left, from its own end, and its entry is what stands between that and the next cut, or the default.
  */
  ghost predicate CutAt(s: string, splits: seq<UserSplit>, name: string, entries: seq<Entry>, ends: seq<nat>) {
    && |entries| == |splits| && |ends| == |splits| + 1
    && ends[|splits|] == |s| && ends[0] <= |s| && name == s[..ends[0]]
    && forall k :: 0 <= k < |splits| ==> CutOff(s, ends[k + 1], splits[k], entries[k], ends[k])
  }

  ghost predicate CutOff(s: string, to: nat, split: UserSplit, entry: Entry, end: nat) {
    && to <= |s|
    && var part := s[..to];
       if split.sep in part then
         && end < to && part[end] == split.sep && entry == Some(part[end + 1..])
         && split.sep !in if split.reverse then part[end + 1..] else part[..end]
       else end == to && entry == split.fallback
  }

  lemma {:induction false} PiecesCutAt(s: string, splits: seq<UserSplit>) returns (ends: seq<nat>)
    ensures CutAt(s, splits, Pieces(s, splits).0, Pieces(s, splits).1, ends)
    decreases |splits|
  {
    if splits == [] {
      ends := [|s|];
      assert s[..|s|] == s;
    } else {
      hide CutOff, CutAt, Cut;
      var n := |splits| - 1;
      var i := Cut(s, splits[n]);
      assert s[..|s|] == s;
      var p, entry := Pieces(s[..i], splits[..n]), if i < |s| then Some(s[i + 1..]) else splits[n].fallback;
      assert Pieces(s, splits) == (p.0, p.1 + [entry]);
      ends := PiecesCutAt(s[..i], splits[..n]);
      LastCut(s, splits[n]);
      CutMore(s, splits, i, p.0, p.1, ends, entry);
      ends := ends + [|s|];
    }
  }

  lemma LastCut(s: string, split: UserSplit)
    ensures var i := Cut(s, split);
            CutOff(s, |s|, split, if i < |s| then Some(s[i + 1..]) else split.fallback, i)
  {
    assert s[..|s|] == s;
  }

  lemma CutMore(s: string, splits: seq<UserSplit>, i: nat, name: string, entries: seq<Entry>, ends: seq<nat>,
                entry: Entry)
    requires splits != [] && i <= |s| && CutAt(s[..i], splits[..|splits| - 1], name, entries, ends)
    requires CutOff(s, |s|, splits[|splits| - 1], entry, i)
    ensures CutAt(s, splits, name, entries + [entry], ends + [|s|])
  {
    hide CutOff;
    var n, l, e := |splits| - 1, ends + [|s|], entries + [entry];
    assert s[..i][..ends[0]] == s[..ends[0]];
    forall k | 0 <= k < n
      ensures CutOff(s, l[k + 1], splits[k], e[k], l[k])
    {
      assert CutOff(s[..i], ends[k + 1], splits[..n][k], entries[k], ends[k]);
      CutWithin(s, i, ends[k + 1], splits[k], entries[k], ends[k]);
    }
  }

  lemma CutWithin(s: string, i: nat, to: nat, split: UserSplit, entry: Entry, end: nat)
    requires i <= |s| && CutOff(s[..i], to, split, entry, end)
    ensures CutOff(s, to, split, entry, end)
  {
    assert s[..i][..to] == s[..to];
  }

  /** `at` are the places of the separators in the name that is saved; behind each stands the entry, or the default. */
  ghost predicate Laid(saved: string, name: string, splits: seq<UserSplit>, values: seq<string>, at: seq<nat>)
    requires |values| == |splits|
  {
    && |at| == |splits| + 1 && at[|splits|] == |saved|
    && at[0] == |name| <= |saved| && saved[..|name|] == name
    && forall k :: 0 <= k < |splits| ==> Behind(saved, splits[k], values[k], at[k], at[k + 1])
  }

  ghost predicate Behind(saved: string, split: UserSplit, value: string, from: nat, to: nat) {
    && from < to <= |saved| && saved[from] == split.sep
    && saved[from + 1..to] == if value != "" then value else if split.fallback.Some? then split.fallback.value
                              else "(null)"
  }

  lemma LaidNone(name: string)
    ensures Laid(name, name, [], [], [|name|])
  {
  }

  lemma PutBehind(before: string, split: UserSplit, entry: string, value: string, more: string)
    requires value == if entry == "" then Text(split.fallback) else entry
    requires more == before + [split.sep] + value
    ensures Behind(more, split, entry, |before|, |more|)
  {
  }

  lemma LaidMore(saved: string, name: string, splits: seq<UserSplit>, values: seq<string>, at: seq<nat>, more: string)
    requires |values| == |splits| > 0
    requires Laid(saved, name, splits[..|splits| - 1], values[..|splits| - 1], at)
    requires |saved| <= |more| && more[..|saved|] == saved
    requires Behind(more, splits[|splits| - 1], values[|splits| - 1], |saved|, |more|)
    ensures Laid(more, name, splits, values, at + [|more|])
  {
    var n, l := |splits| - 1, at + [|more|];
    assert more[..|name|] == saved[..|name|];
    forall k | 0 <= k < n
      ensures Behind(more, splits[k], values[k], l[k], l[k + 1])
    {
      assert Behind(saved, splits[..n][k], values[..n][k], at[k], at[k + 1]);
      assert more[at[k] + 1..at[k + 1]] == more[..|saved|][at[k] + 1..at[k + 1]];
      assert more[at[k]] == more[..|saved|][at[k]];
    }
  }

  // ------------------------------------------------------------- in place

  /** The C string in a buffer that starts at `from`: up to the first NUL. */
  function CString(buf: seq<char>, from: nat): (s: string)
    requires from <= |buf|
    ensures '\0' !in s && from + |s| <= |buf|
  {
    buf[from..][..First(buf[from..], '\0')]
  }

  lemma CStringIs(buf: seq<char>, from: nat, s: string)
    requires from + |s| < |buf| && '\0' !in s && buf[from..from + |s|] == s && buf[from + |s|] == '\0'
    ensures CString(buf, from) == s
  {
    var rest := buf[from..];
    assert rest[..|s|] == s && rest[|s|] == '\0';
    assert rest == s + ['\0'] + rest[|s| + 1..];
    FirstIs(s, '\0', rest[|s| + 1..]);
  }

  /** A NUL written over a character leaves what is before it in front, and what is behind it after. */
  lemma CutInPlace(buf: seq<char>, s: string, i: nat)
    requires i < |s| < |buf| && '\0' !in s && buf[..|s|] == s && buf[|s|] == '\0'
    ensures CString(buf[i := '\0'], 0) == s[..i] && CString(buf[i := '\0'], i + 1) == s[i + 1..]
  {
    var cut := buf[i := '\0'];
    assert cut[..i] == s[..i];
    CStringIs(cut, 0, s[..i]);
    assert cut[i + 1..i + 1 + |s[i + 1..]|] == s[i + 1..];
    CStringIs(cut, i + 1, s[i + 1..]);
  }

  lemma NotBefore(s: string, c: char, i: nat)
    requires i <= |s| && c !in s[..i]
    ensures forall j :: 0 <= j < i ==> s[j] != c
  {
    assert forall j :: 0 <= j < i ==> s[j] == s[..i][j];
  }

  lemma NotBehind(s: string, c: char, i: nat)
    requires i < |s| ==> c !in s[i + 1..]
    ensures forall j :: i < j < |s| ==> s[j] != c
  {
    assert forall j :: i < j < |s| ==> s[j] == s[i + 1..][j - i - 1];
  }

  lemma FirstAt(s: string, c: char, i: nat)
    requires i <= |s| && c !in s[..i] && (i < |s| ==> s[i] == c)
    ensures First(s, c) == i
  {
    NotBefore(s, c, i);
    NotBefore(s, c, First(s, c));
  }

  lemma LastAt(s: string, c: char, i: nat)
    requires i <= |s| && (i < |s| ==> s[i] == c && c !in s[i + 1..]) && (i == |s| ==> c !in s)
    ensures Last(s, c) == i
  {
    assert i < |s| ==> c in s;
    NotBehind(s, c, i);
    NotBehind(s, c, Last(s, c));
  }

  /** strchr and strrchr on the C string `s` at the start of a buffer. */
  method Find(buf: array<char>, split: UserSplit, ghost s: string) returns (found: Option<nat>)
    requires |s| < buf.Length && '\0' !in s && buf[..|s|] == s && buf[|s|] == '\0' && split.sep != '\0'
    ensures found == if Cut(s, split) < |s| then Some(Cut(s, split)) else None
  {
    found := None;
    var i := 0;
    while buf[i] != '\0' && (split.reverse || found.None?)
      invariant i <= |s|
      invariant found.None? ==> split.sep !in s[..i]
      invariant found.Some? ==> found.value < i && s[found.value] == split.sep && split.sep !in s[found.value + 1..i]
      invariant found.Some? && !split.reverse ==> split.sep !in s[..found.value]
      decreases |s| - i
    {
      assert s[i] == buf[..|s|][i];
      assert s[..i + 1] == s[..i] + [s[i]];
      if found.Some? {
        assert s[found.value + 1..i + 1] == s[found.value + 1..i] + [s[i]];
      }
      if buf[i] == split.sep {
        found := Some(i);
      }
      i := i + 1;
    }
    assert i < |s| ==> s[i] == buf[..|s|][i];
    if found.None? || split.reverse {
      assert i == |s| && s[..i] == s;
    }
    if split.reverse {
      LastAt(s, split.sep, if found.None? then |s| else found.value);
    } else {
      FirstAt(s, split.sep, if found.None? then |s| else found.value);
    }
  }

  /** What the pieces from the `k`th on are when `rest` of the name is still to be cut. */
  ghost predicate Cutting(whole: string, splits: seq<UserSplit>, k: nat, rest: string, entries: seq<Entry>) {
    && k <= |splits|
    && Pieces(whole, splits).0 == Pieces(rest, splits[..k]).0
    && Pieces(whole, splits).1 == Pieces(rest, splits[..k]).1 + entries
  }

  lemma CutOnce(whole: string, splits: seq<UserSplit>, k: nat, rest: string, entries: seq<Entry>)
    requires k > 0 && Cutting(whole, splits, k, rest, entries)
    ensures var i := Cut(rest, splits[k - 1]);
            if i < |rest| then Cutting(whole, splits, k - 1, rest[..i], [Some(rest[i + 1..])] + entries)
            else Cutting(whole, splits, k - 1, rest, [splits[k - 1].fallback] + entries)
  {
    hide Cut;
    assert splits[..k][..k - 1] == splits[..k - 1];
  }

  lemma NotCut(whole: string, splits: seq<UserSplit>)
    ensures Cutting(whole, splits, |splits|, whole, [])
  {
    assert splits[..|splits|] == splits;
  }

  lemma CutAll(whole: string, splits: seq<UserSplit>, rest: string, entries: seq<Entry>)
    requires Cutting(whole, splits, 0, rest, entries)
    ensures rest == Pieces(whole, splits).0 && entries == Pieces(whole, splits).1
  {
    assert Pieces(rest, splits[..0]) == (rest, []) && Pieces(whole, splits).1 == [] + entries == entries;
  }

  method Fallbacks(splits: seq<UserSplit>) returns (entries: seq<Entry>)
    ensures |entries| == |splits| && forall k :: 0 <= k < |splits| ==> entries[k] == splits[k].fallback
  {
    entries := [];
    var k := |splits|;
    while k > 0
      invariant 0 <= k <= |splits| && |entries| == |splits| - k
      invariant forall j :: k <= j < |splits| ==> entries[j - k] == splits[j].fallback
    {
      k := k - 1;
      entries := [splits[k].fallback] + entries;
    }
  }

  /** update_user_splits: what the dialog shows of an account, or of no account. */
  method UpdateUserSplits(account: Option<string>, splits: seq<UserSplit>)
    returns (username: Option<string>, entries: seq<Entry>, ghost ends: seq<nat>)
    requires account.Some? ==> '\0' !in account.value
    requires forall k :: 0 <= k < |splits| ==> splits[k].sep != '\0'
    ensures account == None ==> username == None && |entries| == |splits|
    ensures account == None ==> forall k :: 0 <= k < |splits| ==> entries[k] == splits[k].fallback
    ensures account.Some? ==>
              username == Some(Pieces(account.value, splits).0) && entries == Pieces(account.value, splits).1
    ensures account.Some? ==> CutAt(account.value, splits, username.value, entries, ends)
  {
    hide Pieces, Cutting, Cut, CString, CutAt;
    if account.None? {
      entries := Fallbacks(splits);
      return None, entries, [];
    }
    entries := [];
    var k := |splits|;
    var whole := account.value;
    var buf := Copy(whole);
    var s := whole;
    NotCut(whole, splits);
    while k > 0
      invariant 0 <= k <= |splits|
      invariant |s| < buf.Length && '\0' !in s && buf[..|s|] == s && buf[|s|] == '\0'
      invariant Cutting(whole, splits, k, s, entries)
    {
      CutOnce(whole, splits, k, s, entries);
      var i := Find(buf, splits[k - 1], s);
      if i.Some? {
        CutInPlace(buf[..], s, i.value);
        ghost var was := buf[..];
        buf[i.value] := '\0';
        assert buf[..] == was[i.value := '\0'];
        entries := [Some(CString(buf[..], i.value + 1))] + entries;
        s := s[..i.value];
      } else {
        entries := [splits[k - 1].fallback] + entries;
      }
      k := k - 1;
    }
    CStringIs(buf[..], 0, s);
    username := Some(CString(buf[..], 0));
    CutAll(whole, splits, s, entries);
    ends := PiecesCutAt(whole, splits);
  }

  /** g_strdup. */
  method Copy(s: string) returns (buf: array<char>)
    ensures fresh(buf) && buf.Length == |s| + 1 && buf[..|s|] == s && buf[|s|] == '\0'
  {
    buf := new char[|s| + 1](i requires 0 <= i <= |s| => if i < |s| then s[i] else '\0');
  }

  /** save_account_cb: the name that is stored, or nothing if the name proper is empty. */
  method SaveUsername(name: string, splits: seq<UserSplit>, values: seq<string>)
    returns (saved: Option<string>, ghost at: seq<nat>)
    requires |values| == |splits|
    ensures saved == if name == "" then None else Some(Joined(name, splits, values))
    ensures saved.Some? ==> Laid(saved.value, name, splits, values, at)
  {
    hide Laid, Behind;
    if name == "" {
      return None, [];
    }
    var username := name;
    at := [|name|];
    LaidNone(name);
    var k := 0;
    while k < |splits|
      invariant 0 <= k <= |splits|
      invariant username == Joined(name, splits[..k], values[..k])
      invariant Laid(username, name, splits[..k], values[..k], at)
    {
      var value := values[k];
      if value == "" {
        value := Text(splits[k].fallback);
      }
      assert splits[..k + 1][..k] == splits[..k] && values[..k + 1][..k] == values[..k];
      ghost var before := username;
      username := username + [splits[k].sep] + value;
      PutBehind(before, splits[k], values[k], value, username);
      LaidMore(before, name, splits[..k + 1], values[..k + 1], at, username);
      at := at + [|username|];
      k := k + 1;
    }
    assert splits[..k] == splits && values[..k] == values;
    saved := Some(username);
  }
}
