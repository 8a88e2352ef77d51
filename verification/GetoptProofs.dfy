/** The call-by-call scanner reports what the one-pass parser reports and partitions the vector stably. */
module GetoptProofs {
  import opened GetoptSpec
  import opened Options

  lemma Assoc<T>(a: seq<T>, b: seq<T>, c: seq<T>)
    ensures a + (b + c) == (a + b) + c
  {
  }

  lemma {:induction false} SelectAppend(s: seq<string>, t: seq<string>, ms: seq<bool>, mt: seq<bool>, mark: bool)
    requires |s| == |ms| && |t| == |mt|
    ensures Select(s + t, ms + mt, mark) == Select(s, ms, mark) + Select(t, mt, mark)
  {
    if s == [] {
      assert s + t == t && ms + mt == mt;
    } else {
      assert (s + t)[1..] == s[1..] + t && (ms + mt)[1..] == ms[1..] + mt;
      SelectAppend(s[1..], t, ms[1..], mt, mark);
      var head := if ms[0] == mark then [s[0]] else [];
      Assoc(head, Select(s[1..], ms[1..], mark), Select(t, mt, mark));
      assert (s + t)[0] == s[0] && (ms + mt)[0] == ms[0];
    }
  }

  lemma {:induction false} SelectUniform(s: seq<string>, marks: seq<bool>, mark: bool)
    requires |s| == |marks| && forall i :: 0 <= i < |s| ==> marks[i] == mark
    ensures Select(s, marks, mark) == s && Select(s, marks, !mark) == []
  {
    if s != [] {
      SelectUniform(s[1..], marks[1..], mark);
      assert s == [s[0]] + s[1..];
    }
  }

  /** What a state stands for in the end: everything consumed, everything set aside, everything still to be reported. */
  ghost function Total(cfg: Config, v: View): (seq<string>, seq<string>, seq<Item>)
    requires GoodView(v)
  {
    var p := Parse(cfg, v.text, v.rest);
    (v.done + Select(v.rest, p.consumed, true), v.aside + Select(v.rest, p.consumed, false), p.items)
  }

  lemma SplitTotal(cfg: Config, v: View, v': View, n: nat, marks: seq<bool>, mark: bool)
    requires GoodView(v) && GoodView(v') && n <= |v.rest| && v'.rest == v.rest[n..]
    requires |marks| == n && forall i :: 0 <= i < n ==> marks[i] == mark
    requires Parse(cfg, v.text, v.rest).consumed == marks + Parse(cfg, v'.text, v'.rest).consumed
    requires v'.done == v.done + (if mark then v.rest[..n] else [])
    requires v'.aside == v.aside + (if mark then [] else v.rest[..n])
    ensures Total(cfg, v).0 == Total(cfg, v').0 && Total(cfg, v).1 == Total(cfg, v').1
  {
    var c := Parse(cfg, v'.text, v'.rest).consumed;
    assert v.rest == v.rest[..n] + v'.rest;
    SelectAppend(v.rest[..n], v'.rest, marks, c, true);
    SelectAppend(v.rest[..n], v'.rest, marks, c, false);
    SelectUniform(v.rest[..n], marks, mark);
    var x, y := Select(v'.rest, c, true), Select(v'.rest, c, false);
    Assoc(v.done, if mark then v.rest[..n] else [], x);
    Assoc(v.aside, if mark then [] else v.rest[..n], y);
  }

  /** Skipping leading operands changes nothing in the total. */
  lemma {:induction false} SkippedTotal(cfg: Config, v: View)
    requires GoodView(v) && v.text == "" && cfg.ordering == Permute
    ensures Total(cfg, Skipped(v)) == Total(cfg, v)
    decreases |v.rest|
  {
    if v.rest != [] && IsOperand(v.rest[0]) {
      var w := v.(aside := v.aside + v.rest[..1], rest := v.rest[1..]);
      SkippedTotal(cfg, w);
      SplitTotal(cfg, v, w, 1, [false], false);
      SkippedOnce(v);
    } else {
      assert v.rest[..0] == [] && v.rest[0..] == v.rest && v.aside + [] == v.aside;
    }
  }

  lemma SkippedOnce(v: View)
    requires v.rest != [] && IsOperand(v.rest[0])
    ensures Skipped(v.(aside := v.aside + v.rest[..1], rest := v.rest[1..])) == Skipped(v)
  {
    var n := LeadingOperands(v.rest[1..]);
    assert v.rest[..1] + v.rest[1..][..n] == v.rest[..n + 1];
    Assoc(v.aside, v.rest[..1], v.rest[1..][..n]);
  }

  lemma ConsumedTotal(cfg: Config, v: View)
    requires GoodView(v) && v.text != ""
    ensures var d := Decode(cfg, v.rest[0], v.text, v.rest[1..]);
            && GoodView(Consumed(v, d))
            && Total(cfg, Consumed(v, d)).0 == Total(cfg, v).0
            && Total(cfg, Consumed(v, d)).1 == Total(cfg, v).1
            && Total(cfg, v).2 == [d.item] + Total(cfg, Consumed(v, d)).2
  {
    var d := Decode(cfg, v.rest[0], v.text, v.rest[1..]);
    var marks := seq(Used(d), i => true);
    SplitTotal(cfg, v, Consumed(v, d), Used(d), marks, true);
  }

  /**
   A call that reports an item takes it off the front of what remains to be reported, and keeps the rest of the total.
  */
  lemma StepTotal(cfg: Config, v: View)
    requires GoodView(v) && Next(cfg, v).1.Some?
    ensures var (v', item) := Next(cfg, v);
            Total(cfg, v) == (Total(cfg, v').0, Total(cfg, v').1, [item.value] + Total(cfg, v').2)
  {
    if v.text != "" {
      ConsumedTotal(cfg, v);
    } else {
      var s := if cfg.ordering == Permute then Skipped(v) else v;
      if cfg.ordering == Permute {
        SkippedTotal(cfg, v);
      }
      if IsOperand(s.rest[0]) {
        SplitTotal(cfg, s, Next(cfg, v).0, 1, [true], true);
      } else {
        var w := s.(text := Start(cfg, s.rest[0]));
        assert Total(cfg, w) == Total(cfg, s);
        ConsumedTotal(cfg, w);
      }
    }
  }

  /** At EOF nothing remains to be reported, and the unscanned elements are operands. */
  lemma EofTotal(cfg: Config, v: View)
    requires GoodView(v) && Next(cfg, v).1.None?
    ensures var v' := Next(cfg, v).0;
            Total(cfg, v) == (v'.done, v'.aside + v'.rest, [])
  {
    var s := if cfg.ordering == Permute then Skipped(v) else v;
    if cfg.ordering == Permute {
      SkippedTotal(cfg, v);
    }
    if s.rest == [] {
      assert s.done + [] == s.done && s.aside + [] == s.aside;
    } else if s.rest[0] == "--" {
      DashTotal(cfg, s);
    } else {
      SelectUniform(s.rest, AllOperands(|s.rest|), false);
      assert s.done + [] == s.done;
    }
  }

  lemma DashTotal(cfg: Config, s: View)
    requires s.text == "" && s.rest != [] && s.rest[0] == "--"
    ensures Total(cfg, s) == (s.done + ["--"], (s.aside + s.rest[1..]) + [], [])
  {
    var tail, marks := s.rest[1..], AllOperands(|s.rest| - 1);
    assert ([true] + marks)[1..] == marks;
    SelectUniform(tail, marks, false);
    assert Parse(cfg, "", s.rest).consumed == [true] + marks;
    assert Select(s.rest, [true] + marks, true) == ["--"] + [];
    assert Select(s.rest, [true] + marks, false) == [] + tail;
    assert ["--"] + [] == ["--"] && [] + tail == tail;
    assert (s.aside + tail) + [] == s.aside + tail;
  }

  // ------------------------------------------------ what the parser promises

  /** Whether the options in `before`, read from `text` on, end with its last element, whatever is behind it. */
  predicate Complete(cfg: Config, text: string, before: seq<string>)
    requires text != "" ==> before != [] && !IsOperand(before[0])
    decreases |before|, text == "", |text|
  {
    if text != "" then
      var d := Decode(cfg, before[0], text, before[1..] + [""]);
      Used(d) <= |before| && Complete(cfg, d.text, before[Used(d)..])
    else if before == [] then true
    else if before[0] == "--" then false
    else if !IsOperand(before[0]) then Complete(cfg, Start(cfg, before[0]), before)
    else cfg.ordering != RequireOrder && Complete(cfg, "", before[1..])
  }

  /** What an option comes to depends on the element behind only if it takes it. */
  lemma DecodeBehind(cfg: Config, element: string, text: string, after: seq<string>, more: seq<string>)
    requires !IsOperand(element) && text != "" && more != []
    ensures var d := Decode(cfg, element, text, after + [""]);
            (d.tookNext ==> after != []) ==>
              Decode(cfg, element, text, after + more) == d && Decode(cfg, element, text, after) == d
  {
    hide Lookup, IndexOf, NameEnd;
    if after == [] {
      assert after + [""] == [""] && after + more == more;
    } else {
      assert (after + [""])[0] == after[0] == (after + more)[0];
    }
  }

  /** The parser goes through a complete beginning first, and then through the rest as if that were all. */
  lemma {:induction false} ParseBoth(cfg: Config, text: string, before: seq<string>, rest: seq<string>)
    requires text != "" ==> before != [] && !IsOperand(before[0])
    requires Complete(cfg, text, before) && rest != []
    ensures var p, q := Parse(cfg, text, before), Parse(cfg, "", rest);
            Parse(cfg, text, before + rest) == Outcome(p.items + q.items, p.consumed + q.consumed)
    decreases |before|, text == "", |text|
  {
    hide Decode;
    var all, q := before + rest, Parse(cfg, "", rest);
    if text != "" {
      assert all[0] == before[0] && all[1..] == before[1..] + rest;
      DecodeBehind(cfg, before[0], text, before[1..], rest);
      var d := Decode(cfg, before[0], text, before[1..] + [""]);
      var p := Parse(cfg, d.text, before[Used(d)..]);
      assert all[Used(d)..] == before[Used(d)..] + rest;
      ParseBoth(cfg, d.text, before[Used(d)..], rest);
      Assoc([d.item], p.items, q.items);
      Assoc(seq(Used(d), i => true), p.consumed, q.consumed);
    } else if before == [] {
      assert all == rest && [] + q.items == q.items && [] + q.consumed == q.consumed;
    } else if !IsOperand(before[0]) {
      assert all[0] == before[0];
      ParseBoth(cfg, Start(cfg, before[0]), before, rest);
    } else {
      assert all[0] == before[0] && all[1..] == before[1..] + rest;
      ParseBoth(cfg, "", before[1..], rest);
      var p := Parse(cfg, "", before[1..]);
      Assoc([false], p.consumed, q.consumed);
      Assoc([true], p.consumed, q.consumed);
      Assoc([Plain(1).(arg := Some(before[0]))], p.items, q.items);
    }
  }

  /**
   Guideline 10: once "--" has been met between elements, every element behind it is an operand, whatever it looks like.
  */
  lemma DoubleDashEndsOptions(cfg: Config, before: seq<string>, after: seq<string>)
    requires Complete(cfg, "", before)
    ensures var p := Parse(cfg, "", before);
            Parse(cfg, "", before + ["--"] + after) == Outcome(p.items, p.consumed + [true] + AllOperands(|after|))
  {
    hide Parse, Complete, AllOperands;
    var p, dash := Parse(cfg, "", before), ["--"] + after;
    Assoc(before, ["--"], after);
    ParseBoth(cfg, "", before, dash);
    DashFirst(cfg, after);
    assert p.items + [] == p.items;
    Assoc(p.consumed, [true], AllOperands(|after|));
  }

  lemma DashFirst(cfg: Config, after: seq<string>)
    ensures Parse(cfg, "", ["--"] + after) == Outcome([], [true] + AllOperands(|after|))
  {
    var dash := ["--"] + after;
    assert dash[0] == "--" && |dash| - 1 == |after|;
  }

  /**
   Where operands stand does not matter: taking one out, anywhere between two elements, changes nothing that is
   reported.
  */
  lemma OperandsDoNotMatter(cfg: Config, before: seq<string>, operand: string, rest: seq<string>)
    requires cfg.ordering == Permute && IsOperand(operand) && Complete(cfg, "", before)
    ensures var p, q := Parse(cfg, "", before), Parse(cfg, "", rest);
            && Parse(cfg, "", before + [operand] + rest)
                 == Outcome(p.items + q.items, p.consumed + [false] + q.consumed)
            && Parse(cfg, "", before + rest) == Outcome(p.items + q.items, p.consumed + q.consumed)
  {
    var p, q, behind := Parse(cfg, "", before), Parse(cfg, "", rest), [operand] + rest;
    assert before + [operand] + rest == before + behind;
    ParseBoth(cfg, "", before, behind);
    assert behind[0] == operand && behind[1..] == rest;
    Assoc(p.consumed, [false], q.consumed);
    if rest == [] {
      assert before + rest == before && p.items + [] == p.items && p.consumed + [] == p.consumed;
    } else {
      ParseBoth(cfg, "", before, rest);
    }
  }

  /** Guideline 5: options without arguments may be given in one cluster or in separate elements. */
  lemma ClusterSplits(cfg: Config, c: char, more: string, rest: seq<string>)
    requires cfg.longopts.None? && more != "" && more != "-"
    requires c in cfg.optstring && c != ':' && c != '-'
    requires !ColonAt(cfg.optstring, IndexOf(cfg.optstring, c) + 1)
    ensures Parse(cfg, "", [['-', c] + more] + rest).items
         == Parse(cfg, "", [['-', c], ['-'] + more] + rest).items
  {
    var e, f := ['-', c] + more, ['-'] + more;
    FlagFirst(cfg, e, c, more, rest);
    FlagFirst(cfg, ['-', c], c, "", [f] + rest);
    assert f[1..] == more && ([f] + rest)[0] == f;
    assert [['-', c], f] + rest == [['-', c]] + ([f] + rest);
    SameText(cfg, e, f, more, rest);
  }

  lemma FlagFirst(cfg: Config, e: string, c: char, more: string, rest: seq<string>)
    requires cfg.longopts.None? && e == ['-', c] + more && c != '-'
    requires c in cfg.optstring && c != ':' && !ColonAt(cfg.optstring, IndexOf(cfg.optstring, c) + 1)
    ensures Parse(cfg, "", [e] + rest).items
         == [Plain(c as int)] + if more == "" then Parse(cfg, "", rest).items else Parse(cfg, more, [e] + rest).items
  {
    var all := [e] + rest;
    assert all[0] == e && all[1..] == rest && all[0..] == all;
    assert e[1..] == [c] + more && ([c] + more)[1..] == more;
    assert Decode(cfg, e, [c] + more, rest) == Decoded(Plain(c as int), more, more == "", false);
  }

  /** Without long options only the unread text of an element matters, not the element. */
  lemma {:induction false} SameText(cfg: Config, e: string, f: string, text: string, rest: seq<string>)
    requires cfg.longopts.None? && text != "" && !IsOperand(e) && !IsOperand(f)
    ensures Parse(cfg, text, [e] + rest).items == Parse(cfg, text, [f] + rest).items
    decreases |text|
  {
    var a, b := [e] + rest, [f] + rest;
    assert a[1..] == rest && b[1..] == rest;
    var d := Decode(cfg, e, text, rest);
    assert d == Decode(cfg, f, text, rest);
    if d.elementDone {
      assert a[Used(d)..] == b[Used(d)..];
    } else {
      assert a[0..] == a && b[0..] == b;
      SameText(cfg, e, f, d.text, rest);
    }
  }
}
