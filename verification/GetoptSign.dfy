/**
 The sign in front of the option string of finch/getopt.c. It selects the ordering and is stripped, but for the first
 call only; later calls look options up in the string with the sign.
*/
module GetoptSign {
  import opened GetoptSpec
  import opened GetoptProofs
  import opened Getopt
  import opened Options

  predicate IsSign(c: char) {
    c == '-' || c == '+'
  }

  /** What later calls read, if the first one reads `cfg`. */
  function Signed(cfg: Config, sign: char): Config {
    cfg.(optstring := [sign] + cfg.optstring)
  }

  /**
   Going through the elements as the one-pass parser of the string without the sign does, every option comes to the same
   with the sign.
  */
  predicate Alike(cfg: Config, sign: char, text: string, rest: seq<string>)
    requires text != "" ==> rest != [] && !IsOperand(rest[0])
    decreases |rest|, text == "", |text|
  {
    if text != "" then
      var d := Decode(cfg, rest[0], text, rest[1..]);
      d == Decode(Signed(cfg, sign), rest[0], text, rest[1..]) && Alike(cfg, sign, d.text, rest[Used(d)..])
    else if rest == [] || rest[0] == "--" then true
    else if !IsOperand(rest[0]) then Alike(cfg, sign, Start(cfg, rest[0]), rest)
    else cfg.ordering == RequireOrder || Alike(cfg, sign, "", rest[1..])
  }

  /** An option's place in the string with the sign. */
  lemma IndexSigned(s: string, sign: char, c: char)
    ensures IndexOf([sign] + s, c) == if c == sign then 0 else 1 + IndexOf(s, c)
  {
    assert ([sign] + s)[1..] == s;
  }

  /** Two options that are reported alike are decoded alike. */
  lemma ItemDecides(cfg: Config, sign: char, element: string, text: string, after: seq<string>)
    requires IsSign(sign) && !IsOperand(element) && text != ""
    ensures var d, e := Decode(cfg, element, text, after), Decode(Signed(cfg, sign), element, text, after);
            d.item == e.item ==> d == e
  {
    hide Lookup, NameEnd, IndexOf;
    IndexSigned(cfg.optstring, sign, text[0]);
  }

  /** The reports are the same exactly if all options are alike. */
  lemma {:induction false} AlikeIs(cfg: Config, sign: char, text: string, rest: seq<string>)
    requires IsSign(sign) && (text != "" ==> rest != [] && !IsOperand(rest[0]))
    ensures var p, q := Parse(cfg, text, rest), Parse(Signed(cfg, sign), text, rest);
            && (Alike(cfg, sign, text, rest) ==> p == q)
            && (p.items == q.items ==> Alike(cfg, sign, text, rest))
    decreases |rest|, text == "", |text|
  {
    hide Decode;
    var later := Signed(cfg, sign);
    if text != "" {
      var d, e := Decode(cfg, rest[0], text, rest[1..]), Decode(later, rest[0], text, rest[1..]);
      ItemDecides(cfg, sign, rest[0], text, rest[1..]);
      if d == e {
        AlikeIs(cfg, sign, d.text, rest[Used(d)..]);
        SameTail([d.item], Parse(cfg, d.text, rest[Used(d)..]).items, Parse(later, d.text, rest[Used(d)..]).items);
      } else {
        assert Parse(cfg, text, rest).items[0] == d.item && Parse(later, text, rest).items[0] == e.item;
      }
    } else if rest == [] || rest[0] == "--" {
    } else if !IsOperand(rest[0]) {
      AlikeIs(cfg, sign, Start(cfg, rest[0]), rest);
    } else if cfg.ordering != RequireOrder {
      AlikeIs(cfg, sign, "", rest[1..]);
      SameTail([Plain(1).(arg := Some(rest[0]))], Parse(cfg, "", rest[1..]).items, Parse(later, "", rest[1..]).items);
    }
  }

  lemma SameTail(a: seq<Item>, b: seq<Item>, c: seq<Item>)
    ensures a + b == a + c ==> b == c
  {
    assert (a + b)[|a|..] == b && (a + c)[|a|..] == c;
  }

  /**
   A run with a sign is the run of the one-pass parser of the string without it exactly if every option behind the one
   that the first call reports comes to the same with the sign.
  */
  lemma SignedRun(cfg: Config, sign: char, args: seq<string>)
    requires IsSign(sign)
    ensures var out := Parse(cfg, "", args);
            var (v, item) := Next(cfg, View([], [], "", args));
            (Whole(cfg, Signed(cfg, sign), args)
             == (Select(args, out.consumed, true), Select(args, out.consumed, false), out.items)
             <==> item.None? || Alike(cfg, sign, v.text, v.rest))
  {
    hide Next, Parse, Select, Alike;
    WholeIsParse(cfg, args);
    var (v, item) := Next(cfg, View([], [], "", args));
    if item.Some? {
      AlikeIs(cfg, sign, v.text, v.rest);
      SameTail([item.value], Parse(cfg, v.text, v.rest).items, Parse(Signed(cfg, sign), v.text, v.rest).items);
    }
  }

  // ------------------------------------------------------- which options differ

  /** A character that stands for an option with a required argument. */
  predicate Requires(optstring: string, c: char) {
    var at := IndexOf(optstring, c);
    c != ':' && at < |optstring| && ColonAt(optstring, at + 1) && !ColonAt(optstring, at + 2)
  }

  /**
   Where the sign makes a difference: the option character is the sign, which is looked up now, or a required argument
   is missing and the ':' that asks for a code of its own is not in front any more.
  */
  predicate Trips(cfg: Config, sign: char, element: string, text: string, after: seq<string>)
    requires !IsOperand(element) && text != ""
  {
    var last, colon := after == [], ColonAt(cfg.optstring, 0);
    var long := if TriesLong(cfg, element) then Lookup(cfg.longopts.value, text[..NameEnd(text)]) else NoMatch;
    match long
    case Found(i) => colon && last && NameEnd(text) == |text| && cfg.longopts.value[i].hasArg == REQUIRED_ARGUMENT
    case Ambiguous => false
    case NoMatch =>
      if TriesLong(cfg, element) && (!cfg.longOnly || element[1] == '-') then false
      else if text[0] == sign
      then TriesLong(cfg, element) || !(colon && !ColonAt(cfg.optstring, 1) && |text| == 1 && last)
      else colon && last && |text| == 1 && Requires(cfg.optstring, text[0])
  }

  /** An option comes to the same exactly if it does not trip; the sign itself is to be no option. */
  lemma DecodedAlike(cfg: Config, sign: char, element: string, text: string, after: seq<string>)
    requires IsSign(sign) && sign !in cfg.optstring && !IsOperand(element) && text != ""
    ensures Decode(Signed(cfg, sign), element, text, after) == Decode(cfg, element, text, after)
       <==> !Trips(cfg, sign, element, text, after)
  {
    hide Lookup, NameEnd, IndexOf;
    IndexSigned(cfg.optstring, sign, text[0]);
    ColonsSigned(cfg.optstring, sign);
  }

  lemma ColonsSigned(s: string, sign: char)
    requires IsSign(sign)
    ensures !ColonAt([sign] + s, 0) && forall i: nat :: ColonAt([sign] + s, i + 1) <==> ColonAt(s, i)
  {
  }

  /** No option of the run trips. */
  predicate Smooth(cfg: Config, sign: char, text: string, rest: seq<string>)
    requires text != "" ==> rest != [] && !IsOperand(rest[0])
    decreases |rest|, text == "", |text|
  {
    if text != "" then
      var d := Decode(cfg, rest[0], text, rest[1..]);
      !Trips(cfg, sign, rest[0], text, rest[1..]) && Smooth(cfg, sign, d.text, rest[Used(d)..])
    else if rest == [] || rest[0] == "--" then true
    else if !IsOperand(rest[0]) then Smooth(cfg, sign, Start(cfg, rest[0]), rest)
    else cfg.ordering == RequireOrder || Smooth(cfg, sign, "", rest[1..])
  }

  lemma {:induction false} AlikeIsSmooth(cfg: Config, sign: char, text: string, rest: seq<string>)
    requires IsSign(sign) && sign !in cfg.optstring && (text != "" ==> rest != [] && !IsOperand(rest[0]))
    ensures Alike(cfg, sign, text, rest) <==> Smooth(cfg, sign, text, rest)
    decreases |rest|, text == "", |text|
  {
    hide Decode, Trips;
    if text != "" {
      DecodedAlike(cfg, sign, rest[0], text, rest[1..]);
      AlikeIsSmooth(cfg, sign, Decode(cfg, rest[0], text, rest[1..]).text,
                    rest[Used(Decode(cfg, rest[0], text, rest[1..]))..]);
    } else if rest == [] || rest[0] == "--" {
    } else if !IsOperand(rest[0]) {
      AlikeIsSmooth(cfg, sign, Start(cfg, rest[0]), rest);
    } else if cfg.ordering != RequireOrder {
      AlikeIsSmooth(cfg, sign, "", rest[1..]);
    }
  }

  /**
   So a run with a sign that is no option is the one-pass parser's exactly if nothing behind the first report trips.
  */
  lemma SignedRunSmooth(cfg: Config, sign: char, args: seq<string>)
    requires IsSign(sign) && sign !in cfg.optstring
    ensures var out := Parse(cfg, "", args);
            var (v, item) := Next(cfg, View([], [], "", args));
            (Whole(cfg, Signed(cfg, sign), args)
             == (Select(args, out.consumed, true), Select(args, out.consumed, false), out.items)
             <==> item.None? || Smooth(cfg, sign, v.text, v.rest))
  {
    hide Next, Parse, Select, Alike, Smooth;
    SignedRun(cfg, sign, args);
    var (v, item) := Next(cfg, View([], [], "", args));
    if item.Some? {
      AlikeIsSmooth(cfg, sign, v.text, v.rest);
    }
  }

  // ------------------------------------------- what a caller can see at a glance

  /** The sign is nowhere in what is read of an element as options. */
  predicate Lacks(cfg: Config, e: string, sign: char) {
    IsOperand(e) || e == "--" || sign !in Start(cfg, e)
  }

  lemma {:induction false} LackingIsSmooth(cfg: Config, sign: char, text: string, rest: seq<string>)
    requires IsSign(sign) && !ColonAt(cfg.optstring, 0)
    requires (text != "" ==> rest != [] && !IsOperand(rest[0]) && sign !in text)
    requires forall i :: 0 <= i < |rest| ==> Lacks(cfg, rest[i], sign)
    ensures Smooth(cfg, sign, text, rest)
    decreases |rest|, text == "", |text|
  {
    hide Lookup, NameEnd, IndexOf, Lacks;
    if text != "" {
      var d := Decode(cfg, rest[0], text, rest[1..]);
      assert d.text == "" || d.text == text[1..];
      LackingIsSmooth(cfg, sign, d.text, rest[Used(d)..]);
    } else if rest == [] || rest[0] == "--" {
    } else if !IsOperand(rest[0]) {
      LackingStart(cfg, sign, rest[0]);
      LackingIsSmooth(cfg, sign, Start(cfg, rest[0]), rest);
    } else if cfg.ordering != RequireOrder {
      LackingIsSmooth(cfg, sign, "", rest[1..]);
    }
  }

  lemma LackingStart(cfg: Config, sign: char, e: string)
    requires Lacks(cfg, e, sign) && !IsOperand(e) && e != "--"
    ensures sign !in Start(cfg, e)
  {
  }

  /** Without ':' in front of the option string, and with the sign in no option element, a sign makes no difference. */
  lemma SignedRunLacking(cfg: Config, sign: char, args: seq<string>)
    requires IsSign(sign) && sign !in cfg.optstring && !ColonAt(cfg.optstring, 0)
    requires forall i :: 0 <= i < |args| ==> Lacks(cfg, args[i], sign)
    ensures var out := Parse(cfg, "", args);
            Whole(cfg, Signed(cfg, sign), args)
                == (Select(args, out.consumed, true), Select(args, out.consumed, false), out.items)
  {
    hide Next, Parse, Select, Smooth, Lacks;
    SignedRunSmooth(cfg, sign, args);
    AfterOne(cfg, sign, args);
  }

  /** What is left behind the first report. */
  lemma AfterOne(cfg: Config, sign: char, args: seq<string>)
    requires IsSign(sign) && !ColonAt(cfg.optstring, 0) && forall i :: 0 <= i < |args| ==> Lacks(cfg, args[i], sign)
    ensures var (v, item) := Next(cfg, View([], [], "", args)); item.Some? ==> Smooth(cfg, sign, v.text, v.rest)
  {
    hide Smooth, Lacks, Decode;
    var v0 := View([], [], "", args);
    var s := if cfg.ordering == Permute then Skipped(v0) else v0;
    var (v, item) := Next(cfg, v0);
    if item.Some? {
      if !IsOperand(s.rest[0]) {
        var d := Decode(cfg, s.rest[0], Start(cfg, s.rest[0]), s.rest[1..]);
        DecodedText(cfg, s.rest[0], Start(cfg, s.rest[0]), s.rest[1..]);
        LackingStart(cfg, sign, s.rest[0]);
        assert v.text == d.text && v.rest == s.rest[Used(d)..];
      }
      LackingIsSmooth(cfg, sign, v.text, v.rest);
    }
  }

  lemma DecodedText(cfg: Config, e: string, text: string, after: seq<string>)
    requires !IsOperand(e) && text != ""
    ensures var d := Decode(cfg, e, text, after); d.text == "" || d.text == text[1..]
  {
    hide Lookup, NameEnd, IndexOf;
  }

  // ---------------------------------------------------------- vectors that differ

  /** The first call reports flag `c`; then later calls read the rest. */
  lemma FlagThenRest(cfg: Config, later: Config, c: char, rest: seq<string>)
    requires cfg.ordering != Permute && cfg.longopts == later.longopts == None && c != '-' && c != ':'
    requires c in cfg.optstring
    requires !ColonAt(cfg.optstring, IndexOf(cfg.optstring, c) + 1)
    ensures Whole(cfg, later, [['-', c]] + rest).2 == [Plain(c as int)] + Parse(later, "", rest).items
    ensures Parse(cfg, "", [['-', c]] + rest).items == [Plain(c as int)] + Parse(cfg, "", rest).items
  {
    hide Parse;
    var args := [['-', c]] + rest;
    assert args[0] == ['-', c] && args[1..] == rest && ['-', c][1..] == [c];
    FlagFirst(cfg, ['-', c], c, "", rest);
    assert ['-', c] + "" == ['-', c];
    assert Decode(cfg, ['-', c], [c], rest) == Decoded(Plain(c as int), "", true, false);
  }

  lemma IndexIs(s: string, c: char, i: nat)
    requires i <= |s| && (i < |s| ==> s[i] == c) && forall j :: 0 <= j < i ==> s[j] != c
    ensures IndexOf(s, c) == i
  {
  }

  /**
   What is reported of an element with one option, and nothing behind it: a flag, an illegal one, or one without its
   argument.
  */
  lemma LastOption(cfg: Config, c: char)
    requires cfg.longopts == None && c != '-' && c != ':'
    ensures c !in cfg.optstring ==> Parse(cfg, "", [['-', c]]).items == [Plain(BAD).(badChar := Some(c))]
    ensures c in cfg.optstring && !ColonAt(cfg.optstring, IndexOf(cfg.optstring, c) + 1) ==>
              Parse(cfg, "", [['-', c]]).items == [Plain(c as int)]
    ensures Requires(cfg.optstring, c) ==>
              Parse(cfg, "", [['-', c]]).items
                  == [Plain(if ColonAt(cfg.optstring, 0) then MISSING else BAD).(badChar := Some(c))]
  {
    hide IndexOf;
    var e, none: seq<string> := ['-', c], [];
    assert [e][1..] == none && e[1..] == [c] && [c][1..] == "";
    var d := DecodeShort(cfg, [c], none);
    assert Decode(cfg, e, [c], none) == d && Used(d) == 1 && d.text == "";
    assert Parse(cfg, "", none).items == [];
    assert Parse(cfg, [c], [e]).items == [d.item];
  }

  /** With "+a", a later "-+" is an option called '+' and not an illegal one. */
  lemma SignIsOption()
    ensures var cfg := Config(RequireOrder, ['a'], None, false);
            && Parse(cfg, "", [['-', 'a']] + [['-', '+']]).items
                 == [Plain('a' as int), Plain(BAD).(badChar := Some('+'))]
            && Whole(cfg, Signed(cfg, '+'), [['-', 'a']] + [['-', '+']]).2 == [Plain('a' as int), Plain('+' as int)]
  {
    hide Parse, Whole, IndexOf;
    var cfg := Config(RequireOrder, ['a'], None, false);
    IndexIs(['a'], 'a', 0);
    FlagThenRest(cfg, Signed(cfg, '+'), 'a', [['-', '+']]);
    LastOption(cfg, '+');
    IndexSigned(['a'], '+', '+');
    LastOption(Signed(cfg, '+'), '+');
  }

  /**
   With "-:ab:", a missing argument is reported as an illegal option later on, though ':' asks for a code of its own.
  */
  lemma ColonIsLost()
    ensures var cfg := Config(ReturnInOrder, [':', 'a', 'b', ':'], None, false);
            && Parse(cfg, "", [['-', 'a']] + [['-', 'b']]).items
                 == [Plain('a' as int), Plain(MISSING).(badChar := Some('b'))]
            && Whole(cfg, Signed(cfg, '-'), [['-', 'a']] + [['-', 'b']]).2
                 == [Plain('a' as int), Plain(BAD).(badChar := Some('b'))]
  {
    hide Parse, Whole, IndexOf;
    var cfg := Config(ReturnInOrder, [':', 'a', 'b', ':'], None, false);
    IndexIs(cfg.optstring, 'a', 1);
    IndexIs(cfg.optstring, 'b', 2);
    FlagThenRest(cfg, Signed(cfg, '-'), 'a', [['-', 'b']]);
    LastOption(cfg, 'b');
    IndexSigned(cfg.optstring, '-', 'b');
    LastOption(Signed(cfg, '-'), 'b');
  }

  /** With "-:a", the sign has become an option that takes an argument. */
  lemma SignTakesArgument()
    ensures var cfg := Config(ReturnInOrder, [':', 'a'], None, false);
            && Parse(cfg, "", [['-', 'a']] + [['-', '-', 'x']]).items
            == [Plain('a' as int), Plain(BAD).(badChar := Some('-')), Plain(BAD).(badChar := Some('x'))]
            && Whole(cfg, Signed(cfg, '-'), [['-', 'a']] + [['-', '-', 'x']]).2
            == [Plain('a' as int), Plain('-' as int).(arg := Some(['x']))]
  {
    hide Parse, Whole, IndexOf;
    var cfg := Config(ReturnInOrder, [':', 'a'], None, false);
    IndexIs(cfg.optstring, 'a', 1);
    IndexIs(cfg.optstring, '-', 2);
    IndexIs(cfg.optstring, 'x', 2);
    FlagThenRest(cfg, Signed(cfg, '-'), 'a', [['-', '-', 'x']]);
    TwoIllegal(cfg, '-', 'x');
    IndexSigned(cfg.optstring, '-', '-');
    WithArgument(Signed(cfg, '-'), '-', 'x');
  }

  lemma TwoIllegal(cfg: Config, c: char, b: char)
    requires cfg.longopts == None && c !in cfg.optstring && b !in cfg.optstring
    ensures Parse(cfg, "", [['-', c, b]]).items == [Plain(BAD).(badChar := Some(c)), Plain(BAD).(badChar := Some(b))]
  {
    hide IndexOf;
    var e, none: seq<string> := ['-', c, b], [];
    assert [e][1..] == none && [e][0..] == [e] && e[1..] == [c, b] && [c, b][1..] == [b] && [b][1..] == "";
    assert Decode(cfg, e, [b], none) == Decoded(Plain(BAD).(badChar := Some(b)), "", true, false);
    assert Parse(cfg, [b], [e]).items == [Plain(BAD).(badChar := Some(b))];
    assert Decode(cfg, e, [c, b], none) == Decoded(Plain(BAD).(badChar := Some(c)), [b], false, false);
    assert Parse(cfg, [c, b], [e]).items == [Plain(BAD).(badChar := Some(c))] + [Plain(BAD).(badChar := Some(b))];
  }

  lemma WithArgument(cfg: Config, c: char, b: char)
    requires cfg.longopts == None && Requires(cfg.optstring, c)
    ensures Parse(cfg, "", [['-', c, b]]).items == [Plain(c as int).(arg := Some([b]))]
  {
    hide IndexOf;
    var e, none: seq<string> := ['-', c, b], [];
    assert [e][1..] == none && e[1..] == [c, b] && [c, b][1..] == [b];
    assert Decode(cfg, e, [c, b], none) == Decoded(Plain(c as int).(arg := Some([b])), "", true, false);
    assert Parse(cfg, "", none).items == [];
    assert Parse(cfg, [c, b], [e]).items == [Plain(c as int).(arg := Some([b]))];
  }
}
