/**
 What the one-pass parser reports of each kind of option, said of the argument vector and the option tables
 themselves: which option a name selects, where its argument stands, and what is reported if something is wrong.
*/
module GetoptMeaning {
  import opened Getopt
  import opened GetoptSpec
  import opened Options

  /** `name` is the name of option i, of the first one so called, or an abbreviation of that option's name only. */
  ghost predicate Selects(opts: seq<LongOption>, name: string, i: nat) {
    && i < |opts| && name <= opts[i].name
    && forall j :: 0 <= j < |opts| && j != i ==>
         if opts[i].name == name then j < i ==> opts[j].name != name else !(name <= opts[j].name)
  }

  /** `name` is an abbreviation of two names and not itself a name, or an abbreviation of none. */
  ghost predicate SelectsNone(opts: seq<LongOption>, name: string) {
    && (forall i :: 0 <= i < |opts| ==> opts[i].name != name)
    && ((exists i, j :: 0 <= i < j < |opts| && name <= opts[i].name && name <= opts[j].name)
        || forall i :: 0 <= i < |opts| ==> !(name <= opts[i].name))
  }

  /** An element that begins so, with a name behind, is a long option: one dash will do for getopt_long_only. */
  predicate LongDashes(cfg: Config, dashes: string, name: string) {
    && cfg.longopts.Some? && '=' !in name
    && (dashes == "--" || (cfg.longOnly && dashes == "-" && (name == "" || name[0] != '-')))
  }

  /** The error code for a missing argument. */
  function Lacking(cfg: Config): char {
    if cfg.optstring != "" && cfg.optstring[0] == ':' then ':' else '?'
  }

  function Hit(o: LongOption, i: nat, arg: Option<string>): Item {
    if o.flag.Some? then Item(0, arg, None, Some(i), Some((o.flag.value, o.val)))
    else Item(o.val, arg, None, Some(i), None)
  }

  /** The first `n` elements are used up for `item`, then the rest is parsed. */
  ghost predicate ReportsFirst(cfg: Config, args: seq<string>, item: Item, n: nat)
    requires n <= |args|
  {
    var p, q := Parse(cfg, "", args), Parse(cfg, "", args[n..]);
    && p.items == [item] + q.items
    && |p.consumed| == n + |q.consumed|
    && (forall k :: 0 <= k < n ==> p.consumed[k])
    && p.consumed[n..] == q.consumed
  }

  // ------------------------------------------------------------ long options

  lemma NameEndsThere(name: string, tail: string)
    requires '=' !in name && (tail == "" || tail[0] == '=')
    ensures NameEnd(name + tail) == |name| && (name + tail)[..|name|] == name
  {
    var t := name + tail;
    var n := NameEnd(t);
    assert forall k :: 0 <= k < |name| ==> t[k] == name[k];
    assert forall k :: 0 <= k < n ==> t[k] == t[..n][k];
    assert tail != "" ==> t[|name|] == '=';
  }

  lemma Selected(opts: seq<LongOption>, name: string, i: nat)
    requires Selects(opts, name, i)
    ensures Lookup(opts, name) == Found(i)
  {
    MatchIsUnique(opts, name, Lookup(opts, name), Found(i));
  }

  lemma SelectedNone(opts: seq<LongOption>, name: string)
    requires SelectsNone(opts, name)
    ensures !Lookup(opts, name).Found?
    ensures (exists i :: 0 <= i < |opts| && name <= opts[i].name) ==> Lookup(opts, name).Ambiguous?
  {
    assert forall i :: 0 <= i < |opts| ==> Prefix(name, opts[i]) == (name <= opts[i].name);
  }

  /** The parser reads such an element as a long option of that name. */
  lemma ReadsLong(cfg: Config, dashes: string, name: string, tail: string, args: seq<string>, d: Decoded)
    requires LongDashes(cfg, dashes, name) && (tail == "" || tail[0] == '=') && name + tail != ""
    requires args != [] && args[0] == dashes + name + tail
    requires Some(d) == DecodeLong(cfg, args[0], name + tail, args[1..])
    requires d.text == "" && d.elementDone
    ensures Used(d) <= |args| && ReportsFirst(cfg, args, d.item, Used(d))
  {
    hide DecodeLong;
    var e := args[0];
    assert e[..|dashes|] == dashes && e[|dashes|..] == name + tail;
    assert Start(cfg, e) == name + tail;
    assert Decode(cfg, e, name + tail, args[1..]) == d;
    var q := Parse(cfg, "", args[Used(d)..]);
    var p := Parse(cfg, name + tail, args);
    assert p == Outcome([d.item] + q.items, seq(Used(d), i => true) + q.consumed);
    assert Parse(cfg, "", args) == p;
    assert p.consumed[Used(d)..] == q.consumed;
  }

  /** --name=argument, for an option that may have one: everything behind the first '=' is the argument. */
  lemma LongAttached(cfg: Config, dashes: string, name: string, argument: string, i: nat, rest: seq<string>)
    requires LongDashes(cfg, dashes, name) && Selects(cfg.longopts.value, name, i)
    requires cfg.longopts.value[i].hasArg != 0
    ensures ReportsFirst(cfg, [dashes + name + "=" + argument] + rest,
                         Hit(cfg.longopts.value[i], i, Some(argument)), 1)
  {
    var tail, o := "=" + argument, cfg.longopts.value[i];
    var args := [dashes + name + "=" + argument] + rest;
    assert args[0] == dashes + name + tail && args[1..] == rest;
    NameEndsThere(name, tail);
    Selected(cfg.longopts.value, name, i);
    assert (name + tail)[|name| + 1..] == argument;
    ReadsLong(cfg, dashes, name, tail, args, Decoded(Hit(o, i, Some(argument)), "", true, false));
  }

  /** --name, and the next element is the argument, whatever it looks like. */
  lemma LongTakesNext(cfg: Config, dashes: string, name: string, argument: string, i: nat, rest: seq<string>)
    requires LongDashes(cfg, dashes, name) && name != "" && Selects(cfg.longopts.value, name, i)
    requires cfg.longopts.value[i].hasArg == 1
    ensures ReportsFirst(cfg, [dashes + name, argument] + rest, Hit(cfg.longopts.value[i], i, Some(argument)), 2)
  {
    var o, args := cfg.longopts.value[i], [dashes + name, argument] + rest;
    assert args[0] == dashes + name + "" && args[1..][0] == argument;
    NameEndsThere(name, "");
    Selected(cfg.longopts.value, name, i);
    assert name + "" == name;
    ReadsLong(cfg, dashes, name, "", args, Decoded(Hit(o, i, Some(argument)), "", true, true));
  }

  /** --name, for an option whose argument is not required: it is reported without one. */
  lemma LongBare(cfg: Config, dashes: string, name: string, i: nat, rest: seq<string>)
    requires LongDashes(cfg, dashes, name) && name != "" && Selects(cfg.longopts.value, name, i)
    requires cfg.longopts.value[i].hasArg != 1
    ensures ReportsFirst(cfg, [dashes + name] + rest, Hit(cfg.longopts.value[i], i, None), 1)
  {
    var o, args := cfg.longopts.value[i], [dashes + name] + rest;
    assert args[0] == dashes + name + "" && args[1..] == rest;
    NameEndsThere(name, "");
    Selected(cfg.longopts.value, name, i);
    assert name + "" == name;
    ReadsLong(cfg, dashes, name, "", args, Decoded(Hit(o, i, None), "", true, false));
  }

  /** --name=argument for an option that has none is an error, and so is --name at the end for one that requires one. */
  lemma LongMistaken(cfg: Config, dashes: string, name: string, argument: string, i: nat, rest: seq<string>)
    requires LongDashes(cfg, dashes, name) && Selects(cfg.longopts.value, name, i)
    ensures cfg.longopts.value[i].hasArg == 0 ==>
              ReportsFirst(cfg, [dashes + name + "=" + argument] + rest, Item('?' as int, None, None, None, None), 1)
    ensures name != "" && cfg.longopts.value[i].hasArg == 1 ==>
              ReportsFirst(cfg, [dashes + name], Item(Lacking(cfg) as int, None, None, None, None), 1)
  {
    var tail, o := "=" + argument, cfg.longopts.value[i];
    Selected(cfg.longopts.value, name, i);
    if o.hasArg == 0 {
      var args := [dashes + name + "=" + argument] + rest;
      assert args[0] == dashes + name + tail;
      NameEndsThere(name, tail);
      ReadsLong(cfg, dashes, name, tail, args, Decoded(Item('?' as int, None, None, None, None), "", true, false));
    } else if name != "" && o.hasArg == 1 {
      var args := [dashes + name];
      assert args[0] == dashes + name + "" && args[1..] == [];
      NameEndsThere(name, "");
      assert name + "" == name;
      ReadsLong(cfg, dashes, name, "", args,
                Decoded(Item(Lacking(cfg) as int, None, None, None, None), "", true, false));
    }
  }

  /**
   A name that is ambiguous or of no option is an error, unless no option's name begins so and one dash stands before
   a letter of the option string: that is read as a short option.
  */
  lemma LongUnknown(cfg: Config, dashes: string, name: string, tail: string, rest: seq<string>)
    requires LongDashes(cfg, dashes, name) && (tail == "" || tail[0] == '=') && name + tail != ""
    requires SelectsNone(cfg.longopts.value, name)
    requires dashes == "--" || (name + tail)[0] !in cfg.optstring
             || exists i :: 0 <= i < |cfg.longopts.value| && name <= cfg.longopts.value[i].name
    ensures ReportsFirst(cfg, [dashes + name + tail] + rest, Item('?' as int, None, None, None, None), 1)
  {
    var args := [dashes + name + tail] + rest;
    NameEndsThere(name, tail);
    SelectedNone(cfg.longopts.value, name);
    ReadsLong(cfg, dashes, name, tail, args, Decoded(Item('?' as int, None, None, None, None), "", true, false));
  }

  // ----------------------------------------------------------- short options

  /** `c` is declared at index k of the option string. */
  predicate Letter(optstring: string, c: char, k: nat) {
    k < |optstring| && optstring[k] == c && c !in optstring[..k] && c != ':'
  }

  /** `c` is declared there with an argument. */
  predicate Declared(optstring: string, c: char, k: nat) {
    Letter(optstring, c, k) && k + 1 < |optstring| && optstring[k + 1] == ':'
  }

  /** The argument of the option at index k is optional. */
  predicate Optional(optstring: string, k: nat) {
    k + 2 < |optstring| && optstring[k + 2] == ':'
  }

  /** A letter that is no option, or one without an argument. */
  ghost predicate Simple(optstring: string, c: char) {
    || c == ':' || c !in optstring
    || exists k: nat :: Letter(optstring, c, k) && (k + 1 == |optstring| || optstring[k + 1] != ':')
  }

  function SimpleItem(optstring: string, c: char): Item {
    if c == ':' || c !in optstring then Item('?' as int, None, Some(c), None, None)
    else Item(c as int, None, None, None, None)
  }

  /** The letters of `e` up to index n are read as short options: no long option is tried, or none begins so. */
  ghost predicate Letters(cfg: Config, e: string, n: nat) {
    && |e| >= 2 && e[0] == '-' && e != "--" && n < |e|
    && (cfg.longopts.Some? ==> e[1] != '-')
    && (cfg.longopts.Some? && cfg.longOnly ==> forall m :: 1 <= m <= n ==> NoneBegins(cfg, e[m..]))
  }

  ghost predicate NoneBegins(cfg: Config, text: string)
    requires cfg.longopts.Some? && text != ""
  {
    && text[0] in cfg.optstring
    && forall j, name :: 0 <= j < |cfg.longopts.value| && '=' !in name && (name == text || name + "=" <= text)
         ==> !(name <= cfg.longopts.value[j].name)
  }

  /** A cluster: simple letters, each reported by itself, then `item`, and `n` elements are used up. */
  ghost predicate ReportsCluster(cfg: Config, args: seq<string>, letters: string, item: Item, n: nat)
    requires n <= |args|
  {
    BeginsWith(Parse(cfg, "", args), Parse(cfg, "", args[n..]), cfg.optstring, letters, item, n)
  }

  ghost predicate BeginsWith(p: Outcome, q: Outcome, optstring: string, letters: string, item: Item, n: nat) {
    var l := |letters|;
    && |p.items| == l + 1 + |q.items|
    && (forall k :: 0 <= k < l ==> p.items[k] == SimpleItem(optstring, letters[k]))
    && p.items[l] == item && p.items[l + 1..] == q.items
    && |p.consumed| == n + |q.consumed|
    && (forall k :: 0 <= k < n ==> p.consumed[k])
    && p.consumed[n..] == q.consumed
  }

  lemma IndexIs(optstring: string, c: char, k: nat)
    requires Letter(optstring, c, k)
    ensures IndexOf(optstring, c) == k
  {
    var i := IndexOf(optstring, c);
    assert forall j :: 0 <= j < k ==> optstring[j] == optstring[..k][j];
  }

  lemma ReadsShort(cfg: Config, e: string, n: nat, after: seq<string>)
    requires Letters(cfg, e, n) && 1 <= n
    ensures Decode(cfg, e, e[n..], after) == DecodeShort(cfg, e[n..], after)
  {
    hide DecodeShort;
    var text := e[n..];
    if TriesLong(cfg, e) {
      assert NoneBegins(cfg, text);
      var name := text[..NameEnd(text)];
      assert name == text || name + "=" == text[..|name| + 1];
      var m := Lookup(cfg.longopts.value, name);
      assert m.NoMatch?;
    }
  }

  lemma FewerLetters(cfg: Config, e: string, n: nat, stop: nat)
    requires Letters(cfg, e, stop) && n <= stop
    ensures |e| > stop && !IsOperand(e) && Letters(cfg, e, n)
  {
  }

  /** From index n of the element on: the simple letters, then what the one at `stop` comes to. */
  lemma {:induction false} ReadsCluster(cfg: Config, args: seq<string>, n: nat, stop: nat, d: Decoded)
    requires args != [] && Letters(cfg, args[0], stop) && 1 <= n <= stop
    requires forall k :: n <= k < stop ==> Simple(cfg.optstring, args[0][k])
    requires d == DecodeShort(cfg, args[0][stop..], args[1..]) && d.text == "" && d.elementDone && Used(d) <= |args|
    ensures BeginsWith(Parse(cfg, args[0][n..], args), Parse(cfg, "", args[Used(d)..]), cfg.optstring,
                       args[0][n..stop], d.item, Used(d))
    decreases stop - n
  {
    hide Decode, Letters, Simple, DecodeShort, BeginsWith, SimpleItem;
    var e := args[0];
    FewerLetters(cfg, e, n, stop);
    ReadsShort(cfg, e, n, args[1..]);
    var q := Parse(cfg, "", args[Used(d)..]);
    if n == stop {
      ParseOne(cfg, e[n..], args, d);
      OneBegins(Parse(cfg, e[n..], args), q, cfg.optstring, e[n..stop], d);
    } else {
      var d' := Decoded(SimpleItem(cfg.optstring, e[n]), e[n + 1..], false, false);
      assert Simple(cfg.optstring, e[n]) && e[n..][1..] == e[n + 1..];
      SimpleDecoded(cfg, e[n..], args[1..]);
      ReadsCluster(cfg, args, n + 1, stop, d);
      ParseOne(cfg, e[n..], args, d');
      assert args[0..] == args;
      var p := Parse(cfg, e[n + 1..], args);
      OneMoreBegins(Parse(cfg, e[n..], args), p, q, cfg.optstring, e[n..stop], e[n + 1..stop], d);
    }
  }

  lemma OneBegins(p: Outcome, q: Outcome, optstring: string, letters: string, d: Decoded)
    requires p == Outcome([d.item] + q.items, seq(Used(d), i => true) + q.consumed) && letters == ""
    ensures BeginsWith(p, q, optstring, letters, d.item, Used(d))
  {
  }

  lemma OneMoreBegins(p: Outcome, p': Outcome, q: Outcome, optstring: string, letters: string, rest: string, d: Decoded)
    requires letters != "" && rest == letters[1..] && BeginsWith(p', q, optstring, rest, d.item, Used(d))
    requires p == Outcome([SimpleItem(optstring, letters[0])] + p'.items, seq(0, i => true) + p'.consumed)
    ensures BeginsWith(p, q, optstring, letters, d.item, Used(d))
  {
    hide SimpleItem;
    assert p.consumed == p'.consumed;
    assert forall k :: 1 <= k < |letters| ==> p.items[k] == p'.items[k - 1] && letters[k] == rest[k - 1];
    assert p.items[|letters| + 1..] == p'.items[|rest| + 1..];
  }

  lemma ParseOne(cfg: Config, text: string, args: seq<string>, d: Decoded)
    requires text != "" && args != [] && !IsOperand(args[0]) && Decode(cfg, args[0], text, args[1..]) == d
    ensures Used(d) <= |args| && (d.text != "" ==> Used(d) == 0)
    ensures var q := Parse(cfg, d.text, args[Used(d)..]);
            Parse(cfg, text, args) == Outcome([d.item] + q.items, seq(Used(d), i => true) + q.consumed)
  {
  }

  lemma SimpleDecoded(cfg: Config, text: string, after: seq<string>)
    requires text != "" && Simple(cfg.optstring, text[0])
    ensures DecodeShort(cfg, text, after)
         == Decoded(SimpleItem(cfg.optstring, text[0]), text[1..], text[1..] == "", false)
  {
    var c := text[0];
    if c != ':' && c in cfg.optstring {
      var k: nat :| Letter(cfg.optstring, c, k) && (k + 1 == |cfg.optstring| || cfg.optstring[k + 1] != ':');
      IndexIs(cfg.optstring, c, k);
    }
  }

  /** The same for the whole vector. */
  lemma ReadsElement(cfg: Config, args: seq<string>, letters: string, c: char, tail: string, d: Decoded)
    requires args != [] && args[0] == "-" + letters + [c] + tail && Letters(cfg, args[0], 1 + |letters|)
    requires forall k :: 0 <= k < |letters| ==> Simple(cfg.optstring, letters[k])
    requires d == DecodeShort(cfg, [c] + tail, args[1..]) && d.text == "" && d.elementDone && Used(d) <= |args|
    ensures ReportsCluster(cfg, args, letters, d.item, Used(d))
  {
    hide Decode, DecodeShort, Simple, BeginsWith, SimpleItem;
    var e, stop := args[0], 1 + |letters|;
    assert e[stop..] == [c] + tail && e[1..stop] == letters;
    assert forall k :: 1 <= k < stop ==> e[k] == letters[k - 1];
    ReadsCluster(cfg, args, 1, stop, d);
    assert Start(cfg, e) == e[1..];
    assert Parse(cfg, "", args) == Parse(cfg, e[1..], args);
  }

  /** An option without an argument, or a letter that is no option, at the end of its element. */
  lemma ShortLast(cfg: Config, letters: string, c: char, rest: seq<string>)
    requires Letters(cfg, "-" + letters + [c], 1 + |letters|)
    requires forall k :: 0 <= k < |letters| ==> Simple(cfg.optstring, letters[k])
    requires Simple(cfg.optstring, c)
    ensures ReportsCluster(cfg, ["-" + letters + [c]] + rest, letters, SimpleItem(cfg.optstring, c), 1)
  {
    var e, args := "-" + letters + [c], ["-" + letters + [c]] + rest;
    assert args[0] == e == e + "" && [c] + "" == [c] && [c][1..] == "";
    SimpleDecoded(cfg, [c], args[1..]);
    ReadsElement(cfg, args, letters, c, "", Decoded(SimpleItem(cfg.optstring, c), "", true, false));
  }

  /** Everything behind the letter of an option that may have an argument is its argument. */
  lemma ShortAttached(cfg: Config, letters: string, c: char, k: nat, argument: string, rest: seq<string>)
    requires argument != "" && Letters(cfg, "-" + letters + [c] + argument, 1 + |letters|)
    requires forall k :: 0 <= k < |letters| ==> Simple(cfg.optstring, letters[k])
    requires Declared(cfg.optstring, c, k)
    ensures ReportsCluster(cfg, ["-" + letters + [c] + argument] + rest, letters,
                           Item(c as int, Some(argument), None, None, None), 1)
  {
    var args := ["-" + letters + [c] + argument] + rest;
    IndexIs(cfg.optstring, c, k);
    assert ([c] + argument)[1..] == argument;
    ReadsElement(cfg, args, letters, c, argument,
                 Decoded(Item(c as int, Some(argument), None, None, None), "", true, false));
  }

  /** With nothing behind its letter, a required argument is the next element, whatever it looks like. */
  lemma ShortTakesNext(cfg: Config, letters: string, c: char, k: nat, argument: string, rest: seq<string>)
    requires Letters(cfg, "-" + letters + [c], 1 + |letters|)
    requires forall k :: 0 <= k < |letters| ==> Simple(cfg.optstring, letters[k])
    requires Declared(cfg.optstring, c, k) && !Optional(cfg.optstring, k)
    ensures ReportsCluster(cfg, ["-" + letters + [c], argument] + rest, letters,
                           Item(c as int, Some(argument), None, None, None), 2)
  {
    var e, args := "-" + letters + [c], ["-" + letters + [c], argument] + rest;
    assert args[0] == e == e + "" && [c] + "" == [c] && [c][1..] == "" && args[1..][0] == argument;
    IndexIs(cfg.optstring, c, k);
    ReadsElement(cfg, args, letters, c, "", Decoded(Item(c as int, Some(argument), None, None, None), "", true, true));
  }

  /** An optional argument is never the next element, and a required one that is missing is an error. */
  lemma ShortWithout(cfg: Config, letters: string, c: char, k: nat, rest: seq<string>)
    requires Letters(cfg, "-" + letters + [c], 1 + |letters|)
    requires forall k :: 0 <= k < |letters| ==> Simple(cfg.optstring, letters[k])
    requires Declared(cfg.optstring, c, k)
    ensures Optional(cfg.optstring, k) ==>
              ReportsCluster(cfg, ["-" + letters + [c]] + rest, letters, Item(c as int, None, None, None, None), 1)
    ensures !Optional(cfg.optstring, k) ==>
              ReportsCluster(cfg, ["-" + letters + [c]], letters,
                             Item(Lacking(cfg) as int, None, Some(c), None, None), 1)
  {
    var e, args := "-" + letters + [c], ["-" + letters + [c]];
    assert e == e + "" && [c] + "" == [c] && [c][1..] == "";
    IndexIs(cfg.optstring, c, k);
    if Optional(cfg.optstring, k) {
      assert (args + rest)[0] == e;
      ReadsElement(cfg, args + rest, letters, c, "", Decoded(Item(c as int, None, None, None, None), "", true, false));
    } else {
      ReadsElement(cfg, args, letters, c, "",
                   Decoded(Item(Lacking(cfg) as int, None, Some(c), None, None), "", true, false));
    }
  }

  // ---------------------------------------------------------------- operands

  /** An element that is no option comes to what the ordering says. */
  lemma OperandMeans(cfg: Config, operand: string, rest: seq<string>)
    requires |operand| < 2 || operand[0] != '-'
    ensures var p, q := Parse(cfg, "", [operand] + rest), Parse(cfg, "", rest);
            match cfg.ordering
            case RequireOrder => p.items == [] && forall k :: 0 <= k <= |rest| ==> !p.consumed[k]
            case Permute => p.items == q.items && p.consumed == [false] + q.consumed
            case ReturnInOrder => ReportsFirst(cfg, [operand] + rest, Item(1, Some(operand), None, None, None), 1)
  {
    var args := [operand] + rest;
    assert args[0] == operand && args[1..] == rest;
    assert cfg.ordering == ReturnInOrder ==> Parse(cfg, "", args).consumed[1..] == Parse(cfg, "", rest).consumed;
  }

  /** Nothing is reported at the end of the vector, nor behind "--", which is used up and no more. */
  lemma NothingBehind(cfg: Config, rest: seq<string>)
    ensures Parse(cfg, "", []).items == []
    ensures var p := Parse(cfg, "", ["--"] + rest);
            p.items == [] && p.consumed[0] && forall k :: 1 <= k <= |rest| ==> !p.consumed[k]
  {
    assert (["--"] + rest)[0] == "--";
  }

  /**
   What a whole run makes of an operand in front, by the sign of the option string and the environment: it ends the
   run, is reported with code 1, or is set aside as the first of the operands.
  */
  lemma OrderingMeans(optstring: string, longopts: Option<seq<LongOption>>, longOnly: bool, posixlyCorrect: bool,
                      operand: string, rest: seq<string>)
    requires |operand| < 2 || operand[0] != '-'
    ensures var ordering := OrderingFor(optstring, posixlyCorrect);
            var w := Whole(Config(ordering, Unsigned(optstring), longopts, longOnly),
                           Config(ordering, optstring, longopts, longOnly), [operand] + rest);
            if optstring != "" && optstring[0] == '-' then
              w.0 != [] && w.0[0] == operand && w.2 != [] && w.2[0] == Item(1, Some(operand), None, None, None)
            else if (optstring != "" && optstring[0] == '+') || posixlyCorrect then
              w == ([], [operand] + rest, [])
            else
              w.1 != [] && w.1[0] == operand
  {
    var ordering, args := OrderingFor(optstring, posixlyCorrect), [operand] + rest;
    assert args[0] == operand;
    var first := Config(ordering, Unsigned(optstring), longopts, longOnly);
    if ordering == Permute {
      OperandAside(first, first.(optstring := optstring), args);
    } else {
      OperandStops(first, first.(optstring := optstring), args);
    }
  }

  lemma OperandAside(first: Config, later: Config, args: seq<string>)
    requires first.ordering == Permute && args != [] && (|args[0]| < 2 || args[0][0] != '-')
    ensures var w := Whole(first, later, args); w.1 != [] && w.1[0] == args[0]
  {
    hide Decode, Parse, Select;
    var v := Next(first, View([], [], "", args)).0;
    assert LeadingOperands(args) >= 1;
    assert v.aside != [] && v.aside[0] == args[0];
  }

  lemma OperandStops(first: Config, later: Config, args: seq<string>)
    requires first.ordering != Permute && args != [] && (|args[0]| < 2 || args[0][0] != '-')
    ensures var w := Whole(first, later, args);
            if first.ordering == RequireOrder then w == ([], args, [])
            else w.0 != [] && w.0[0] == args[0] && w.2 != [] && w.2[0] == Item(1, Some(args[0]), None, None, None)
  {
    hide Decode, Parse, Select;
    assert [] + args == args;
  }
}
