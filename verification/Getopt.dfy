/**
 The resumable scanner of finch/getopt.c: globals that survive between calls, and an argument vector permuted in
 place. A NULL `nextchar` is None; a pointer into an element is the text from there to the element's end.
*/
module Getopt {
  import opened GetoptSpec
  import opened Options
  import opened GetoptProofs

  /** `s` with the elements from `to` on overwritten by `block`. */
  function Overwritten<T>(s: seq<T>, to: nat, block: seq<T>): seq<T>
    requires to + |block| <= |s|
  {
    s[..to] + block + s[to + |block|..]
  }

  /** my_bcopy: copies front to back, so source and destination may overlap if `to` is not behind `from`. */
  method BCopy(src: array<string>, from: nat, dst: array<string>, to: nat, size: nat)
    requires from + size <= src.Length && to + size <= dst.Length
    requires src != dst || to <= from
    modifies dst
    ensures dst[..] == Overwritten(old(dst[..]), to, old(src[..])[from..from + size])
  {
    for i := 0 to size
      invariant forall j :: to <= j < to + i ==> dst[j] == old(src[j - to + from])
      invariant forall j :: 0 <= j < dst.Length && !(to <= j < to + i) ==> dst[j] == old(dst[j])
      invariant src != dst ==> forall j :: 0 <= j < src.Length ==> src[j] == old(src[j])
    {
      dst[to + i] := src[from + i];
    }
    ghost var now, was, block := dst[..], old(dst[..]), old(src[..])[from..from + size];
    assert forall j :: to <= j < to + size ==> now[j] == block[j - to];
    assert now[..to] == was[..to] && now[to..to + size] == block && now[to + size..] == was[to + size..];
  }

  /** The loop that skips operands. */
  method PastOperands(argv: array<string>, from: nat) returns (ind: nat)
    requires from <= argv.Length
    ensures from <= ind <= argv.Length && ind - from == LeadingOperands(argv[..][from..])
  {
    ind := from;
    ghost var all := argv[..];
    while ind < argv.Length && IsOperand(argv[ind])
      invariant from <= ind <= |all|
      invariant ind - from + LeadingOperands(all[ind..]) == LeadingOperands(all[from..])
    {
      assert all[ind..][1..] == all[ind + 1..];
      ind := ind + 1;
    }
    assert ind < |all| ==> all[ind..][0] == argv[ind];
  }

  /** my_index: the position of the first `c`, None if there is none. */
  method MyIndex(s: string, c: char) returns (r: Option<nat>)
    ensures r == if c in s then Some(IndexOf(s, c)) else None
  {
    var i := 0;
    while i < |s|
      invariant i <= |s| && c !in s[..i]
    {
      if s[i] == c {
        return Some(i);
      }
      i := i + 1;
    }
    return None;
  }

  /** The scan to '=' or to the end of the option text. */
  method ScanName(text: string) returns (n: nat)
    ensures n == NameEnd(text)
  {
    n := 0;
    assert text[0..] == text;
    while n < |text| && text[n] != '='
      invariant n <= |text| && n + NameEnd(text[n..]) == NameEnd(text)
    {
      assert text[n..][1..] == text[n + 1..];
      n := n + 1;
    }
  }

  /** The table search: exact, or the only option abbreviated. */
  method LookupLong(opts: seq<LongOption>, name: string) returns (m: Match)
    ensures m == Lookup(opts, name)
  {
    var found: Option<nat> := None;
    var ambiguous, exact := false, false;
    var p := 0;
    while p < |opts|
      invariant p <= |opts| && !exact
      invariant forall j :: 0 <= j < p ==> opts[j].name != name
      invariant found.None? ==> !ambiguous && forall j :: 0 <= j < p ==> !Prefix(name, opts[j])
      invariant found.Some? ==> found.value < p && Prefix(name, opts[found.value])
      invariant found.Some? && !ambiguous ==> forall j :: 0 <= j < p && Prefix(name, opts[j]) ==> j == found.value
      invariant ambiguous ==> exists i, j :: 0 <= i < j < p && Prefix(name, opts[i]) && Prefix(name, opts[j])
    {
      if Prefix(name, opts[p]) {
        if |name| == |opts[p].name| {
          assert name == opts[p].name;
          found, exact := Some(p), true;
          break;
        } else if found.None? {
          found := Some(p);
        } else {
          ambiguous := true;
        }
      }
      p := p + 1;
    }
    m := if ambiguous && !exact then Ambiguous else if found.Some? then Found(found.value) else NoMatch;
    MatchIsUnique(opts, name, m, Lookup(opts, name));
  }

  /** What the vector and the three indices stand for between two calls. */
  ghost function At(argv: seq<string>, first: nat, last: nat, ind: nat, text: string): (v: View)
    requires 1 <= first <= last <= ind <= |argv|
    ensures v.text == text && v.rest == argv[ind..]
  {
    View(argv[1..first] + argv[last..ind], argv[first..last], text, argv[ind..])
  }

  class Scanner {
    var optarg: Option<string>
    var optind: nat
    var nextchar: Option<string>
    var ordering: Ordering
    var firstNonopt: nat
    var lastNonopt: nat
    var optopt: char
    const posixlyCorrect: bool

    constructor (posixlyCorrect: bool)
      ensures optind == 0 && this.posixlyCorrect == posixlyCorrect
    {
      this.posixlyCorrect := posixlyCorrect;
      optarg, optind, nextchar, ordering := None, 0, None, Permute;
      firstNonopt, lastNonopt, optopt := 0, 0, '?';
    }

    ghost predicate InRange(argv: seq<string>)
      reads this
    {
      1 <= firstNonopt <= lastNonopt <= optind <= |argv|
    }

    ghost function Text(): string
      reads this
    {
      if nextchar.Some? then nextchar.value else ""
    }

    /** What the globals and the vector stand for between two calls. */
    ghost function Here(argv: seq<string>): View
      reads this
      requires InRange(argv)
    {
      At(argv, firstNonopt, lastNonopt, optind, Text())
    }

    ghost predicate Valid(argv: seq<string>)
      reads this
    {
      && InRange(argv)
      && GoodView(Here(argv))
      && (ordering != Permute ==> firstNonopt == lastNonopt == 1)
    }

    /** Swaps the skipped operands with the options consumed since. */
    method Exchange(argv: array<string>)
      requires InRange(argv[..])
      modifies argv, `firstNonopt, `lastNonopt
      ensures argv[..] == Exchanged(old(argv[..]), old(firstNonopt), old(lastNonopt), optind)
      ensures firstNonopt == old(firstNonopt) + (optind - old(lastNonopt)) && lastNonopt == optind
    {
      hide Exchanged, Overwritten;
      var nonopts := lastNonopt - firstNonopt;
      var temp := new string[nonopts];
      ghost var was := argv[..];
      OverwrittenWhole(temp[..], was[firstNonopt..lastNonopt]);
      BCopy(argv, firstNonopt, temp, 0, nonopts);
      ghost var operands := was[firstNonopt..lastNonopt];
      assert temp[..] == operands;
      BCopy(argv, lastNonopt, argv, firstNonopt, optind - lastNonopt);
      assert temp[..][0..nonopts] == operands;
      BCopy(temp, 0, argv, firstNonopt + optind - lastNonopt, nonopts);
      TwoOverwrites(was, firstNonopt, lastNonopt, optind);
      firstNonopt := firstNonopt + (optind - lastNonopt);
      lastNonopt := optind;
    }

    /** Puts the options consumed since operands were skipped in front of those operands. */
    method Reorder(argv: array<string>)
      requires InRange(argv[..])
      modifies argv, `firstNonopt, `lastNonopt
      ensures argv[0] == old(argv[0]) && 1 <= firstNonopt <= optind
      ensures At(argv[..], firstNonopt, optind, optind, Text()) == old(Here(argv[..]))
    {
      ghost var was := argv[..];
      if firstNonopt != lastNonopt && lastNonopt != optind {
        ExchangeKeepsView(was, firstNonopt, lastNonopt, optind, Text());
        Exchange(argv);
      } else if lastNonopt != optind {
        JoinDone(was, firstNonopt, optind, Text());
        firstNonopt := optind;
      }
    }

    /** The PERMUTE preamble of a call: reorder, then skip the operands that follow. */
    method SkipOperands(argv: array<string>)
      requires InRange(argv[..])
      modifies argv, `firstNonopt, `lastNonopt, `optind
      ensures InRange(argv[..]) && lastNonopt == optind
      ensures argv[0] == old(argv[0]) && Here(argv[..]) == Skipped(old(Here(argv[..])))
    {
      Reorder(argv);
      var ind := PastOperands(argv, optind);
      SkipAt(argv[..], firstNonopt, optind, ind, Text());
      optind := ind;
      lastNonopt := optind;
    }

    /** "--": counts as consumed, and everything behind it is skipped. */
    method EndOptions(argv: array<string>)
      requires InRange(argv[..]) && optind < argv.Length && argv[optind] == "--"
      requires lastNonopt == optind || firstNonopt == lastNonopt
      modifies argv, `firstNonopt, `lastNonopt, `optind
      ensures InRange(argv[..]) && lastNonopt == optind == argv.Length
      ensures argv[0] == old(argv[0])
      ensures old(firstNonopt == lastNonopt) ==> argv[..] == old(argv[..])
      ensures var v := old(Here(argv[..]));
              Here(argv[..]) == View(v.done + ["--"], v.aside + v.rest[1..], v.text, [])
    {
      hide At;
      ghost var was := argv[..];
      TakeDash(was, firstNonopt, lastNonopt, optind, Text());
      optind := optind + 1;
      if firstNonopt != lastNonopt && lastNonopt != optind {
        ExchangeKeepsView(was, firstNonopt, lastNonopt, optind, Text());
        Exchange(argv);
      } else if firstNonopt == lastNonopt {
        JoinDone(was, firstNonopt, optind, Text());
        firstNonopt := optind;
      }
      RestAside(argv[..], firstNonopt, optind, Text());
      lastNonopt := argv.Length;
      optind := argv.Length;
    }

    /** The block that reads one option character. */
    method ShortOption(argv: array<string>, ghost cfg: Config, optstring: string) returns (item: Item)
      requires nextchar.Some? && nextchar.value != "" && optind < argv.Length && optarg == None
      requires cfg.optstring == optstring
      modifies `optarg, `optind, `nextchar, `optopt
      ensures var d := DecodeShort(cfg, old(nextchar.value), argv[old(optind)..][1..]);
              item == d.item && Text() == d.text && optind == old(optind) + Used(d) <= argv.Length
      ensures optarg == item.arg && (item.badChar.Some? ==> optopt == item.badChar.value)
    {
      ghost var after := argv[optind..][1..];
      assert after != [] ==> after[0] == argv[optind + 1];
      var c := nextchar.value[0];
      var more := nextchar.value[1..];
      nextchar := Some(more);
      var at := MyIndex(optstring, c);
      if more == "" {
        optind := optind + 1;
      }
      if at == None || c == ':' {
        optopt := c;
        return Item(BAD, None, Some(c), None, None);
      }
      var badChar := None;
      var code := c as int;
      if ColonAt(optstring, at.value + 1) {
        if ColonAt(optstring, at.value + 2) {
          if more != "" {
            optarg := Some(more);
            optind := optind + 1;
          } else {
            optarg := None;
          }
          nextchar := None;
        } else {
          if more != "" {
            optarg := Some(more);
            optind := optind + 1;
          } else if optind == argv.Length {
            optopt := c;
            badChar := Some(c);
            code := if ColonAt(optstring, 0) then ':' as int else '?' as int;
          } else {
            optarg := Some(argv[optind]);
            optind := optind + 1;
          }
          nextchar := None;
        }
      }
      return Item(code, optarg, badChar, None, None);
    }

    /** The block that tries the option text as a long name; None means that it is a short option after all. */
    method LongOption(argv: array<string>, cfg: Config) returns (item: Option<Item>)
      requires nextchar.Some? && nextchar.value != "" && optind < argv.Length && optarg == None
      requires !IsOperand(argv[optind]) && TriesLong(cfg, argv[optind])
      modifies `optarg, `optind, `nextchar
      ensures var d := DecodeLong(cfg, old(argv[optind]), old(nextchar.value), argv[old(optind)..][1..]);
              match d
              case None => item == None && optind == old(optind) && nextchar == old(nextchar) && optarg == None
              case Some(d) => item == Some(d.item) && Text() == d.text == "" && optarg == d.item.arg
                              && optind == old(optind) + Used(d) <= argv.Length
    {
      ghost var after := argv[optind..][1..];
      assert after != [] ==> after[0] == argv[optind + 1];
      var text := nextchar.value;
      var opts := cfg.longopts.value;
      var s := ScanName(text);
      var m := LookupLong(opts, text[..s]);
      match m {
        case Ambiguous =>
          nextchar := Some("");
          optind := optind + 1;
          return Some(Plain(BAD));
        case Found(i) =>
          var o := opts[i];
          optind := optind + 1;
          nextchar := Some("");
          if s < |text| {
            if o.hasArg != NO_ARGUMENT {
              optarg := Some(text[s + 1..]);
            } else {
              return Some(Plain(BAD));
            }
          } else if o.hasArg == REQUIRED_ARGUMENT {
            if optind < argv.Length {
              optarg := Some(argv[optind]);
              optind := optind + 1;
            } else {
              return Some(Plain(if cfg.optstring != "" && cfg.optstring[0] == ':' then MISSING else BAD));
            }
          }
          if o.flag.Some? {
            return Some(Item(0, optarg, None, Some(i), Some((o.flag.value, o.val))));
          }
          return Some(Item(o.val, optarg, None, Some(i), None));
        case NoMatch =>
          if !cfg.longOnly || argv[optind][1] == '-' || text[0] !in cfg.optstring {
            nextchar := Some("");
            optind := optind + 1;
            return Some(Plain(BAD));
          }
          return None;
      }
    }

    /** Reads the next option of argv[optind], whose unread text is `nextchar`. */
    method ReadOption(argv: array<string>, cfg: Config) returns (item: Item)
      requires InRange(argv[..]) && optind < argv.Length && optarg == None
      requires nextchar.Some? && nextchar.value != "" && GoodView(Here(argv[..]))
      modifies `optarg, `optind, `nextchar, `optopt
      ensures InRange(argv[..]) && optarg == item.arg
      ensures var v := old(Here(argv[..]));
              (Here(argv[..]), Some(item)) == Reading(cfg, v)
    {
      hide At, DecodeShort, DecodeLong, AtEof;
      ghost var v := Here(argv[..]);
      ghost var d := Decode(cfg, v.rest[0], v.text, v.rest[1..]);
      ConsumedAt(argv[..], firstNonopt, lastNonopt, optind, Text(), d);
      assert argv[optind..] == v.rest;
      if cfg.longopts.Some? && (argv[optind][1] == '-' || cfg.longOnly) {
        var long := LongOption(argv, cfg);
        if long.Some? {
          return long.value;
        }
      }
      item := ShortOption(argv, cfg, cfg.optstring);
    }

    /** The block that runs on the first call only; what is left of the option string is for this call only. */
    method Initialize(argv: array<string>, optstring: string) returns (rest: string)
      requires argv.Length >= 1 && (optind != 0 ==> Valid(argv[..]))
      modifies `optind, `firstNonopt, `lastNonopt, `nextchar, `ordering
      ensures Valid(argv[..])
      ensures Here(argv[..]) == if old(optind) == 0 then View([], [], "", argv[..][1..]) else old(Here(argv[..]))
      ensures ordering == if old(optind) == 0 then OrderingFor(optstring, posixlyCorrect) else old(ordering)
      ensures rest == if old(optind) == 0 then Unsigned(optstring) else optstring
    {
      rest := optstring;
      if optind == 0 {
        firstNonopt, lastNonopt, optind := 1, 1, 1;
        nextchar := None;
        if optstring != "" && optstring[0] == '-' {
          ordering := ReturnInOrder;
          rest := optstring[1..];
        } else if optstring != "" && optstring[0] == '+' {
          ordering := RequireOrder;
          rest := optstring[1..];
        } else if posixlyCorrect {
          ordering := RequireOrder;
        } else {
          ordering := Permute;
        }
      }
    }

    /**
     Between elements, past the operands that were skipped: handles "--" and the end of the vector.
     An operand is handed over as it is, for an option element `nextchar` is set up.
    */
    method NextElement(argv: array<string>, cfg: Config) returns (eof: bool, operand: Option<string>)
      requires InRange(argv[..]) && Text() == "" && cfg.ordering == ordering
      requires if ordering == Permute then lastNonopt == optind else firstNonopt == lastNonopt == 1
      modifies argv, `firstNonopt, `lastNonopt, `optind, `nextchar
      ensures argv[0] == old(argv[0]) && (old(firstNonopt == lastNonopt) ==> argv[..] == old(argv[..]))
      ensures eof <==> AtEnd(cfg, old(Here(argv[..])).rest)
      ensures eof ==> AtEof(argv[..], optind, Ended(old(Here(argv[..]))))
      ensures !eof ==> InRange(argv[..]) && firstNonopt == old(firstNonopt) && lastNonopt == old(lastNonopt)
      ensures !eof ==> var s := old(Here(argv[..])); operand == if IsOperand(s.rest[0]) then Some(s.rest[0]) else None
      ensures !eof && operand.Some? ==>
                var s := old(Here(argv[..]));
                nextchar == old(nextchar) && Here(argv[..]) == s.(done := s.done + s.rest[..1], rest := s.rest[1..])
      ensures !eof && operand.None? ==>
                var s := old(Here(argv[..]));
                nextchar == Some(Start(cfg, s.rest[0])) && Here(argv[..]) == s.(text := Start(cfg, s.rest[0]))
    {
      hide At, AtEof;
      operand := None;
      ghost var s := Here(argv[..]);
      if optind != argv.Length && argv[optind] == "--" {
        EndOptions(argv);
        eof := true;
      } else {
        eof := optind == argv.Length || (IsOperand(argv[optind]) && ordering == RequireOrder);
      }
      if eof {
        EofAt(argv[..], firstNonopt, lastNonopt, optind, Text());
        if optind == argv.Length && firstNonopt != lastNonopt {
          optind := firstNonopt;
        }
      } else if IsOperand(argv[optind]) {
        ConsumedAt(argv[..], firstNonopt, lastNonopt, optind, Text(), Decoded(Plain(1), "", true, false));
        operand := Some(argv[optind]);
        optind := optind + 1;
      } else {
        AtText(argv[..], firstNonopt, lastNonopt, optind, Text(), Start(cfg, argv[optind]));
        nextchar := Some(argv[optind][if cfg.longopts.Some? && argv[optind][1] == '-' then 2 else 1..]);
      }
    }

    /** Between elements: finds what to do next. */
    method Advance(argv: array<string>, cfg: Config) returns (eof: bool, operand: Option<string>)
      requires Valid(argv[..]) && Text() == "" && cfg.ordering == ordering
      modifies argv, `firstNonopt, `lastNonopt, `optind, `nextchar
      ensures argv[0] == old(argv[0]) && (ordering != Permute ==> argv[..] == old(argv[..]))
      ensures eof ==> var n := Next(cfg, old(Here(argv[..]))); n.1.None? && AtEof(argv[..], optind, n.0)
      ensures !eof ==> Valid(argv[..])
      ensures !eof && operand.Some? ==>
                Next(cfg, old(Here(argv[..]))) == (Here(argv[..]), Some(Plain(1).(arg := operand)))
      ensures !eof && operand.None? ==>
                nextchar.Some? && nextchar.value != "" && Next(cfg, old(Here(argv[..]))) == Reading(cfg, Here(argv[..]))
    {
      hide At, Reading, Ended, AtEof, Start, LeadingOperands, Next, Skipped;
      ghost var v := Here(argv[..]);
      if ordering == Permute {
        SkipOperands(argv);
      }
      NextBetween(cfg, v, Here(argv[..]));
      eof, operand := NextElement(argv, cfg);
    }

    /** A call that started from `v` reported `item` (None is EOF) and left the state as the parser's step says. */
    ghost predicate Stepped(cfg: Config, v: View, item: Option<Item>, argv: seq<string>)
      reads this
      requires GoodView(v)
    {
      && item == Next(cfg, v).1
      && (item.Some? ==> Valid(argv) && Here(argv) == Next(cfg, v).0 && optarg == item.value.arg)
      && (item.None? ==> AtEof(argv, optind, Next(cfg, v).0))
    }

    /** A call after its first block: `cfg` holds for this call. */
    method Scan(argv: array<string>, cfg: Config) returns (item: Option<Item>)
      requires argv.Length >= 1 && Valid(argv[..]) && cfg.ordering == ordering && optarg == None
      modifies argv, `firstNonopt, `lastNonopt, `optind, `nextchar, `optarg, `optopt
      ensures argv[0] == old(argv[0]) && (ordering != Permute ==> argv[..] == old(argv[..]))
      ensures Stepped(cfg, old(Here(argv[..])), item, argv[..])
    {
      hide Next, Reading, At, AtEof;
      ghost var v := Here(argv[..]);
      var eof, operand := false, None;
      NextInside(cfg, v);
      if nextchar == None || nextchar.value == "" {
        eof, operand := Advance(argv, cfg);
      }
      if eof {
        item := None;
      } else if operand.Some? {
        optarg := operand;
        item := Some(Item(1, operand, None, None, None));
      } else {
        var read := ReadOption(argv, cfg);
        item := Some(read);
      }
    }

    /** One call of _getopt_internal. */
    method GetoptInternal(argv: array<string>, optstring: string, longopts: Option<seq<LongOption>>, longOnly: bool)
      returns (item: Option<Item>)
      requires argv.Length >= 1 && (optind != 0 ==> Valid(argv[..]))
      modifies this, argv
      ensures argv[0] == old(argv[0]) && (ordering != Permute ==> argv[..] == old(argv[..]))
      ensures ordering == if old(optind) == 0 then OrderingFor(optstring, posixlyCorrect) else old(ordering)
      ensures old(optind) == 0 ==>
                Stepped(Config(ordering, Unsigned(optstring), longopts, longOnly),
                        View([], [], "", old(argv[..])[1..]), item, argv[..])
      ensures old(optind) != 0 ==>
                Stepped(Config(ordering, optstring, longopts, longOnly), old(Here(argv[..])), item, argv[..])
    {
      optarg := None;
      var rest := Initialize(argv, optstring);
      item := Scan(argv, Config(ordering, rest, longopts, longOnly));
    }
  }

  /**
   What a whole run must leave and report: consumed elements, operands, items. The first call
   reads the option string without its sign, later calls read it with the sign.
  */
  ghost function Whole(first: Config, later: Config, args: seq<string>): (seq<string>, seq<string>, seq<Item>) {
    var (v, item) := Next(first, View([], [], "", args));
    if item.None? then (v.done, v.aside + v.rest, [])
    else var t := Total(later, v); (t.0, t.1, [item.value] + t.2)
  }

  /** Without a leading sign that is the one-pass parser's answer, and the vector is split by its marks. */
  lemma WholeIsParse(cfg: Config, args: seq<string>)
    ensures var out := Parse(cfg, "", args);
            Whole(cfg, cfg, args) == (Select(args, out.consumed, true), Select(args, out.consumed, false), out.items)
  {
    hide Next, Parse, Select;
    var v := View([], [], "", args);
    var out := Parse(cfg, "", args);
    if Next(cfg, v).1.None? {
      EofTotal(cfg, v);
    } else {
      StepTotal(cfg, v);
    }
    assert [] + Select(args, out.consumed, true) == Select(args, out.consumed, true);
    assert [] + Select(args, out.consumed, false) == Select(args, out.consumed, false);
  }

  /** Calls the scanner until EOF; the calls end because each one uses up elements or text. */
  method ScanAll(argv: array<string>, optstring: string, longopts: Option<seq<LongOption>>, longOnly: bool,
                 posixlyCorrect: bool)
    returns (items: seq<Item>, optind: nat)
    requires argv.Length >= 1
    modifies argv
    ensures var ordering := OrderingFor(optstring, posixlyCorrect);
            var w := Whole(Config(ordering, Unsigned(optstring), longopts, longOnly),
                           Config(ordering, optstring, longopts, longOnly), old(argv[..])[1..]);
            && items == w.2
            && argv[..] == [old(argv[0])] + w.0 + w.1
            && optind == 1 + |w.0|
            && (ordering != Permute ==> argv[..] == old(argv[..]))
  {
    hide Next, Total, At, Select, Parse;
    var scanner := new Scanner(posixlyCorrect);
    ghost var cfg := Config(OrderingFor(optstring, posixlyCorrect), optstring, longopts, longOnly);
    ghost var w := Whole(cfg.(optstring := Unsigned(optstring)), cfg, argv[..][1..]);
    items := [];
    var item := scanner.GetoptInternal(argv, optstring, longopts, longOnly);
    assert item.Some? ==> [] + [item.value] == [item.value];
    ghost var v := if item.Some? then scanner.Here(argv[..]) else View([], [], "", []);
    while item.Some?
      invariant fresh(scanner) && scanner.ordering == cfg.ordering
      invariant argv[0] == old(argv[0]) && (cfg.ordering != Permute ==> argv[..] == old(argv[..]))
      invariant item.Some? ==> scanner.Valid(argv[..]) && v == scanner.Here(argv[..])
      invariant item.Some? ==> var t := Total(cfg, v); w == (t.0, t.1, items + [item.value] + t.2)
      invariant item.None? ==> AtEofWith(argv[..], scanner.optind, w.0, w.1) && w.2 == items
      decreases item.Some?, |v.rest|, v.text == "", |v.text|
    {
      NextEnds(cfg, v);
      ghost var before := items + [item.value];
      items := items + [item.value];
      item := scanner.GetoptInternal(argv, optstring, longopts, longOnly);
      if item.Some? {
        StepTotal(cfg, v);
        v := scanner.Here(argv[..]);
        Assoc(before, [item.value], Total(cfg, v).2);
      } else {
        EofTotal(cfg, v);
        assert before + [] == before;
      }
    }
    optind := scanner.optind;
  }

  /** The vector after EOF, with optind at the first operand. */
  ghost predicate AtEofWith(argv: seq<string>, optind: nat, done: seq<string>, operands: seq<string>) {
    argv != [] && argv == [argv[0]] + done + operands && optind == 1 + |done|
  }

  lemma NextEnds(cfg: Config, v: View)
    requires GoodView(v)
    ensures var (v', item) := Next(cfg, v);
            item.Some? ==>
              || |v'.rest| < |v.rest|
              || (|v'.rest| == |v.rest| && v'.text != "" && (v.text == "" || |v'.text| < |v.text|))
  {
  }

  function OrderingFor(optstring: string, posixlyCorrect: bool): Ordering {
    if optstring != "" && optstring[0] == '-' then ReturnInOrder
    else if (optstring != "" && optstring[0] == '+') || posixlyCorrect then RequireOrder
    else Permute
  }

  /** The option string without the sign that selects the ordering. */
  function Unsigned(optstring: string): string {
    if optstring != "" && optstring[0] in {'-', '+'} then optstring[1..] else optstring
  }

  /** The vector after EOF: the program name, what was consumed, then the operands, with optind at the first of them. */
  ghost predicate AtEof(argv: seq<string>, optind: nat, v: View) {
    AtEofWith(argv, optind, v.done, v.aside + v.rest)
  }

  lemma EofAt(argv: seq<string>, first: nat, last: nat, ind: nat, text: string)
    requires 1 <= first <= last <= ind <= |argv| && (last == ind || first == last == 1)
    ensures AtEof(argv, if first != last then first else ind, At(argv, first, last, ind, text))
  {
    if first == last == 1 {
      assert argv[1..1] + argv[1..ind] == argv[1..ind];
      assert argv == [argv[0]] + argv[1..ind] + (argv[1..1] + argv[ind..]);
    } else {
      assert argv[1..first] + argv[ind..ind] == argv[1..first];
      assert argv == [argv[0]] + argv[1..first] + (argv[first..ind] + argv[ind..]);
    }
  }

  lemma NextBetween(cfg: Config, v: View, s: View)
    requires GoodView(v) && v.text == "" && s == if cfg.ordering == Permute then Skipped(v) else v
    ensures AtEnd(cfg, s.rest) ==> Next(cfg, v) == (Ended(s), None)
    ensures !AtEnd(cfg, s.rest) && IsOperand(s.rest[0]) ==>
              var t := s.(done := s.done + s.rest[..1], rest := s.rest[1..]);
              GoodView(t) && Next(cfg, v) == (t, Some(Plain(1).(arg := Some(s.rest[0]))))
    ensures !AtEnd(cfg, s.rest) && !IsOperand(s.rest[0]) ==>
              var t := s.(text := Start(cfg, s.rest[0]));
              t.text != "" && GoodView(t) && Next(cfg, v) == Reading(cfg, t)
  {
  }

  lemma NextInside(cfg: Config, v: View)
    requires GoodView(v)
    ensures v.text != "" ==> Next(cfg, v) == Reading(cfg, v)
  {
  }

  lemma AtText(argv: seq<string>, first: nat, last: nat, ind: nat, text: string, text': string)
    requires 1 <= first <= last <= ind <= |argv|
    ensures At(argv, first, last, ind, text') == At(argv, first, last, ind, text).(text := text')
  {
  }

  lemma JoinDone(argv: seq<string>, first: nat, ind: nat, text: string)
    requires 1 <= first <= ind <= |argv|
    ensures At(argv, ind, ind, ind, text) == At(argv, first, first, ind, text)
  {
    assert argv[1..ind] + argv[ind..ind] == argv[1..first] + argv[first..ind];
  }

  lemma SkipAt(argv: seq<string>, first: nat, start: nat, ind: nat, text: string)
    requires 1 <= first <= start <= ind <= |argv| && ind - start == LeadingOperands(argv[start..])
    ensures At(argv, first, ind, ind, text) == Skipped(At(argv, first, start, start, text))
  {
    assert argv[first..start] + argv[start..][..ind - start] == argv[first..ind];
    assert argv[start..][ind - start..] == argv[ind..];
    assert argv[1..first] + argv[ind..ind] == argv[1..first] + argv[start..start];
  }

  lemma TakeDash(argv: seq<string>, first: nat, last: nat, ind: nat, text: string)
    requires 1 <= first <= last <= ind < |argv|
    ensures var v := At(argv, first, last, ind, text);
            At(argv, first, last, ind + 1, text) == View(v.done + [argv[ind]], v.aside, text, v.rest[1..])
  {
    assert argv[last..ind + 1] == argv[last..ind] + [argv[ind]];
    Assoc(argv[1..first], argv[last..ind], [argv[ind]]);
  }

  lemma RestAside(argv: seq<string>, first: nat, ind: nat, text: string)
    requires 1 <= first <= ind <= |argv|
    ensures var v := At(argv, first, ind, ind, text);
            At(argv, first, |argv|, |argv|, text) == View(v.done, v.aside + v.rest, text, [])
  {
    assert argv[1..first] + argv[|argv|..|argv|] == argv[1..first] + argv[ind..ind];
    assert argv[first..ind] + argv[ind..] == argv[first..];
  }

  lemma ConsumedAt(argv: seq<string>, first: nat, last: nat, ind: nat, text: string, d: Decoded)
    requires 1 <= first <= last <= ind && ind + Used(d) <= |argv|
    ensures At(argv, first, last, ind + Used(d), d.text) == Consumed(At(argv, first, last, ind, text), d)
  {
    var n := Used(d);
    assert argv[last..ind + n] == argv[last..ind] + argv[ind..][..n];
    Assoc(argv[1..first], argv[last..ind], argv[ind..][..n]);
    assert argv[ind..][n..] == argv[ind + n..];
  }

  function Exchanged(argv: seq<string>, first: nat, last: nat, ind: nat): seq<string>
    requires first <= last <= ind <= |argv|
  {
    argv[..first] + argv[last..ind] + argv[first..last] + argv[ind..]
  }

  lemma OverwrittenWhole<T>(s: seq<T>, block: seq<T>)
    requires |s| == |block|
    ensures Overwritten(s, 0, block) == block
  {
  }

  lemma TwoOverwrites(was: seq<string>, first: nat, last: nat, ind: nat)
    requires first <= last <= ind <= |was|
    ensures Overwritten(Overwritten(was, first, was[last..ind]), first + ind - last, was[first..last])
         == Exchanged(was, first, last, ind)
  {
  }

  /** The exchange does not change what the vector and the indices stand for. */
  lemma ExchangeKeepsView(was: seq<string>, first: nat, last: nat, ind: nat, text: string)
    requires 1 <= first <= last <= ind <= |was|
    ensures var now := Exchanged(was, first, last, ind);
            && now[0] == was[0]
            && At(now, first + (ind - last), ind, ind, text) == At(was, first, last, ind, text)
  {
    var now, f := Exchanged(was, first, last, ind), first + (ind - last);
    assert now[1..f] + now[ind..ind] == was[1..first] + was[last..ind];
    assert now[f..ind] == was[first..last];
    assert now[ind..] == was[ind..];
  }
}
