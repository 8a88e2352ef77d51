/**
 What the scanner of finch/getopt.c is meant to compute: a pure, one-pass, left-to-right parser over the argument
 vector that sets operands aside, together with the state it carries from one call to the next.
*/
module GetoptSpec {
  import opened Options

  datatype Ordering = RequireOrder | Permute | ReturnInOrder

  const NO_ARGUMENT := 0
  const REQUIRED_ARGUMENT := 1

  /** `flag` names the variable to store into, if the option has one. */
  datatype LongOption = LongOption(name: string, hasArg: int, flag: Option<nat>, val: int)

  datatype Config = Config(ordering: Ordering, optstring: string, longopts: Option<seq<LongOption>>, longOnly: bool)

  /** What one call reports: return value, optarg, optopt if it was set, *longind and *flag if they were stored. */
  datatype Item = Item(code: int, arg: Option<string>, badChar: Option<char>,
                       longind: Option<nat>, flagSet: Option<(nat, int)>)

  function Plain(code: int): Item { Item(code, None, None, None, None) }

  const BAD: int := '?' as int
  const MISSING: int := ':' as int

  /** Not an option element: does not start with '-', or is exactly "-". */
  predicate IsOperand(e: string) {
    |e| < 2 || e[0] != '-'
  }

  // ------------------------------------------------------------ long options

  datatype Match = NoMatch | Ambiguous | Found(i: nat)

  predicate Prefix(name: string, o: LongOption) {
    name <= o.name
  }

  /**
   An exact name wins (the first one listed), otherwise an abbreviation must fit one option only.
  */
  ghost predicate Matches(opts: seq<LongOption>, name: string, m: Match) {
    var exact := exists i :: 0 <= i < |opts| && opts[i].name == name;
    match m
    case Found(i) =>
      && i < |opts| && Prefix(name, opts[i])
      && (exact ==> opts[i].name == name && forall j :: 0 <= j < i ==> opts[j].name != name)
      && (!exact ==> forall j :: 0 <= j < |opts| && Prefix(name, opts[j]) ==> j == i)
    case Ambiguous =>
      && !exact
      && exists i, j :: 0 <= i < j < |opts| && Prefix(name, opts[i]) && Prefix(name, opts[j])
    case NoMatch =>
      forall j :: 0 <= j < |opts| ==> !Prefix(name, opts[j])
  }

  lemma MatchIsUnique(opts: seq<LongOption>, name: string, m: Match, m': Match)
    requires Matches(opts, name, m) && Matches(opts, name, m')
    ensures m == m'
  {
    if i :| 0 <= i < |opts| && opts[i].name == name {
      assert Prefix(name, opts[i]);
    }
    if m.Found? && m'.Found? {
      assert m.i == m'.i;
    }
  }

  function FirstExact(opts: seq<LongOption>, name: string, from: nat): (r: Option<nat>)
    requires from <= |opts|
    ensures r.Some? ==> from <= r.value < |opts| && opts[r.value].name == name
    ensures forall j :: from <= j < (if r.Some? then r.value else |opts|) ==> opts[j].name != name
    decreases |opts| - from
  {
    if from == |opts| then None
    else if opts[from].name == name then Some(from)
    else FirstExact(opts, name, from + 1)
  }

  function FirstPrefix(opts: seq<LongOption>, name: string, from: nat): (r: Option<nat>)
    requires from <= |opts|
    ensures r.Some? ==> from <= r.value < |opts| && Prefix(name, opts[r.value])
    ensures forall j :: from <= j < (if r.Some? then r.value else |opts|) ==> !Prefix(name, opts[j])
    decreases |opts| - from
  {
    if from == |opts| then None
    else if Prefix(name, opts[from]) then Some(from)
    else FirstPrefix(opts, name, from + 1)
  }

  function Lookup(opts: seq<LongOption>, name: string): (m: Match)
    ensures Matches(opts, name, m)
  {
    match FirstExact(opts, name, 0)
    case Some(i) => Found(i)
    case None =>
      match FirstPrefix(opts, name, 0)
      case None => NoMatch
      case Some(i) => if FirstPrefix(opts, name, i + 1).Some? then Ambiguous else Found(i)
  }

  /** Where a long option's name ends: at its '=' or at its end. */
  function NameEnd(text: string): (n: nat)
    ensures n <= |text| && (n < |text| ==> text[n] == '=') && '=' !in text[..n]
  {
    if text == "" || text[0] == '=' then 0 else
      var n := NameEnd(text[1..]);
      assert text[..n + 1] == [text[0]] + text[1..][..n];
      n + 1
  }

  // ------------------------------------------------------- decoding one option

  /**
   One decoded option: what is reported, the text of the element still to be read, whether the
   element is used up, and whether the element after it was taken as an argument.
  */
  datatype Decoded = Decoded(item: Item, text: string, elementDone: bool, tookNext: bool)

  function LongFound(cfg: Config, o: LongOption, i: nat, text: string, after: seq<string>): Decoded {
    var e := NameEnd(text);
    var hit := Item(if o.flag.Some? then 0 else o.val, None, None, Some(i),
                    if o.flag.Some? then Some((o.flag.value, o.val)) else None);
    if e < |text| then
      if o.hasArg != NO_ARGUMENT then Decoded(hit.(arg := Some(text[e + 1..])), "", true, false)
      else Decoded(Plain(BAD), "", true, false)
    else if o.hasArg == REQUIRED_ARGUMENT then
      if after != [] then Decoded(hit.(arg := Some(after[0])), "", true, true)
      else Decoded(Plain(if cfg.optstring != "" && cfg.optstring[0] == ':' then MISSING else BAD), "", true, false)
    else Decoded(hit, "", true, false)
  }

  /** The option text is looked up as a long name. */
  predicate TriesLong(cfg: Config, element: string)
    requires !IsOperand(element)
  {
    cfg.longopts.Some? && (element[1] == '-' || cfg.longOnly)
  }

  /** None means: not a long option, read it as a short one. */
  function DecodeLong(cfg: Config, element: string, text: string, after: seq<string>): Option<Decoded>
    requires !IsOperand(element) && TriesLong(cfg, element) && text != ""
  {
    var opts := cfg.longopts.value;
    match Lookup(opts, text[..NameEnd(text)])
    case Ambiguous => Some(Decoded(Plain(BAD), "", true, false))
    case Found(i) => Some(LongFound(cfg, opts[i], i, text, after))
    case NoMatch =>
      if !cfg.longOnly || element[1] == '-' || text[0] !in cfg.optstring
      then Some(Decoded(Plain(BAD), "", true, false))
      else None
  }

  function IndexOf(s: string, c: char): (i: nat)
    ensures i <= |s| && (i < |s| <==> c in s)
    ensures (i < |s| ==> s[i] == c) && forall j :: 0 <= j < i ==> s[j] != c
  {
    if s == "" || s[0] == c then 0 else 1 + IndexOf(s[1..], c)
  }

  predicate ColonAt(s: string, i: nat) {
    i < |s| && s[i] == ':'
  }

  function DecodeShort(cfg: Config, text: string, after: seq<string>): Decoded
    requires text != ""
  {
    var c, more := text[0], text[1..];
    var at := IndexOf(cfg.optstring, c);
    var code := c as int;
    if at == |cfg.optstring| || c == ':' then
      Decoded(Plain(BAD).(badChar := Some(c)), more, more == "", false)
    else if !ColonAt(cfg.optstring, at + 1) then
      Decoded(Plain(code), more, more == "", false)
    else if more != "" then
      Decoded(Plain(code).(arg := Some(more)), "", true, false)
    else if ColonAt(cfg.optstring, at + 2) then
      Decoded(Plain(code), "", true, false)
    else if after == [] then
      Decoded(Plain(if ColonAt(cfg.optstring, 0) then MISSING else BAD).(badChar := Some(c)), "", true, false)
    else
      Decoded(Plain(code).(arg := Some(after[0])), "", true, true)
  }

  /** Decodes the next option of `element`, whose unread text is `text`; `after` are the elements behind it. */
  function Decode(cfg: Config, element: string, text: string, after: seq<string>): (d: Decoded)
    requires !IsOperand(element) && text != ""
    ensures |d.text| < |text|
    ensures d.elementDone <==> d.text == ""
    ensures d.tookNext ==> d.elementDone && after != []
  {
    var long := if TriesLong(cfg, element) then DecodeLong(cfg, element, text, after) else None;
    match long
    case Some(d) => d
    case None => DecodeShort(cfg, text, after)
  }

  /** Where reading an option element starts. */
  function Start(cfg: Config, element: string): string
    requires !IsOperand(element)
  {
    if cfg.longopts.Some? && element[1] == '-' then element[2..] else element[1..]
  }

  // --------------------------------------------------------- the whole vector

  /** Everything reported, and for each element whether it was consumed (else it is an operand). */
  datatype Outcome = Outcome(items: seq<Item>, consumed: seq<bool>)

  function AllOperands(n: nat): (s: seq<bool>)
    ensures |s| == n && forall i :: 0 <= i < n ==> !s[i]
  {
    seq(n, i => false)
  }

  /** The elements that decoding one option uses up. */
  function Used(d: Decoded): nat {
    (if d.elementDone then 1 else 0) + (if d.tookNext then 1 else 0)
  }

  /**
   The one-pass parser. `text` is what is unread of the option element rest[0]; it is empty
   between elements.
  */
  function Parse(cfg: Config, text: string, rest: seq<string>): (out: Outcome)
    requires text != "" ==> rest != [] && !IsOperand(rest[0])
    ensures |out.consumed| == |rest|
    decreases |rest|, text == "", |text|
  {
    if text != "" then
      var d := Decode(cfg, rest[0], text, rest[1..]);
      var out := Parse(cfg, d.text, rest[Used(d)..]);
      Outcome([d.item] + out.items, seq(Used(d), i => true) + out.consumed)
    else if rest == [] then
      Outcome([], [])
    else if rest[0] == "--" then
      Outcome([], [true] + AllOperands(|rest| - 1))
    else if !IsOperand(rest[0]) then
      Parse(cfg, Start(cfg, rest[0]), rest)
    else
      match cfg.ordering
      case RequireOrder => Outcome([], AllOperands(|rest|))
      case Permute =>
        var out := Parse(cfg, "", rest[1..]);
        Outcome(out.items, [false] + out.consumed)
      case ReturnInOrder =>
        var out := Parse(cfg, "", rest[1..]);
        Outcome([Plain(1).(arg := Some(rest[0]))] + out.items, [true] + out.consumed)
  }

  /** The elements of `s` that carry the mark, in order. */
  function Select(s: seq<string>, marks: seq<bool>, mark: bool): seq<string>
    requires |s| == |marks|
  {
    if s == [] then []
    else (if marks[0] == mark then [s[0]] else []) + Select(s[1..], marks[1..], mark)
  }

  // ------------------------------------------------- the state between calls

  /** Consumed so far, operands set aside so far, unread text of rest[0], unscanned elements. */
  datatype View = View(done: seq<string>, aside: seq<string>, text: string, rest: seq<string>)

  ghost predicate GoodView(v: View) {
    v.text != "" ==> v.rest != [] && !IsOperand(v.rest[0]) && v.rest[0] != "--"
  }

  function LeadingOperands(rest: seq<string>): (n: nat)
    ensures n <= |rest| && (n < |rest| ==> !IsOperand(rest[n]))
    ensures forall i :: 0 <= i < n ==> IsOperand(rest[i])
  {
    if rest != [] && IsOperand(rest[0]) then 1 + LeadingOperands(rest[1..]) else 0
  }

  function Skipped(v: View): View {
    var n := LeadingOperands(v.rest);
    v.(aside := v.aside + v.rest[..n], rest := v.rest[n..])
  }

  function Consumed(v: View, d: Decoded): View
    requires Used(d) <= |v.rest|
  {
    v.(done := v.done + v.rest[..Used(d)], text := d.text, rest := v.rest[Used(d)..])
  }

  /** Between elements: nothing more will be reported. */
  predicate AtEnd(cfg: Config, rest: seq<string>) {
    rest == [] || rest[0] == "--" || (IsOperand(rest[0]) && cfg.ordering == RequireOrder)
  }

  /** "--" counts as consumed, and sets aside everything behind it. */
  function Ended(s: View): View {
    if s.rest != [] && s.rest[0] == "--" then s.(done := s.done + ["--"], aside := s.aside + s.rest[1..], rest := [])
    else s
  }

  /** Inside an element: decode one option. */
  function Reading(cfg: Config, v: View): (r: (View, Option<Item>))
    requires GoodView(v) && v.text != ""
    ensures GoodView(r.0) && r.1.Some?
  {
    var d := Decode(cfg, v.rest[0], v.text, v.rest[1..]);
    (Consumed(v, d), Some(d.item))
  }

  /** One call: the state after it, and what it reports (None is EOF). */
  function Next(cfg: Config, v: View): (r: (View, Option<Item>))
    requires GoodView(v)
    ensures GoodView(r.0)
  {
    if v.text != "" then
      Reading(cfg, v)
    else
      var s := if cfg.ordering == Permute then Skipped(v) else v;
      if AtEnd(cfg, s.rest) then
        (Ended(s), None)
      else if IsOperand(s.rest[0]) then
        (s.(done := s.done + s.rest[..1], rest := s.rest[1..]), Some(Plain(1).(arg := Some(s.rest[0]))))
      else
        Reading(cfg, s.(text := Start(cfg, s.rest[0])))
  }
}
