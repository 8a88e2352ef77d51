/** The part of libpurple/xmlnode.c that the savers and loaders use: trees of elements, and numbers as text. */
module Xml {
  import opened Options

  /** An element: its name, attributes, character data if it has any, and the elements inside it in order. */
  datatype Element = Element(name: string, attrs: map<string, string>, data: Option<string>, children: seq<Element>)

  /** A setting of an account or of a node of the list; a string may be NULL. */
  datatype Value = IntValue(n: int) | StringValue(s: Option<string>) | BoolValue(b: bool)

  type Table = map<string, Value>

  /** Whether a setting survives being written and read: null strings and empty strings leave no text. */
  predicate Lasts(v: Value) {
    v.StringValue? ==> v.s.Some? && v.s.value != ""
  }

  function Attribute(x: Element, name: string): Option<string> {
    if name in x.attrs then Some(x.attrs[name]) else None
  }

  /**
   What comes back when a tree is written as text and read again: an empty piece of character data leaves no trace.
  */
  function Reread(x: Element): Element {
    Element(x.name, x.attrs, if x.data == Some("") then None else x.data,
            seq(|x.children|, i requires 0 <= i < |x.children| => Reread(x.children[i])))
  }

  function RereadAll(l: seq<Element>): (r: seq<Element>) {
    seq(|l|, i requires 0 <= i < |l| => Reread(l[i]))
  }

  /** The children called `name`, in order. */
  function Named(l: seq<Element>, name: string): seq<Element> {
    if l == [] then [] else (if l[0].name == name then [l[0]] else []) + Named(l[1..], name)
  }

  /** xmlnode_get_child: the first child called `name`. */
  function Child(x: Element, name: string): Option<Element> {
    var l := Named(x.children, name);
    if l == [] then None else Some(l[0])
  }

  lemma NextTo(x: seq<Element>, p: seq<Element>, q: seq<Element>)
    ensures x + (p + q) == (x + p) + q
  {
  }

  lemma {:induction false} NamedBoth(l: seq<Element>, r: seq<Element>, name: string)
    ensures Named(l + r, name) == Named(l, name) + Named(r, name)
  {
    if l == [] {
      assert l + r == r;
    } else {
      var x: seq<Element> := if l[0].name == name then [l[0]] else [];
      assert (l + r)[1..] == l[1..] + r && (l + r)[0] == l[0];
      NamedBoth(l[1..], r, name);
      NextTo(x, Named(l[1..], name), Named(r, name));
    }
  }

  lemma {:induction false} NamedAll(l: seq<Element>, name: string)
    requires forall i :: 0 <= i < |l| ==> l[i].name == name
    ensures Named(l, name) == l
  {
    if l != [] {
      NamedAll(l[1..], name);
    }
  }

  lemma {:induction false} NamedNone(l: seq<Element>, name: string)
    requires forall i :: 0 <= i < |l| ==> l[i].name != name
    ensures Named(l, name) == []
  {
    if l != [] {
      NamedNone(l[1..], name);
    }
  }

  /** Reading again keeps names and order. */
  lemma {:induction false} NamedReread(l: seq<Element>, name: string)
    ensures Named(RereadAll(l), name) == RereadAll(Named(l, name))
  {
    if l == [] {
    } else {
      NamedReread(l[1..], name);
      assert RereadAll(l)[1..] == RereadAll(l[1..]);
      var rest := Named(l[1..], name);
      assert RereadAll([l[0]] + rest) == [Reread(l[0])] + RereadAll(rest);
    }
  }

  lemma RereadBoth(l: seq<Element>, r: seq<Element>)
    ensures RereadAll(l + r) == RereadAll(l) + RereadAll(r)
  {
  }

  // ------------------------------------------------------------ numbers as text

  predicate IsDigit(c: char) {
    '0' <= c <= '9'
  }

  predicate IsSpace(c: char) {
    c == ' ' || c == '\t' || c == '\n' || c == '\r'
  }

  function DigitOf(n: nat): (c: char)
    requires n < 10
    ensures IsDigit(c) && (c as int) - ('0' as int) == n
  {
    ('0' as int + n) as char
  }

  /** Decimal digits, most significant first. */
  function Digits(n: nat): (s: string)
    ensures s != [] && forall i :: 0 <= i < |s| ==> IsDigit(s[i])
  {
    if n < 10 then [DigitOf(n)] else Digits(n / 10) + [DigitOf(n % 10)]
  }

  /** printf of %d. */
  function Itoa(n: int): string {
    if n < 0 then "-" + Digits(-n) else Digits(n)
  }

  /** The value of the digits in front, added to what has been read. */
  function Leading(s: string, acc: nat): nat {
    if s != [] && IsDigit(s[0]) then Leading(s[1..], acc * 10 + (s[0] as int - '0' as int)) else acc
  }

  /** atoi, for values that fit. */
  function Atoi(s: string): int {
    if s == [] then 0
    else if IsSpace(s[0]) then Atoi(s[1..])
    else if s[0] == '-' then 0 - Leading(s[1..], 0)
    else if s[0] == '+' then Leading(s[1..], 0)
    else Leading(s, 0)
  }

  lemma {:induction false} LeadingBoth(p: string, q: string, acc: nat)
    requires forall i :: 0 <= i < |p| ==> IsDigit(p[i])
    ensures Leading(p + q, acc) == Leading(q, Leading(p, acc))
  {
    if p == [] {
      assert p + q == q;
    } else {
      assert (p + q)[1..] == p[1..] + q;
      LeadingBoth(p[1..], q, acc * 10 + (p[0] as int - '0' as int));
    }
  }

  lemma {:induction false} LeadingDigits(n: nat)
    ensures Leading(Digits(n), 0) == n
  {
    if n < 10 {
      assert Leading([], n) == n;
    } else {
      LeadingDigits(n / 10);
      LeadingBoth(Digits(n / 10), [DigitOf(n % 10)], 0);
      assert Leading([DigitOf(n % 10)], n / 10) == Leading([], n / 10 * 10 + n % 10);
    }
  }

  /** A number that has been printed is read back. */
  lemma AtoiItoa(n: int)
    ensures Atoi(Itoa(n)) == n && Itoa(n) != ""
  {
    if n < 0 {
      LeadingDigits(-n);
      assert Itoa(n)[1..] == Digits(-n);
    } else {
      LeadingDigits(n);
      assert IsDigit(Digits(n)[0]);
    }
  }

  /** Numbers are decimal: one more digit at the end is ten times the number and the digit. */
  lemma Decimal(n: nat, d: nat)
    requires d < 10
    ensures Itoa(d) == ["0123456789"[d]]
    ensures n > 0 ==> Itoa(10 * n + d) == Itoa(n) + ["0123456789"[d]]
    ensures n > 0 ==> Itoa(0 - n) == "-" + Itoa(n)
  {
    assert "0123456789"[d] as int == '0' as int + d;
  }

  lemma LeadingStops(m: nat, tail: string)
    requires tail != "" ==> !IsDigit(tail[0])
    ensures Leading(Digits(m) + tail, 0) == m
  {
    LeadingDigits(m);
    LeadingBoth(Digits(m), tail, 0);
  }

  /** atoi stops at the first character behind the number that is no digit. */
  lemma AtoiStops(n: int, tail: string)
    requires tail != "" ==> !('0' <= tail[0] <= '9')
    ensures Atoi(Itoa(n) + tail) == n
    ensures tail != "" && tail[0] !in " \t\n\r+-" ==> Atoi(tail) == 0
  {
    hide Digits, Leading;
    var m: nat := if n < 0 then -n else n;
    var d := Digits(m);
    LeadingStops(m, tail);
    if n < 0 {
      SignBefore(d, tail);
    } else {
      assert (d + tail)[0] == d[0];
    }
    LeadingNone(tail);
  }

  lemma LeadingNone(s: string)
    requires s != "" ==> !IsDigit(s[0])
    ensures Leading(s, 0) == 0
  {
  }

  lemma SignBefore(d: string, tail: string)
    ensures Atoi("-" + d + tail) == 0 - Leading(d + tail, 0)
  {
    assert ("-" + d + tail)[1..] == d + tail;
  }

  /** It skips spaces before the number. */
  lemma AtoiSkips(c: char, s: string)
    requires c in " \t\n\r"
    ensures Atoi([c] + s) == Atoi(s)
  {
    assert ([c] + s)[1..] == s;
  }
}
