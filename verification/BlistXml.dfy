/**
 libpurple/blist.c: the list written as a tree of elements, and read from one. What is written walks hash tables, and
 may belong to a list in one language; what is read fills hash tables, and may belong to a list in another.
*/
module BlistXml {
  import opened Options
  import opened Xml

  /** A hash table, in the order in which it is walked. */
  type Walked<V> = seq<(string, V)>

  /** The components of a chat; a value may be NULL. */
  type Components = map<string, Option<string>>

  datatype Account = Account(username: string, protocol: string)

  /** The nodes: `T` is how settings are held, and `C` how components are. */
  datatype Buddy<T> = Buddy(account: Account, name: string, alias: Option<string>, settings: T, noSave: bool)

  datatype Child<C, T> =
    | Contact(alias: Option<string>, buddies: seq<Buddy<T>>, settings: T, noSave: bool)
    | Chat(account: Account, alias: Option<string>, components: C, settings: T, noSave: bool)

  datatype Group<C, T> = Group(name: string, children: seq<Child<C, T>>, settings: T, noSave: bool)

  type WalkedBuddy = Buddy<Walked<Value>>
  type WalkedChild = Child<Walked<Option<string>>, Walked<Value>>
  type WalkedGroup = Group<Walked<Option<string>>, Walked<Value>>
  type LoadedBuddy = Buddy<Table>
  type LoadedChild = Child<Components, Table>
  type LoadedGroup = Group<Components, Table>

  // ---------------------------------------------------------------- writing

  /** value_to_xmlnode. */
  function SettingElement(name: string, v: Value): Element {
    match v
    case IntValue(n) => Element("setting", map["name" := name, "type" := "int"], Some(Itoa(n)), [])
    case StringValue(s) => Element("setting", map["name" := name, "type" := "string"], s, [])
    case BoolValue(b) => Element("setting", map["name" := name, "type" := "bool"], Some(Itoa(if b then 1 else 0)), [])
  }

  function SettingElements(w: Walked<Value>): seq<Element> {
    seq(|w|, i requires 0 <= i < |w| => SettingElement(w[i].0, w[i].1))
  }

  /** chat_component_to_xmlnode: a NULL value is not written. */
  function ComponentElements(w: Walked<Option<string>>): seq<Element> {
    if w == [] then []
    else
      var n := |w| - 1;
      ComponentElements(w[..n]) +
      if w[n].1.None? then [] else [Element("component", map["name" := w[n].0], w[n].1, [])]
  }

  /** A child holding text, if there is any to hold. */
  function TextElement(name: string, text: Option<string>): seq<Element> {
    if text.None? then [] else [Element(name, map[], text, [])]
  }

  function AccountAttrs(a: Account): map<string, string> {
    map["account" := a.username, "proto" := a.protocol]
  }

  /** buddy_to_xmlnode. */
  function BuddyElement(b: WalkedBuddy): Element {
    Element("buddy", AccountAttrs(b.account), None,
            TextElement("name", Some(b.name)) + TextElement("alias", b.alias) + SettingElements(b.settings))
  }

  function BuddyElements(l: seq<WalkedBuddy>): seq<Element> {
    if l == [] then []
    else var n := |l| - 1; BuddyElements(l[..n]) + if l[n].noSave then [] else [BuddyElement(l[n])]
  }

  /** contact_to_xmlnode and chat_to_xmlnode. */
  function ChildElement(c: WalkedChild): Element {
    match c
    case Contact(alias, buddies, settings, _) =>
      Element("contact", if alias.Some? then map["alias" := alias.value] else map[], None,
              BuddyElements(buddies) + SettingElements(settings))
    case Chat(account, alias, components, settings, _) =>
      Element("chat", AccountAttrs(account), None,
              TextElement("alias", alias) + ComponentElements(components) + SettingElements(settings))
  }

  function ChildElements(l: seq<WalkedChild>): seq<Element> {
    if l == [] then []
    else var n := |l| - 1; ChildElements(l[..n]) + if l[n].noSave then [] else [ChildElement(l[n])]
  }

  /**
   group_to_xmlnode: the group whose name is the default one, in the language of the writer, is written without it.
  */
  function GroupElement(g: WalkedGroup, buddies: string): Element {
    Element("group", if g.name != buddies then map["name" := g.name] else map[], None,
            SettingElements(g.settings) + ChildElements(g.children))
  }

  function GroupElements(l: seq<WalkedGroup>, buddies: string): seq<Element> {
    if l == [] then []
    else var n := |l| - 1; GroupElements(l[..n], buddies) + if l[n].noSave then [] else [GroupElement(l[n], buddies)]
  }

  /** blist_to_xmlnode; the privacy lists come from elsewhere. */
  function ListElement(l: seq<WalkedGroup>, buddies: string, privacy: seq<Element>): Element {
    Element("purple", map["version" := "1.0"], None,
            [Element("blist", map[], None, GroupElements(l, buddies)), Element("privacy", map[], None, privacy)])
  }

  // ---------------------------------------------------------------- reading

  /** The accounts, how a protocol spells a name, how group names are compared, and the default names for groups. */
  datatype Env = Env(accounts: seq<Account>, normalize: (Account, string) -> string, collate: string -> string,
                     buddies: string, chats: string)

  /** parse_setting. */
  function Put(t: Table, x: Element): Table {
    if x.data.None? || "name" !in x.attrs then t
    else
      var name, kind, data := x.attrs["name"], Attribute(x, "type"), x.data.value;
      if kind.None? || kind.value == "string" then t[name := StringValue(Some(data))]
      else if kind.value == "bool" then t[name := BoolValue(Atoi(data) != 0)]
      else if kind.value == "int" then t[name := IntValue(Atoi(data))]
      else t
  }

  function PutAll(t: Table, l: seq<Element>): Table {
    if l == [] then t else Put(PutAll(t, l[..|l| - 1]), l[|l| - 1])
  }

  function PutComponent(c: Components, x: Element): Components {
    if "name" in x.attrs then c[x.attrs["name"] := x.data] else c
  }

  function PutComponents(c: Components, l: seq<Element>): Components {
    if l == [] then c else PutComponent(PutComponents(c, l[..|l| - 1]), l[|l| - 1])
  }

  /** An empty alias is no alias. */
  function NonEmpty(s: Option<string>): Option<string> {
    if s == Some("") then None else s
  }

  predicate IsAccount(env: Env, a: Account, name: string, protocol: string) {
    a.protocol == protocol && env.normalize(a, a.username) == env.normalize(a, name)
  }

  /** purple_accounts_find: the first account of that protocol whose name is spelled alike. */
  function Find(env: Env, accounts: seq<Account>, name: string, protocol: string): Option<Account> {
    if accounts == [] then None
    else if IsAccount(env, accounts[0], name, protocol) then Some(accounts[0])
    else Find(env, accounts[1..], name, protocol)
  }

  /** _purple_oscar_convert: an old protocol name stands for one of two, depending on whether the name is a number. */
  function OscarConvert(name: string, protocol: string): string {
    if protocol != "prpl-oscar" then protocol
    else if forall i :: 0 <= i < |name| ==> IsDigit(name[i]) then "prpl-icq"
    else "prpl-aim"
  }

  function Protocol(x: Element): Option<string> {
    if "proto" in x.attrs then Some(x.attrs["proto"]) else Attribute(x, "protocol")
  }

  /** The account a chat names; a buddy's protocol is converted first. */
  function AccountOf(env: Env, x: Element, convert: bool): Option<Account> {
    var protocol := Protocol(x);
    if "account" !in x.attrs || protocol.None? then None
    else
      var name := x.attrs["account"];
      Find(env, env.accounts, name, if convert then OscarConvert(name, protocol.value) else protocol.value)
  }

  function TextOf(x: Element, name: string): Option<string> {
    var c := Xml.Child(x, name);
    if c.None? then None else c.value.data
  }

  /** parse_buddy. */
  function ReadBuddy(env: Env, x: Element): Option<LoadedBuddy> {
    var account, name := AccountOf(env, x, true), TextOf(x, "name");
    if account.None? || name.None? then None
    else Some(Buddy(account.value, name.value, TextOf(x, "alias"), PutAll(map[], Named(x.children, "setting")), false))
  }

  function ReadBuddies(env: Env, l: seq<Element>): seq<LoadedBuddy> {
    if l == [] then [] else ReadBuddies(env, l[..|l| - 1]) + Listed(ReadBuddy(env, l[|l| - 1]))
  }

  function Listed<A>(o: Option<A>): seq<A> {
    if o.Some? then [o.value] else []
  }

  /** parse_contact: a contact that is left empty is taken out again. */
  function ReadContact(env: Env, x: Element): Option<LoadedChild> {
    var buddies := ReadBuddies(env, Named(x.children, "buddy"));
    if buddies == [] then None
    else Some(Contact(NonEmpty(Attribute(x, "alias")), buddies, PutAll(map[], Named(x.children, "setting")), false))
  }

  /** parse_chat. */
  function ReadChat(env: Env, x: Element): Option<LoadedChild> {
    var account := AccountOf(env, x, false);
    if account.None? then None
    else Some(Chat(account.value, NonEmpty(TextOf(x, "alias")), PutComponents(map[], Named(x.children, "component")),
                   PutAll(map[], Named(x.children, "setting")), false))
  }

  function ReadChild(env: Env, x: Element): Option<LoadedChild> {
    if x.name == "contact" || x.name == "person" then ReadContact(env, x)
    else if x.name == "chat" then ReadChat(env, x)
    else None
  }

  function ReadChildren(env: Env, l: seq<Element>): seq<LoadedChild> {
    if l == [] then [] else ReadChildren(env, l[..|l| - 1]) + Listed(ReadChild(env, l[|l| - 1]))
  }

  /** purple_find_group: the place of the group whose name compares equal. */
  function FindGroup(env: Env, l: seq<LoadedGroup>, name: string): (i: nat)
    ensures i <= |l|
    ensures i < |l| ==> env.collate(l[i].name) == env.collate(name)
    ensures forall j :: 0 <= j < i ==> env.collate(l[j].name) != env.collate(name)
  {
    if l == [] || env.collate(l[0].name) == env.collate(name) then 0 else 1 + FindGroup(env, l[1..], name)
  }

  /** purple_group_new and purple_blist_add_group: a new group, or the one that has the name, goes to the end. */
  function AtEnd(env: Env, l: seq<LoadedGroup>, name: string): (r: seq<LoadedGroup>)
    ensures |r| > 0
  {
    var i := FindGroup(env, l, name);
    if i < |l| then l[..i] + l[i + 1..] + [l[i]] else l + [Group(name, [], map[], false)]
  }

  /** The list with a group of that name, put at its end if there was none. */
  function Ensured(env: Env, l: seq<LoadedGroup>, name: string): (r: seq<LoadedGroup>)
    ensures FindGroup(env, r, name) < |r|
  {
    if FindGroup(env, l, name) < |l| then l
    else
      var r := l + [Group(name, [], map[], false)];
      assert r[|l|].name == name;
      r
  }

  /** A contact or chat goes in front of the others in the group of that name. */
  function InFront(env: Env, l: seq<LoadedGroup>, name: string, c: LoadedChild): seq<LoadedGroup> {
    var r := Ensured(env, l, name);
    var i := FindGroup(env, r, name);
    r[i := r[i].(children := [c] + r[i].children)]
  }

  /**
   A child of a group without a name: a contact goes to the default group, a chat to the one for chats, a setting
   nowhere.
  */
  function ReadStray(env: Env, l: seq<LoadedGroup>, x: Element): seq<LoadedGroup> {
    if x.name == "contact" || x.name == "person" then
      var c := ReadContact(env, x);
      if c.Some? then InFront(env, l, env.buddies, c.value) else Ensured(env, l, env.buddies)
    else if x.name == "chat" then
      var c := ReadChat(env, x);
      if c.Some? then InFront(env, l, env.chats, c.value) else l
    else l
  }

  function ReadStrays(env: Env, l: seq<LoadedGroup>, xs: seq<Element>): seq<LoadedGroup> {
    if xs == [] then l else ReadStray(env, ReadStrays(env, l, xs[..|xs| - 1]), xs[|xs| - 1])
  }

  /** parse_group: there is no group with an empty name. */
  function ReadGroup(env: Env, l: seq<LoadedGroup>, x: Element): seq<LoadedGroup> {
    var name := if "name" in x.attrs then x.attrs["name"] else env.buddies;
    if name == "" then ReadStrays(env, l, x.children)
    else
      var r := AtEnd(env, l, name);
      var g := r[|r| - 1];
      r[|r| - 1 := g.(settings := PutAll(g.settings, Named(x.children, "setting")),
                      children := g.children + ReadChildren(env, x.children))]
  }

  function ReadGroups(env: Env, l: seq<LoadedGroup>, xs: seq<Element>): seq<LoadedGroup> {
    if xs == [] then l else ReadGroup(env, ReadGroups(env, l, xs[..|xs| - 1]), xs[|xs| - 1])
  }

  /** purple_blist_load, from the file if there is one. */
  function ReadList(env: Env, l: seq<LoadedGroup>, file: Option<Element>): seq<LoadedGroup> {
    if file.None? then l
    else
      var blist := Xml.Child(file.value, "blist");
      if blist.None? then l else ReadGroups(env, l, Named(blist.value.children, "group"))
  }

  // ------------------------------------------------------ what is kept of a list

  /** The settings that leave a trace; of two with the same name the later one counts. */
  function KeptTable(w: Walked<Value>): Table {
    if w == [] then map[]
    else var n := |w| - 1; if Lasts(w[n].1) then KeptTable(w[..n])[w[n].0 := w[n].1] else KeptTable(w[..n])
  }

  /** The components that are not NULL; an empty one comes back as NULL. */
  function KeptComponents(w: Walked<Option<string>>): Components {
    if w == [] then map[]
    else
      var n := |w| - 1;
      if w[n].1.Some? then KeptComponents(w[..n])[w[n].0 := NonEmpty(w[n].1)] else KeptComponents(w[..n])
  }

  /** A buddy is kept unless it is flagged, its account cannot be found, or its name is empty. */
  function KeptBuddy(env: Env, b: WalkedBuddy): Option<LoadedBuddy> {
    var account := Find(env, env.accounts, b.account.username, OscarConvert(b.account.username, b.account.protocol));
    if b.noSave || account.None? || b.name == "" then None
    else Some(Buddy(account.value, b.name, NonEmpty(b.alias), KeptTable(b.settings), false))
  }

  function KeptBuddies(env: Env, l: seq<WalkedBuddy>): seq<LoadedBuddy> {
    if l == [] then [] else KeptBuddies(env, l[..|l| - 1]) + Listed(KeptBuddy(env, l[|l| - 1]))
  }

  /**
   A contact is kept unless it is flagged or keeps no buddy; a chat unless it is flagged or its account cannot be found.
  */
  function KeptChild(env: Env, c: WalkedChild): Option<LoadedChild> {
    match c
    case Contact(alias, buddies, settings, noSave) =>
      var kept := KeptBuddies(env, buddies);
      if noSave || kept == [] then None else Some(Contact(NonEmpty(alias), kept, KeptTable(settings), false))
    case Chat(account, alias, components, settings, noSave) =>
      var found := Find(env, env.accounts, account.username, account.protocol);
      if noSave || found.None? then None
      else Some(Chat(found.value, NonEmpty(alias), KeptComponents(components), KeptTable(settings), false))
  }

  function KeptChildren(env: Env, l: seq<WalkedChild>): seq<LoadedChild> {
    if l == [] then [] else KeptChildren(env, l[..|l| - 1]) + Listed(KeptChild(env, l[|l| - 1]))
  }

  /** A group keeps its name, except that the default name of the writer's language becomes the reader's. */
  function KeptGroup(env: Env, g: WalkedGroup, buddies: string): LoadedGroup {
    Group(if g.name == buddies then env.buddies else g.name, KeptChildren(env, g.children),
          KeptTable(g.settings), false)
  }

  function KeptGroups(env: Env, l: seq<WalkedGroup>, buddies: string): seq<LoadedGroup> {
    if l == [] then []
    else
      var n := |l| - 1;
      KeptGroups(env, l[..n], buddies) + if l[n].noSave then [] else [KeptGroup(env, l[n], buddies)]
  }

  // -------------------------------------------------------------- round trip

  lemma {:induction false} TableBack(w: Walked<Value>)
    ensures PutAll(map[], RereadAll(SettingElements(w))) == KeptTable(w)
  {
    hide Reread, SettingElement, Put;
    var l := RereadAll(SettingElements(w));
    if w != [] {
      var n := |w| - 1;
      TableBack(w[..n]);
      assert l[..n] == RereadAll(SettingElements(w[..n]));
      SettingBack(KeptTable(w[..n]), w[n].0, w[n].1);
    }
  }

  lemma SettingBack(t: Table, name: string, v: Value)
    ensures Put(t, Reread(SettingElement(name, v)))
         == if v == StringValue(None) || v == StringValue(Some("")) then t else t[name := v]
  {
    match v {
      case IntValue(n) => AtoiItoa(n);
      case BoolValue(b) => AtoiItoa(if b then 1 else 0);
      case _ =>
    }
  }

  lemma {:induction false} ComponentsBack(w: Walked<Option<string>>)
    ensures PutComponents(map[], RereadAll(ComponentElements(w))) == KeptComponents(w)
  {
    hide Reread;
    if w != [] {
      var n := |w| - 1;
      ComponentsBack(w[..n]);
      if w[n].1.Some? {
        var x := Element("component", map["name" := w[n].0], w[n].1, []);
        ComponentBack(KeptComponents(w[..n]), w[n].0, w[n].1);
        RereadMore(ComponentElements(w[..n]), x);
        PutMoreComponents(RereadAll(ComponentElements(w[..n])), Reread(x));
      } else {
        assert ComponentElements(w) == ComponentElements(w[..n]);
      }
    }
  }

  lemma ComponentBack(c: Components, name: string, v: Option<string>)
    requires v.Some?
    ensures PutComponent(c, Reread(Element("component", map["name" := name], v, []))) == c[name := NonEmpty(v)]
  {
  }

  lemma PutMoreComponents(l: seq<Element>, x: Element)
    ensures PutComponents(map[], l + [x]) == PutComponent(PutComponents(map[], l), x)
  {
    assert (l + [x])[..|l|] == l;
  }

  lemma RereadMore(l: seq<Element>, x: Element)
    ensures RereadAll(l + [x]) == RereadAll(l) + [Reread(x)]
  {
  }

  predicate Called(l: seq<Element>, name: string) {
    forall i :: 0 <= i < |l| ==> l[i].name == name
  }

  lemma NamedCalled(l: seq<Element>, called: string, name: string)
    requires Called(l, called)
    ensures Named(l, name) == if name == called then l else []
  {
    if name == called {
      NamedAll(l, name);
    } else {
      NamedNone(l, name);
    }
  }

  /** What the children of one name are among three kinds of children. */
  lemma NamedThree(a: seq<Element>, an: string, b: seq<Element>, bn: string, c: seq<Element>, cn: string, name: string)
    requires Called(a, an) && Called(b, bn) && Called(c, cn)
    ensures Named(a + b + c, name) ==
            (if name == an then a else []) + (if name == bn then b else []) + (if name == cn then c else [])
  {
    NamedBoth(a + b, c, name);
    NamedBoth(a, b, name);
    NamedCalled(a, an, name);
    NamedCalled(b, bn, name);
    NamedCalled(c, cn, name);
  }

  lemma {:induction false} ComponentsCalled(w: Walked<Option<string>>)
    ensures Called(ComponentElements(w), "component")
  {
    if w != [] {
      ComponentsCalled(w[..|w| - 1]);
    }
  }

  lemma {:induction false} BuddiesCalled(l: seq<WalkedBuddy>)
    ensures Called(BuddyElements(l), "buddy")
  {
    if l != [] {
      BuddiesCalled(l[..|l| - 1]);
    }
  }

  lemma {:induction false} GroupsCalled(l: seq<WalkedGroup>, buddies: string)
    ensures Called(GroupElements(l, buddies), "group")
  {
    if l != [] {
      GroupsCalled(l[..|l| - 1], buddies);
    }
  }

  /** Text that was put into a child of its own. */
  lemma TextBack(x: Element, name: string, text: Option<string>)
    requires Named(x.children, name) == TextElement(name, text)
    ensures TextOf(Reread(x), name) == NonEmpty(text)
  {
    NamedReread(x.children, name);
    assert Reread(x).children == RereadAll(x.children);
    assert text.Some? ==> RereadAll(TextElement(name, text)) == [Reread(Element(name, map[], text, []))];
  }

  /** Settings that were put among other children. */
  lemma SettingsBack(x: Element, w: Walked<Value>)
    requires Named(x.children, "setting") == SettingElements(w)
    ensures PutAll(map[], Named(Reread(x).children, "setting")) == KeptTable(w)
  {
    NamedReread(x.children, "setting");
    assert Reread(x).children == RereadAll(x.children);
    TableBack(w);
  }

  lemma AccountBack(env: Env, x: Element, a: Account, convert: bool)
    requires x.attrs == AccountAttrs(a)
    ensures AccountOf(env, x, convert)
         == Find(env, env.accounts, a.username, if convert then OscarConvert(a.username, a.protocol) else a.protocol)
  {
  }

  lemma BuddyBack(env: Env, b: WalkedBuddy)
    requires !b.noSave
    ensures ReadBuddy(env, Reread(BuddyElement(b))) == KeptBuddy(env, b)
  {
    hide PutAll, KeptTable, SettingElements, Find, OscarConvert, Named;
    var x := BuddyElement(b);
    var name, alias, settings := TextElement("name", Some(b.name)), TextElement("alias", b.alias),
          SettingElements(b.settings);
    SettingsCalled(b.settings);
    NamedThree(name, "name", alias, "alias", settings, "setting", "name");
    NamedThree(name, "name", alias, "alias", settings, "setting", "alias");
    NamedThree(name, "name", alias, "alias", settings, "setting", "setting");
    TextBack(x, "name", Some(b.name));
    TextBack(x, "alias", b.alias);
    SettingsBack(x, b.settings);
    AccountBack(env, Reread(x), b.account, true);
  }

  lemma SettingsCalled(w: Walked<Value>)
    ensures Called(SettingElements(w), "setting")
  {
  }

  lemma {:induction false} BuddiesBack(env: Env, l: seq<WalkedBuddy>)
    ensures ReadBuddies(env, RereadAll(BuddyElements(l))) == KeptBuddies(env, l)
  {
    hide ReadBuddy, KeptBuddy, BuddyElement, Reread;
    if l != [] {
      var n := |l| - 1;
      BuddiesBack(env, l[..n]);
      if l[n].noSave {
        FlaggedBuddy(env, l[n]);
        assert BuddyElements(l) == BuddyElements(l[..n]) && KeptBuddies(env, l) == KeptBuddies(env, l[..n]);
      } else {
        BuddyBack(env, l[n]);
        var before, x := BuddyElements(l[..n]), BuddyElement(l[n]);
        RereadMore(before, x);
        assert (RereadAll(before) + [Reread(x)])[..|before|] == RereadAll(before);
      }
    }
  }

  lemma FlaggedBuddy(env: Env, b: WalkedBuddy)
    requires b.noSave
    ensures KeptBuddy(env, b) == None
  {
  }

  lemma ContactBack(env: Env, c: WalkedChild)
    requires c.Contact? && !c.noSave
    ensures ReadContact(env, Reread(ChildElement(c))) == KeptChild(env, c)
  {
    hide PutAll, KeptTable, SettingElements, BuddyElements, ReadBuddies, KeptBuddies, Named;
    var x := ChildElement(c);
    var buddies, settings := BuddyElements(c.buddies), SettingElements(c.settings);
    BuddiesCalled(c.buddies);
    SettingsCalled(c.settings);
    assert x.children == [] + buddies + settings;
    NamedThree([], "", buddies, "buddy", settings, "setting", "buddy");
    NamedThree([], "", buddies, "buddy", settings, "setting", "setting");
    SettingsBack(x, c.settings);
    NamedReread(x.children, "buddy");
    assert Reread(x).children == RereadAll(x.children);
    BuddiesBack(env, c.buddies);
    assert Named(x.children, "buddy") == buddies;
    assert ReadBuddies(env, Named(Reread(x).children, "buddy")) == KeptBuddies(env, c.buddies);
    assert NonEmpty(Attribute(Reread(x), "alias")) == NonEmpty(c.alias);
  }

  lemma ChatBack(env: Env, c: WalkedChild)
    requires c.Chat? && !c.noSave
    ensures ReadChat(env, Reread(ChildElement(c))) == KeptChild(env, c)
  {
    hide PutAll, KeptTable, SettingElements, ComponentElements, PutComponents, KeptComponents, Find, Named;
    var x := ChildElement(c);
    var alias, components, settings := TextElement("alias", c.alias), ComponentElements(c.components),
          SettingElements(c.settings);
    ComponentsCalled(c.components);
    SettingsCalled(c.settings);
    NamedThree(alias, "alias", components, "component", settings, "setting", "alias");
    NamedThree(alias, "alias", components, "component", settings, "setting", "component");
    NamedThree(alias, "alias", components, "component", settings, "setting", "setting");
    TextBack(x, "alias", c.alias);
    SettingsBack(x, c.settings);
    NamedReread(x.children, "component");
    assert Reread(x).children == RereadAll(x.children);
    ComponentsBack(c.components);
    AccountBack(env, Reread(x), c.account, false);
    assert Named(x.children, "component") == components && Named(x.children, "setting") == settings;
    assert TextOf(Reread(x), "alias") == NonEmpty(c.alias);
    assert PutComponents(map[], Named(Reread(x).children, "component")) == KeptComponents(c.components);
  }

  lemma ChildBack(env: Env, c: WalkedChild)
    requires !c.noSave
    ensures ReadChild(env, Reread(ChildElement(c))) == KeptChild(env, c)
  {
    hide ReadContact, ReadChat, KeptChild;
    if c.Contact? {
      ContactBack(env, c);
    } else {
      ChatBack(env, c);
    }
  }

  lemma FlaggedChild(env: Env, c: WalkedChild)
    requires c.noSave
    ensures KeptChild(env, c) == None
  {
  }

  lemma {:induction false} ChildrenBack(env: Env, l: seq<WalkedChild>)
    ensures ReadChildren(env, RereadAll(ChildElements(l))) == KeptChildren(env, l)
    ensures Named(ChildElements(l), "setting") == []
  {
    hide ReadChild, KeptChild, Reread;
    if l != [] {
      var n := |l| - 1;
      ChildrenBack(env, l[..n]);
      if l[n].noSave {
        FlaggedChild(env, l[n]);
        assert ChildElements(l) == ChildElements(l[..n]) && KeptChildren(env, l) == KeptChildren(env, l[..n]);
      } else {
        ChildBack(env, l[n]);
        var before, x := ChildElements(l[..n]), ChildElement(l[n]);
        RereadMore(before, x);
        assert (RereadAll(before) + [Reread(x)])[..|before|] == RereadAll(before);
        NamedBoth(before, [x], "setting");
        NamedNone([x], "setting");
      }
    }
  }

  /** The children that are settings are no children of the group. */
  lemma {:induction false} ReadPast(env: Env, settings: seq<Element>, l: seq<Element>)
    requires Called(settings, "setting")
    ensures ReadChildren(env, settings + l) == ReadChildren(env, l)
    decreases |settings| + |l|
  {
    hide ReadContact, ReadChat;
    var all := settings + l;
    if l != [] {
      var n := |l| - 1;
      ReadPast(env, settings, l[..n]);
      assert all[..|all| - 1] == settings + l[..n] && all[|all| - 1] == l[n];
    } else if settings != [] {
      var n := |settings| - 1;
      ReadPast(env, settings[..n], []);
      assert all == settings && settings[..n] + [] == settings[..n];
    } else {
      assert all == l;
    }
  }

  /** A group that is new goes to the end, with what its element holds. */
  lemma NewGroup(env: Env, l: seq<LoadedGroup>, x: Element, name: string)
    requires name != "" && name == if "name" in x.attrs then x.attrs["name"] else env.buddies
    requires FindGroup(env, l, name) == |l|
    ensures ReadGroup(env, l, x)
         == l + [Group(name, ReadChildren(env, x.children), PutAll(map[], Named(x.children, "setting")), false)]
  {
    hide PutAll, ReadChildren, Named, FindGroup;
    var r := AtEnd(env, l, name);
    assert r == l + [Group(name, [], map[], false)];
    assert [] + ReadChildren(env, x.children) == ReadChildren(env, x.children);
  }

  lemma GroupPartsBack(env: Env, g: WalkedGroup, buddies: string)
    ensures var x := Reread(GroupElement(g, buddies));
            && ReadChildren(env, x.children) == KeptChildren(env, g.children)
            && PutAll(map[], Named(x.children, "setting")) == KeptTable(g.settings)
  {
    hide PutAll, KeptTable, SettingElements, ReadChildren, KeptChildren, ChildElements, Named;
    var x := GroupElement(g, buddies);
    var settings, children := SettingElements(g.settings), ChildElements(g.children);
    SettingsCalled(g.settings);
    ChildrenBack(env, g.children);
    NamedBoth(settings, children, "setting");
    NamedCalled(settings, "setting", "setting");
    assert Named(x.children, "setting") == settings;
    SettingsBack(x, g.settings);
    RereadBoth(settings, children);
    SettingsReread(settings);
    ReadPast(env, RereadAll(settings), RereadAll(children));
    assert Reread(x).children == RereadAll(x.children);
  }

  /** What is read from the element of a group that is new. */
  lemma GroupBack(env: Env, l: seq<LoadedGroup>, g: WalkedGroup, buddies: string)
    requires g.name != "" && env.buddies != ""
    requires FindGroup(env, l, KeptGroup(env, g, buddies).name) == |l|
    ensures ReadGroup(env, l, Reread(GroupElement(g, buddies))) == l + [KeptGroup(env, g, buddies)]
  {
    hide PutAll, KeptTable, ReadChildren, KeptChildren, ReadGroup, Named, FindGroup;
    var x := Reread(GroupElement(g, buddies));
    assert x.attrs == GroupElement(g, buddies).attrs;
    NewGroup(env, l, x, KeptGroup(env, g, buddies).name);
    GroupPartsBack(env, g, buddies);
  }

  lemma SettingsReread(settings: seq<Element>)
    requires Called(settings, "setting")
    ensures Called(RereadAll(settings), "setting")
  {
  }

  /** No two groups have names that compare equal. */
  predicate Distinct(env: Env, l: seq<LoadedGroup>) {
    forall i, j :: 0 <= i < j < |l| ==> env.collate(l[i].name) != env.collate(l[j].name)
  }

  lemma {:induction false} GroupsBack(env: Env, l: seq<WalkedGroup>, buddies: string)
    requires env.buddies != "" && forall i :: 0 <= i < |l| ==> l[i].name != ""
    requires Distinct(env, KeptGroups(env, l, buddies))
    ensures ReadGroups(env, [], RereadAll(GroupElements(l, buddies))) == KeptGroups(env, l, buddies)
  {
    hide ReadGroup, KeptGroup, GroupElement, Reread, FindGroup;
    if l != [] {
      var n := |l| - 1;
      var kept, before := KeptGroups(env, l, buddies), KeptGroups(env, l[..n], buddies);
      assert forall i :: 0 <= i < |before| ==> before[i] == kept[i];
      GroupsBack(env, l[..n], buddies);
      if l[n].noSave {
        assert GroupElements(l, buddies) == GroupElements(l[..n], buddies) && kept == before;
      } else {
        var g := KeptGroup(env, l[n], buddies);
        assert kept == before + [g];
        assert forall i :: 0 <= i < |before| ==> env.collate(before[i].name) != env.collate(kept[|before|].name);
        GroupBack(env, before, l[n], buddies);
        var xs, x := GroupElements(l[..n], buddies), GroupElement(l[n], buddies);
        RereadMore(xs, x);
        assert (RereadAll(xs) + [Reread(x)])[..|xs|] == RereadAll(xs);
      }
    }
  }

  lemma AtEndDistinct(env: Env, l: seq<LoadedGroup>, name: string)
    requires Distinct(env, l)
    ensures Distinct(env, AtEnd(env, l, name))
  {
  }

  lemma StrayDistinct(env: Env, l: seq<LoadedGroup>, x: Element)
    requires Distinct(env, l)
    ensures Distinct(env, ReadStray(env, l, x))
  {
    hide ReadContact, ReadChat;
    EnsuredDistinct(env, l, env.buddies);
    EnsuredDistinct(env, l, env.chats);
  }

  lemma EnsuredDistinct(env: Env, l: seq<LoadedGroup>, name: string)
    requires Distinct(env, l)
    ensures Distinct(env, Ensured(env, l, name))
  {
  }

  lemma {:induction false} StraysDistinct(env: Env, l: seq<LoadedGroup>, xs: seq<Element>)
    requires Distinct(env, l)
    ensures Distinct(env, ReadStrays(env, l, xs))
  {
    hide ReadStray, Distinct;
    if xs != [] {
      StraysDistinct(env, l, xs[..|xs| - 1]);
      StrayDistinct(env, ReadStrays(env, l, xs[..|xs| - 1]), xs[|xs| - 1]);
    }
  }

  /** Loading never makes two groups of one name. */
  lemma {:induction false} ReadDistinct(env: Env, l: seq<LoadedGroup>, xs: seq<Element>)
    requires Distinct(env, l)
    ensures Distinct(env, ReadGroups(env, l, xs))
  {
    hide AtEnd, ReadChildren, ReadStrays, PutAll, Named;
    if xs != [] {
      var n := |xs| - 1;
      ReadDistinct(env, l, xs[..n]);
      StraysDistinct(env, ReadGroups(env, l, xs[..n]), xs[n].children);
      var name := if "name" in xs[n].attrs then xs[n].attrs["name"] else env.buddies;
      AtEndDistinct(env, ReadGroups(env, l, xs[..n]), name);
    }
  }

  /**
   A list that is written and read into an empty list is exactly what is kept of it, in the same order, if and only if
   the names of the groups that are written, with the default name in the reader's language, all compare different.
  */
  lemma RoundTrip(env: Env, l: seq<WalkedGroup>, buddies: string, privacy: seq<Element>)
    requires env.buddies != "" && forall i :: 0 <= i < |l| ==> l[i].name != ""
    ensures ReadList(env, [], Some(Reread(ListElement(l, buddies, privacy)))) == KeptGroups(env, l, buddies)
       <==> Distinct(env, KeptGroups(env, l, buddies))
  {
    hide ReadGroups, KeptGroups, GroupElements, Distinct;
    var x := ListElement(l, buddies, privacy);
    var blist := x.children[0];
    var read := Reread(x);
    assert read.children[0] == Reread(blist) && Reread(blist).name == "blist";
    assert Named(read.children, "blist")[0] == Reread(blist);
    GroupsCalled(l, buddies);
    NamedCalled(GroupElements(l, buddies), "group", "group");
    NamedReread(blist.children, "group");
    assert Reread(blist).children == RereadAll(blist.children);
    EmptyDistinct(env);
    ReadDistinct(env, [], RereadAll(GroupElements(l, buddies)));
    if Distinct(env, KeptGroups(env, l, buddies)) {
      GroupsBack(env, l, buddies);
    }
  }

  lemma EmptyDistinct(env: Env)
    ensures Distinct(env, [])
  {
  }

  // ------------------------------------------------------------ nothing is lost

  /** A hash table holds a name once. */
  predicate Once<V>(w: Walked<V>) {
    forall i, j :: 0 <= i < j < |w| ==> w[i].0 != w[j].0
  }

  /** `t` holds what `w` walks over, and nothing else. */
  predicate Holds<V(==)>(w: Walked<V>, t: map<string, V>) {
    && (forall i :: 0 <= i < |w| ==> w[i].0 in t && t[w[i].0] == w[i].1)
    && (forall k :: k in t ==> exists i :: 0 <= i < |w| && w[i].0 == k)
  }

  predicate WholeTable(w: Walked<Value>) {
    Once(w) && forall i :: 0 <= i < |w| && w[i].1.StringValue? ==> w[i].1.s.Some? && w[i].1.s.value != ""
  }

  predicate WholeComponents(w: Walked<Option<string>>) {
    Once(w) && forall i :: 0 <= i < |w| ==> w[i].1.Some? && w[i].1.value != ""
  }

  /** The strings are not empty, the account is found under its name and protocol, and the node is to be saved. */
  predicate WholeBuddy(env: Env, b: WalkedBuddy) {
    && !b.noSave && b.name != "" && b.alias != Some("") && WholeTable(b.settings)
    && b.account.protocol != "prpl-oscar"
    && Find(env, env.accounts, b.account.username, b.account.protocol) == Some(b.account)
  }

  predicate WholeChild(env: Env, c: WalkedChild) {
    && !c.noSave && c.alias != Some("") && WholeTable(c.settings)
    && match c
       case Contact(_, buddies, _, _) => buddies != [] && forall i :: 0 <= i < |buddies| ==> WholeBuddy(env, buddies[i])
       case Chat(account, _, components, _, _) =>
         WholeComponents(components) && Find(env, env.accounts, account.username, account.protocol) == Some(account)
  }

  predicate WholeGroup(env: Env, g: WalkedGroup) {
    && !g.noSave && g.name != "" && WholeTable(g.settings)
    && forall i :: 0 <= i < |g.children| ==> WholeChild(env, g.children[i])
  }

  predicate SameBuddy(b: WalkedBuddy, r: LoadedBuddy) {
    r.account == b.account && r.name == b.name && r.alias == b.alias && Holds(b.settings, r.settings)
  }

  predicate SameChild(c: WalkedChild, r: LoadedChild) {
    && c.alias == r.alias && Holds(c.settings, r.settings)
    && match c
       case Contact(_, buddies, _, _) =>
         r.Contact? && |r.buddies| == |buddies| && forall i :: 0 <= i < |buddies| ==>
             SameBuddy(buddies[i], r.buddies[i])
       case Chat(account, _, components, _, _) => r.Chat? && r.account == account && Holds(components, r.components)
  }

  predicate SameGroup(g: WalkedGroup, r: LoadedGroup) {
    && g.name == r.name && Holds(g.settings, r.settings)
    && |g.children| == |r.children| && forall i :: 0 <= i < |g.children| ==> SameChild(g.children[i], r.children[i])
  }

  predicate SameList(l: seq<WalkedGroup>, r: seq<LoadedGroup>) {
    |l| == |r| && forall i :: 0 <= i < |l| ==> SameGroup(l[i], r[i])
  }

  /** One entry more, under a name that was not there. */
  lemma HoldsMore<V>(w: Walked<V>, t: map<string, V>)
    requires w != [] && Once(w) && Holds(w[..|w| - 1], t)
    ensures Holds(w, t[w[|w| - 1].0 := w[|w| - 1].1])
  {
    var n := |w| - 1;
    var t' := t[w[n].0 := w[n].1];
    forall k | k in t' ensures exists i :: 0 <= i < |w| && w[i].0 == k {
      if k != w[n].0 {
        var i :| 0 <= i < n && w[..n][i].0 == k;
        assert w[i].0 == k;
      }
    }
    assert forall i :: 0 <= i < n ==> w[..n][i] == w[i];
  }

  lemma {:induction false} TableKept(w: Walked<Value>)
    requires WholeTable(w)
    ensures Holds(w, KeptTable(w))
  {
    if w != [] {
      TableKept(w[..|w| - 1]);
      HoldsMore(w, KeptTable(w[..|w| - 1]));
    }
  }

  lemma {:induction false} ComponentsKept(w: Walked<Option<string>>)
    requires WholeComponents(w)
    ensures Holds(w, KeptComponents(w))
  {
    if w != [] {
      ComponentsKept(w[..|w| - 1]);
      HoldsMore(w, KeptComponents(w[..|w| - 1]));
    }
  }

  lemma {:induction false} BuddiesKept(env: Env, l: seq<WalkedBuddy>)
    requires forall i :: 0 <= i < |l| ==> WholeBuddy(env, l[i])
    ensures |KeptBuddies(env, l)| == |l|
    ensures forall i :: 0 <= i < |l| ==> SameBuddy(l[i], KeptBuddies(env, l)[i])
  {
    hide Holds, KeptTable, WholeTable, Find;
    if l != [] {
      BuddiesKept(env, l[..|l| - 1]);
      TableKept(l[|l| - 1].settings);
    }
  }

  lemma ChildKept(env: Env, c: WalkedChild)
    requires WholeChild(env, c)
    ensures KeptChild(env, c).Some? && SameChild(c, KeptChild(env, c).value)
  {
    hide Holds, KeptTable, WholeTable, KeptComponents, WholeComponents, WholeBuddy, SameBuddy, KeptBuddies;
    TableKept(c.settings);
    match c {
      case Contact(_, buddies, _, _) => BuddiesKept(env, buddies);
      case Chat(_, _, components, _, _) => ComponentsKept(components);
    }
  }

  lemma {:induction false} ChildrenKept(env: Env, l: seq<WalkedChild>)
    requires forall i :: 0 <= i < |l| ==> WholeChild(env, l[i])
    ensures |KeptChildren(env, l)| == |l|
    ensures forall i :: 0 <= i < |l| ==> SameChild(l[i], KeptChildren(env, l)[i])
  {
    hide WholeChild, SameChild, KeptChild;
    if l != [] {
      ChildrenKept(env, l[..|l| - 1]);
      ChildKept(env, l[|l| - 1]);
    }
  }

  lemma {:induction false} GroupsKept(env: Env, l: seq<WalkedGroup>)
    requires forall i :: 0 <= i < |l| ==> WholeGroup(env, l[i])
    ensures SameList(l, KeptGroups(env, l, env.buddies))
  {
    hide Holds, KeptTable, WholeTable, WholeChild, SameChild, KeptChildren;
    if l != [] {
      var n := |l| - 1;
      GroupsKept(env, l[..n]);
      TableKept(l[n].settings);
      ChildrenKept(env, l[n].children);
      var kept, before := KeptGroups(env, l, env.buddies), KeptGroups(env, l[..n], env.buddies);
      assert SameGroup(l[n], kept[n]);
      assert forall i :: 0 <= i < n ==> l[..n][i] == l[i] && kept[i] == before[i];
    }
  }

  /**
   A list in which nothing is empty, flagged or foreign comes back with every node, name, alias and setting in place.
  */
  lemma NothingLost(env: Env, l: seq<WalkedGroup>, privacy: seq<Element>)
    requires env.buddies != "" && forall i :: 0 <= i < |l| ==> WholeGroup(env, l[i])
    requires forall i, j :: 0 <= i < j < |l| ==> env.collate(l[i].name) != env.collate(l[j].name)
    ensures SameList(l, ReadList(env, [], Some(Reread(ListElement(l, env.buddies, privacy)))))
  {
    GroupsKept(env, l);
    RoundTrip(env, l, env.buddies, privacy);
  }

  // ------------------------------------------------------------------ in steps

  method WriteContact(c: WalkedChild) returns (x: Element)
    requires c.Contact?
    ensures x == ChildElement(c)
  {
    var l, children := c.buddies, [];
    for i := 0 to |l|
      invariant children == BuddyElements(l[..i])
    {
      assert l[..i + 1][..i] == l[..i];
      if !l[i].noSave {
        children := children + [BuddyElement(l[i])];
      }
    }
    assert l[..|l|] == l;
    x := Element("contact", if c.alias.Some? then map["alias" := c.alias.value] else map[], None,
                 children + SettingElements(c.settings));
  }

  method WriteGroup(g: WalkedGroup, buddies: string) returns (x: Element)
    ensures x == GroupElement(g, buddies)
  {
    var l, children := g.children, [];
    for i := 0 to |l|
      invariant children == ChildElements(l[..i])
    {
      assert l[..i + 1][..i] == l[..i];
      if !l[i].noSave {
        var child := ChildElement(l[i]);
        if l[i].Contact? {
          child := WriteContact(l[i]);
        }
        children := children + [child];
      }
    }
    assert l[..|l|] == l;
    x := Element("group", if g.name != buddies then map["name" := g.name] else map[], None,
                 SettingElements(g.settings) + children);
  }

  method WriteList(l: seq<WalkedGroup>, buddies: string, privacy: seq<Element>) returns (x: Element)
    ensures x == ListElement(l, buddies, privacy)
  {
    var groups := [];
    for i := 0 to |l|
      invariant groups == GroupElements(l[..i], buddies)
    {
      assert l[..i + 1][..i] == l[..i];
      if !l[i].noSave {
        var group := WriteGroup(l[i], buddies);
        groups := groups + [group];
      }
    }
    assert l[..|l|] == l;
    x := Element("purple", map["version" := "1.0"], None,
                 [Element("blist", map[], None, groups), Element("privacy", map[], None, privacy)]);
  }

  method FindAccount(env: Env, name: string, protocol: string) returns (account: Option<Account>)
    ensures account == Find(env, env.accounts, name, protocol)
  {
    var l := env.accounts;
    for i := 0 to |l|
      invariant Find(env, l, name, protocol) == Find(env, l[i..], name, protocol)
    {
      assert l[i..][1..] == l[i + 1..];
      if l[i].protocol == protocol {
        var who := env.normalize(l[i], name);
        if env.normalize(l[i], l[i].username) == who {
          return Some(l[i]);
        }
      }
    }
    account := None;
  }

  /** Under its own name an account is found exactly if none before it answers to that name. */
  lemma {:induction false} FoundItself(env: Env, accounts: seq<Account>, i: nat)
    requires i < |accounts| && forall j :: 0 <= j < i ==> accounts[j] != accounts[i]
    ensures Find(env, accounts, accounts[i].username, accounts[i].protocol) == Some(accounts[i])
       <==> forall j :: 0 <= j < i ==> accounts[j].protocol == accounts[i].protocol ==>
              env.normalize(accounts[j], accounts[j].username) != env.normalize(accounts[j], accounts[i].username)
  {
    if j :| 0 <= j < i && IsAccount(env, accounts[j], accounts[i].username, accounts[i].protocol) {
      FoundEarly(env, accounts, accounts[i].username, accounts[i].protocol, j);
    } else {
      FoundFirst(env, accounts, accounts[i].username, accounts[i].protocol, i);
    }
  }

  /** The first account that answers is found, and if none answers none is. */
  lemma {:induction false} FoundFirst(env: Env, accounts: seq<Account>, name: string, protocol: string, i: nat)
    requires i <= |accounts|
    requires forall j :: 0 <= j < i && accounts[j].protocol == protocol ==>
               env.normalize(accounts[j], accounts[j].username) != env.normalize(accounts[j], name)
    ensures i == |accounts| ==> Find(env, accounts, name, protocol) == None
    ensures i < |accounts| && accounts[i].protocol == protocol
            && env.normalize(accounts[i], accounts[i].username) == env.normalize(accounts[i], name) ==>
              Find(env, accounts, name, protocol) == Some(accounts[i])
  {
    if i > 0 {
      FoundFirst(env, accounts[1..], name, protocol, i - 1);
    }
  }

  /** If one answers, it or an earlier one is found. */
  lemma {:induction false} FoundEarly(env: Env, accounts: seq<Account>, name: string, protocol: string, i: nat)
    requires i < |accounts| && IsAccount(env, accounts[i], name, protocol)
    ensures exists j :: 0 <= j <= i && Find(env, accounts, name, protocol) == Some(accounts[j])
  {
    if i > 0 && !IsAccount(env, accounts[0], name, protocol) {
      FoundEarly(env, accounts[1..], name, protocol, i - 1);
      var j :| 0 <= j <= i - 1 && Find(env, accounts[1..], name, protocol) == Some(accounts[1..][j]);
      assert accounts[1..][j] == accounts[j + 1];
    }
  }

  lemma NamedNext(l: seq<Element>, i: nat, name: string)
    requires i < |l|
    ensures Named(l[..i + 1], name) == if l[i].name == name then Named(l[..i], name) + [l[i]] else Named(l[..i], name)
  {
    assert l[..i + 1] == l[..i] + [l[i]];
    NamedBoth(l[..i], [l[i]], name);
  }

  lemma PutMore(t: Table, l: seq<Element>, x: Element)
    ensures PutAll(t, l + [x]) == Put(PutAll(t, l), x)
  {
    assert (l + [x])[..|l|] == l;
  }

  lemma ReadMoreBuddies(env: Env, l: seq<Element>, x: Element)
    ensures ReadBuddies(env, l + [x]) == ReadBuddies(env, l) + Listed(ReadBuddy(env, x))
  {
    assert (l + [x])[..|l|] == l;
  }

  method ParseSettings(l: seq<Element>) returns (t: Table)
    ensures t == PutAll(map[], l)
  {
    t := map[];
    for i := 0 to |l|
      invariant t == PutAll(map[], l[..i])
    {
      assert l[..i + 1][..i] == l[..i];
      t := Put(t, l[i]);
    }
    assert l[..|l|] == l;
  }

  method ParseBuddy(env: Env, x: Element) returns (buddy: Option<LoadedBuddy>)
    ensures buddy == ReadBuddy(env, x)
  {
    var protocol := Protocol(x);
    if "account" !in x.attrs || protocol.None? {
      return None;
    }
    var name := x.attrs["account"];
    var account := FindAccount(env, name, OscarConvert(name, protocol.value));
    if account.None? || TextOf(x, "name").None? {
      return None;
    }
    var settings := ParseSettings(Named(x.children, "setting"));
    buddy := Some(Buddy(account.value, TextOf(x, "name").value, TextOf(x, "alias"), settings, false));
  }

  method ParseContact(env: Env, x: Element) returns (contact: Option<LoadedChild>)
    ensures contact == ReadContact(env, x)
  {
    hide ReadBuddies, PutAll, Put, ReadBuddy, Named;
    var l, buddies, settings := x.children, [], map[];
    NothingRead(env);
    for i := 0 to |l|
      invariant buddies == ReadBuddies(env, Named(l[..i], "buddy"))
      invariant settings == PutAll(map[], Named(l[..i], "setting"))
    {
      NamedNext(l, i, "buddy");
      NamedNext(l, i, "setting");
      if l[i].name == "buddy" {
        ReadMoreBuddies(env, Named(l[..i], "buddy"), l[i]);
        var buddy := ParseBuddy(env, l[i]);
        if buddy.Some? {
          buddies := buddies + [buddy.value];
        }
      } else if l[i].name == "setting" {
        PutMore(map[], Named(l[..i], "setting"), l[i]);
        settings := Put(settings, l[i]);
      }
    }
    assert l[..|l|] == l;
    contact := if buddies == [] then None else Some(Contact(NonEmpty(Attribute(x, "alias")), buddies, settings, false));
  }

  lemma NothingRead(env: Env)
    ensures ReadBuddies(env, Named([], "buddy")) == [] && PutAll(map[], Named([], "setting")) == map[]
  {
  }

  method ParseChat(env: Env, x: Element) returns (chat: Option<LoadedChild>)
    ensures chat == ReadChat(env, x)
  {
    var protocol := Protocol(x);
    if "account" !in x.attrs || protocol.None? {
      return None;
    }
    var account := FindAccount(env, x.attrs["account"], protocol.value);
    if account.None? {
      return None;
    }
    var l, components := Named(x.children, "component"), map[];
    for i := 0 to |l|
      invariant components == PutComponents(map[], l[..i])
    {
      assert l[..i + 1][..i] == l[..i];
      components := PutComponent(components, l[i]);
    }
    assert l[..|l|] == l;
    var settings := ParseSettings(Named(x.children, "setting"));
    chat := Some(Chat(account.value, NonEmpty(TextOf(x, "alias")), components, settings, false));
  }

  /** The list that is loaded into. */
  class Roster {
    var groups: seq<LoadedGroup>

    /** The last group takes up what an element holds, child by child. */
    method Fill(env: Env, l: seq<Element>)
      requires groups != []
      modifies this
      ensures var n := |old(groups)| - 1;
              var g := old(groups)[n];
              groups == old(groups)[n := g.(settings := PutAll(g.settings, Named(l, "setting")),
                                            children := g.children + ReadChildren(env, l))]
    {
      hide PutAll, Put, ReadContact, ReadChat, Named;
      var n := |groups| - 1;
      ghost var g := groups[n];
      NoChildren(env, g.settings);
      assert groups[n := g] == groups && g.children + [] == g.children;
      for i := 0 to |l|
        invariant groups == old(groups)[n := g.(settings := PutAll(g.settings, Named(l[..i], "setting")),
                                                children := g.children + ReadChildren(env, l[..i]))]
      {
        NamedNext(l, i, "setting");
        MoreChildren(env, g.children, l, i);
        var c: Option<LoadedChild> := None;
        if l[i].name == "setting" {
          PutMore(g.settings, Named(l[..i], "setting"), l[i]);
          groups := groups[n := groups[n].(settings := Put(groups[n].settings, l[i]))];
        } else if l[i].name == "contact" || l[i].name == "person" {
          c := ParseContact(env, l[i]);
        } else if l[i].name == "chat" {
          c := ParseChat(env, l[i]);
        }
        if c.Some? {
          groups := groups[n := groups[n].(children := groups[n].children + [c.value])];
        }
      }
      assert l[..|l|] == l;
    }

    /** The contacts and chats of an element whose group could not be made. */
    method Stray(env: Env, l: seq<Element>)
      modifies this
      ensures groups == ReadStrays(env, old(groups), l)
    {
      hide ReadContact, ReadChat, InFront, Ensured;
      for i := 0 to |l|
        invariant groups == ReadStrays(env, old(groups), l[..i])
      {
        assert l[..i + 1][..i] == l[..i];
        if l[i].name == "contact" || l[i].name == "person" {
          var c := ParseContact(env, l[i]);
          groups := if c.Some? then InFront(env, groups, env.buddies, c.value) else Ensured(env, groups, env.buddies);
        } else if l[i].name == "chat" {
          var c := ParseChat(env, l[i]);
          groups := if c.Some? then InFront(env, groups, env.chats, c.value) else groups;
        }
      }
      assert l[..|l|] == l;
    }

    method ParseGroup(env: Env, x: Element)
      modifies this
      ensures groups == ReadGroup(env, old(groups), x)
    {
      var name := if "name" in x.attrs then x.attrs["name"] else env.buddies;
      if name == "" {
        Stray(env, x.children);
      } else {
        groups := AtEnd(env, groups, name);
        Fill(env, x.children);
      }
    }

    method Load(env: Env, file: Option<Element>)
      modifies this
      ensures groups == ReadList(env, old(groups), file)
    {
      if file.None? || Xml.Child(file.value, "blist").None? {
        return;
      }
      var l := Named(Xml.Child(file.value, "blist").value.children, "group");
      for i := 0 to |l|
        invariant groups == ReadGroups(env, old(groups), l[..i])
      {
        assert l[..i + 1][..i] == l[..i];
        ParseGroup(env, l[i]);
      }
      assert l[..|l|] == l;
    }
  }

  lemma MoreChildren(env: Env, before: seq<LoadedChild>, l: seq<Element>, i: nat)
    requires i < |l|
    ensures var c := ReadChild(env, l[i]);
            before + ReadChildren(env, l[..i + 1]) ==
              (if c.Some? then before + ReadChildren(env, l[..i]) + [c.value] else before + ReadChildren(env, l[..i]))
  {
    assert l[..i + 1][..i] == l[..i];
  }

  lemma NoChildren(env: Env, t: Table)
    ensures ReadChildren(env, []) == [] && PutAll(t, Named([], "setting")) == t
  {
  }
}
