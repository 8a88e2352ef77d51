/**
 The file of the list, element by element: what is written of each node, by the names of elements and attributes, and
 what is understood of files that older versions wrote.
*/
module BlistFormat {
  import opened Options
  import opened Xml
  import opened BlistXml

  // ---------------------------------------------------------------- as written

  /** A setting: its name, its type, and its value as text. */
  predicate IsSetting(x: Element, name: string, v: Value) {
    && x.name == "setting" && x.children == []
    && match v
       case IntValue(n) => x.attrs == map["name" := name, "type" := "int"] && x.data == Some(Itoa(n))
       case BoolValue(b) =>
         x.attrs == map["name" := name, "type" := "bool"] && x.data == Some(if b then "1" else "0")
       case StringValue(s) => x.attrs == map["name" := name, "type" := "string"] && x.data == s
  }

  /** The elements from index `at` on are the settings, in the order in which they are walked. */
  predicate EndsWithSettings(l: seq<Element>, at: nat, w: Walked<Value>) {
    |l| == at + |w| && forall i :: 0 <= i < |w| ==> IsSetting(l[at + i], w[i].0, w[i].1)
  }

  predicate IsAccountOf(attrs: map<string, string>, a: Account) {
    attrs == map["account" := a.username, "proto" := a.protocol]
  }

  predicate IsBuddy(x: Element, b: WalkedBuddy) {
    var n := if b.alias.Some? then 2 else 1;
    && x.name == "buddy" && IsAccountOf(x.attrs, b.account) && x.data == None
    && EndsWithSettings(x.children, n, b.settings)
    && x.children[0] == Element("name", map[], Some(b.name), [])
    && (b.alias.Some? ==> x.children[1] == Element("alias", map[], b.alias, []))
  }

  /** The indices that are not flagged, in order. */
  function Unflagged(flags: seq<bool>): (r: seq<nat>)
    ensures forall k :: 0 <= k < |r| ==> r[k] < |flags| && !flags[r[k]]
    ensures forall j, k :: 0 <= j < k < |r| ==> r[j] < r[k]
    ensures forall i :: 0 <= i < |flags| && !flags[i] ==> i in r
  {
    if flags == [] then []
    else var n := |flags| - 1; Unflagged(flags[..n]) + if flags[n] then [] else [n]
  }

  /** Where the buddies are that are saved; likewise for the other kinds of nodes, and components that are not NULL. */
  function SavedBuddies(l: seq<WalkedBuddy>): (r: seq<nat>)
    ensures forall k :: 0 <= k < |r| ==> r[k] < |l|
  {
    Unflagged(seq(|l|, i requires 0 <= i < |l| => l[i].noSave))
  }

  function SavedChildren(l: seq<WalkedChild>): (r: seq<nat>)
    ensures forall k :: 0 <= k < |r| ==> r[k] < |l|
  {
    Unflagged(seq(|l|, i requires 0 <= i < |l| => l[i].noSave))
  }

  function SavedGroups(l: seq<WalkedGroup>): (r: seq<nat>)
    ensures forall k :: 0 <= k < |r| ==> r[k] < |l|
  {
    Unflagged(seq(|l|, i requires 0 <= i < |l| => l[i].noSave))
  }

  function SavedComponents(w: Walked<Option<string>>): (r: seq<nat>)
    ensures forall k :: 0 <= k < |r| ==> r[k] < |w|
  {
    Unflagged(seq(|w|, i requires 0 <= i < |w| => w[i].1.None?))
  }

  lemma SavedBuddiesMore(l: seq<WalkedBuddy>)
    requires l != []
    ensures var n := |l| - 1; SavedBuddies(l) == SavedBuddies(l[..n]) + if l[n].noSave then [] else [n]
  {
    var n := |l| - 1;
    assert seq(|l|, i requires 0 <= i < |l| => l[i].noSave)[..n]
        == seq(|l[..n]|, i requires 0 <= i < |l[..n]| => l[..n][i].noSave);
  }

  lemma SavedChildrenMore(l: seq<WalkedChild>)
    requires l != []
    ensures var n := |l| - 1; SavedChildren(l) == SavedChildren(l[..n]) + if l[n].noSave then [] else [n]
  {
    var n := |l| - 1;
    assert seq(|l|, i requires 0 <= i < |l| => l[i].noSave)[..n]
        == seq(|l[..n]|, i requires 0 <= i < |l[..n]| => l[..n][i].noSave);
  }

  lemma SavedGroupsMore(l: seq<WalkedGroup>)
    requires l != []
    ensures var n := |l| - 1; SavedGroups(l) == SavedGroups(l[..n]) + if l[n].noSave then [] else [n]
  {
    var n := |l| - 1;
    assert seq(|l|, i requires 0 <= i < |l| => l[i].noSave)[..n]
        == seq(|l[..n]|, i requires 0 <= i < |l[..n]| => l[..n][i].noSave);
  }

  lemma SavedComponentsMore(l: seq<(string, Option<string>)>)
    requires l != []
    ensures var n := |l| - 1; SavedComponents(l) == SavedComponents(l[..n]) + if l[n].1.None? then [] else [n]
  {
    var n := |l| - 1;
    assert seq(|l|, i requires 0 <= i < |l| => l[i].1.None?)[..n]
        == seq(|l[..n]|, i requires 0 <= i < |l[..n]| => l[..n][i].1.None?);
  }

  predicate IsComponent(x: Element, name: string, text: Option<string>) {
    x == Element("component", map["name" := name], text, [])
  }

  predicate IsChild(x: Element, c: WalkedChild) {
    && x.data == None
    && match c
       case Contact(alias, buddies, settings, _) =>
         var u := SavedBuddies(buddies);
         && x.name == "contact" && x.attrs == (if alias.Some? then map["alias" := alias.value] else map[])
         && EndsWithSettings(x.children, |u|, settings)
         && forall k :: 0 <= k < |u| ==> IsBuddy(x.children[k], buddies[u[k]])
       case Chat(account, alias, components, settings, _) =>
         var u, n := SavedComponents(components), if alias.Some? then 1 else 0;
         && x.name == "chat" && IsAccountOf(x.attrs, account)
         && EndsWithSettings(x.children, n + |u|, settings)
         && (alias.Some? ==> x.children[0] == Element("alias", map[], alias, []))
         && forall k :: 0 <= k < |u| ==> IsComponent(x.children[n + k], components[u[k]].0, components[u[k]].1)
  }

  /** The elements are, in order, those of the children at the places `u`. */
  predicate ChildrenAre(es: seq<Element>, l: seq<WalkedChild>, u: seq<nat>) {
    |es| == |u| && forall k :: 0 <= k < |u| ==> u[k] < |l| && IsChild(es[k], l[u[k]])
  }

  predicate IsGroup(x: Element, g: WalkedGroup, buddies: string) {
    var u, n := SavedChildren(g.children), |g.settings|;
    && x.name == "group" && x.data == None
    && x.attrs == (if g.name == buddies then map[] else map["name" := g.name])
    && |x.children| == n + |u| && EndsWithSettings(x.children[..n], 0, g.settings)
    && ChildrenAre(x.children[n..], g.children, u)
  }

  predicate IsList(x: Element, l: seq<WalkedGroup>, buddies: string, privacy: seq<Element>) {
    var u := SavedGroups(l);
    && x.name == "purple" && x.attrs == map["version" := "1.0"] && x.data == None && |x.children| == 2
    && x.children[1] == Element("privacy", map[], None, privacy)
    && var blist := x.children[0];
       && blist.name == "blist" && blist.attrs == map[] && blist.data == None
       && |blist.children| == |u| && forall k :: 0 <= k < |u| ==> IsGroup(blist.children[k], l[u[k]], buddies)
  }

  lemma SettingsWritten(w: Walked<Value>)
    ensures EndsWithSettings(SettingElements(w), 0, w)
  {
  }

  lemma SettingsBehind(before: seq<Element>, w: Walked<Value>)
    ensures EndsWithSettings(before + SettingElements(w), |before|, w) && |SettingElements(w)| == |w|
  {
    hide IsSetting, SettingElement;
    SettingsWritten(w);
    assert forall i :: 0 <= i < |w| ==> (before + SettingElements(w))[|before| + i] == SettingElements(w)[i];
  }

  lemma BuddyWritten(b: WalkedBuddy)
    ensures IsBuddy(BuddyElement(b), b)
  {
    hide SettingElement, IsSetting;
    SettingsBehind(TextElement("name", Some(b.name)) + TextElement("alias", b.alias), b.settings);
  }

  lemma {:induction false} BuddiesWritten(l: seq<WalkedBuddy>)
    ensures |BuddyElements(l)| == |SavedBuddies(l)|
    ensures forall k :: 0 <= k < |SavedBuddies(l)| ==> IsBuddy(BuddyElements(l)[k], l[SavedBuddies(l)[k]])
  {
    if l != [] {
      hide IsBuddy, BuddyElement, SavedBuddies;
      var n := |l| - 1;
      BuddiesWritten(l[..n]);
      BuddyWritten(l[n]);
      SavedBuddiesMore(l);
      if l[n].noSave {
        assert BuddyElements(l) == BuddyElements(l[..n]) && SavedBuddies(l) == SavedBuddies(l[..n]);
      }
    }
  }

  lemma {:induction false} ComponentsWritten(w: Walked<Option<string>>)
    ensures |ComponentElements(w)| == |SavedComponents(w)|
    ensures forall k :: 0 <= k < |SavedComponents(w)| ==>
              IsComponent(ComponentElements(w)[k], w[SavedComponents(w)[k]].0, w[SavedComponents(w)[k]].1)
  {
    if w != [] {
      hide SavedComponents;
      var n := |w| - 1;
      ComponentsWritten(w[..n]);
      SavedComponentsMore(w);
    }
  }

  lemma ContactWritten(c: WalkedChild)
    requires c.Contact?
    ensures IsChild(ChildElement(c), c)
  {
    hide SettingElements, EndsWithSettings, IsBuddy, SavedBuddies, BuddyElements;
    BuddiesWritten(c.buddies);
    SettingsBehind(BuddyElements(c.buddies), c.settings);
  }

  lemma ChatWritten(c: WalkedChild)
    requires c.Chat?
    ensures IsChild(ChildElement(c), c)
  {
    hide SettingElements, EndsWithSettings, SavedComponents, ComponentElements, IsComponent, IsBuddy, SavedBuddies;
    var parts, n := ComponentElements(c.components), if c.alias.Some? then 1 else 0;
    var front := TextElement("alias", c.alias) + parts;
    ComponentsWritten(c.components);
    SettingsBehind(front, c.settings);
    assert forall k :: 0 <= k < |parts| ==> front[n + k] == parts[k];
  }

  lemma ChildrenMore(es: seq<Element>, l: seq<WalkedChild>, u: seq<nat>, x: Element)
    requires l != [] && ChildrenAre(es, l[..|l| - 1], u)
    ensures ChildrenAre(es, l, u)
    ensures IsChild(x, l[|l| - 1]) ==> ChildrenAre(es + [x], l, u + [|l| - 1])
  {
    hide IsChild;
    var n := |l| - 1;
    assert forall k :: 0 <= k < |u| ==> l[..n][u[k]] == l[u[k]];
  }

  lemma {:induction false} ChildrenWritten(l: seq<WalkedChild>)
    ensures ChildrenAre(ChildElements(l), l, SavedChildren(l))
  {
    if l != [] {
      hide IsChild, ChildElement, SavedChildren, ChildrenAre;
      var n := |l| - 1;
      ChildrenWritten(l[..n]);
      if l[n].Contact? {
        ContactWritten(l[n]);
      } else {
        ChatWritten(l[n]);
      }
      SavedChildrenMore(l);
      ChildrenMore(ChildElements(l[..n]), l, SavedChildren(l[..n]), ChildElement(l[n]));
      if l[n].noSave {
        assert ChildElements(l) == ChildElements(l[..n]) && SavedChildren(l) == SavedChildren(l[..n]);
      }
    }
  }

  lemma GroupWritten(g: WalkedGroup, buddies: string)
    ensures IsGroup(GroupElement(g, buddies), g, buddies)
  {
    hide IsChild, ChildElements, SavedChildren, IsSetting, SettingElement;
    SettingsWritten(g.settings);
    ChildrenWritten(g.children);
    var l, n := SettingElements(g.settings) + ChildElements(g.children), |g.settings|;
    assert l[..n] == SettingElements(g.settings) && l[n..] == ChildElements(g.children);
  }

  lemma {:induction false} GroupsWritten(l: seq<WalkedGroup>, buddies: string)
    ensures |GroupElements(l, buddies)| == |SavedGroups(l)|
    ensures forall k :: 0 <= k < |SavedGroups(l)| ==>
              IsGroup(GroupElements(l, buddies)[k], l[SavedGroups(l)[k]], buddies)
  {
    if l != [] {
      hide IsGroup, GroupElement, SavedGroups;
      var n := |l| - 1;
      GroupsWritten(l[..n], buddies);
      GroupWritten(l[n], buddies);
      SavedGroupsMore(l);
    }
  }

  /**
   What the file holds: every node that is not flagged, in order, each under the names that the elements and attributes
   of the file have.
  */
  lemma ListWritten(l: seq<WalkedGroup>, buddies: string, privacy: seq<Element>)
    ensures IsList(ListElement(l, buddies, privacy), l, buddies, privacy)
  {
    hide IsGroup, GroupElements, SavedGroups;
    GroupsWritten(l, buddies);
  }

  // ------------------------------------------------------------------ as read

  /**
   Whom a buddy element belongs to. The protocol is the attribute proto, or else protocol; the old name prpl-oscar
   stands for prpl-icq if the account's name has digits only, and for prpl-aim otherwise.
  */
  lemma BuddyBelongs(env: Env, x: Element)
    ensures var named, b := "proto" in x.attrs || "protocol" in x.attrs, ReadBuddy(env, x);
            if "account" !in x.attrs || !named then b == None
            else
              var who, protocol := x.attrs["account"], x.attrs[if "proto" in x.attrs then "proto" else "protocol"];
              var digits := forall i :: 0 <= i < |who| ==> '0' <= who[i] <= '9';
              var found := Find(env, env.accounts, who,
                                if protocol == "prpl-oscar" then if digits then "prpl-icq" else "prpl-aim"
                                else protocol);
              if found == None then b == None else b.Some? ==> b.value.account == found.value
  {
    hide Find, PutAll, Named;
  }

  /** The same of a chat element, except that prpl-oscar is a protocol like any other. */
  lemma ChatBelongs(env: Env, x: Element)
    ensures var named, c := "proto" in x.attrs || "protocol" in x.attrs, ReadChat(env, x);
            if "account" !in x.attrs || !named then c == None
            else
              var found := Find(env, env.accounts, x.attrs["account"],
                                x.attrs[if "proto" in x.attrs then "proto" else "protocol"]);
              c.Some? == found.Some? && (c.Some? ==> c.value.Chat? && c.value.account == found.value)
  {
    hide Find, PutAll, PutComponents, Named;
  }

  /** A contact may be called person, a setting without a type is a string, and one of an unknown type is skipped. */
  lemma OldForms(env: Env, x: Element, t: Table)
    ensures ReadChild(env, x.(name := "person")) == ReadChild(env, x.(name := "contact"))
    ensures x.name !in {"person", "contact", "chat"} ==> ReadChild(env, x) == None
    ensures x.data == None || "name" !in x.attrs ==> Put(t, x) == t
    ensures x.data.Some? && "name" in x.attrs && "type" !in x.attrs ==>
              Put(t, x) == t[x.attrs["name"] := StringValue(x.data)]
    ensures "type" in x.attrs && x.attrs["type"] !in {"string", "bool", "int"} ==> Put(t, x) == t
  {
    hide PutAll, ReadBuddies, NonEmpty;
  }

  /** The groups before place `i` have other names than `name`, and the one at place `i`, if there is one, has it. */
  ghost predicate FirstCalled(env: Env, l: seq<LoadedGroup>, name: string, i: nat) {
    && i <= |l| && (forall j :: 0 <= j < i ==> env.collate(l[j].name) != env.collate(name))
    && (i < |l| ==> env.collate(l[i].name) == env.collate(name))
  }

  /** A group element: the group of that name, or a new one, goes to the end and takes up what the element holds. */
  lemma GroupRead(env: Env, l: seq<LoadedGroup>, x: Element, i: nat)
    requires var name := if "name" in x.attrs then x.attrs["name"] else env.buddies;
             name != "" && FirstCalled(env, l, name, i)
    ensures var g := if i < |l| then l[i]
                     else Group(if "name" in x.attrs then x.attrs["name"] else env.buddies, [], map[], false);
            ReadGroup(env, l, x) == l[..i] + (if i < |l| then l[i + 1..] else [])
                                    + [g.(children := g.children + ReadChildren(env, x.children),
                                          settings := PutAll(g.settings, Named(x.children, "setting")))]
  {
    hide PutAll, ReadChildren, Named;
    var name := if "name" in x.attrs then x.attrs["name"] else env.buddies;
    FirstIsFound(env, l, name, i);
    assert l[..|l|] + [] == l;
  }

  lemma FirstIsFound(env: Env, l: seq<LoadedGroup>, name: string, i: nat)
    requires FirstCalled(env, l, name, i)
    ensures FindGroup(env, l, name) == i
  {
    var f := FindGroup(env, l, name);
    assert f < |l| ==> !(f < i);
    assert i < |l| ==> !(i < f);
  }

  /**
   A child of a group with an empty name: a contact goes in front of the default group, a chat in front of the one for
   chats, and the group is made if there is none, for a contact even if it turns out to keep no buddy.
  */
  lemma StrayRead(env: Env, l: seq<LoadedGroup>, x: Element, i: nat)
    requires FirstCalled(env, l, if x.name == "chat" then env.chats else env.buddies, i)
    ensures var c, name, r := ReadChild(env, x), if x.name == "chat" then env.chats else env.buddies,
                              ReadStray(env, l, x);
            if c.Some? then r == if i < |l| then l[i := l[i].(children := [c.value] + l[i].children)]
                                 else l + [Group(name, [c.value], map[], false)]
            else if x.name in {"contact", "person"} && i == |l| then r == l + [Group(name, [], map[], false)]
            else r == l
  {
    hide ReadContact, ReadChat;
    var name := if x.name == "chat" then env.chats else env.buddies;
    FirstIsFound(env, l, name, i);
    if i == |l| {
      FirstIsFound(env, l + [Group(name, [], map[], false)], name, i);
    }
    var c := ReadChild(env, x);
    if c.Some? {
      assert [c.value] + [] == [c.value];
    }
  }

  /** Which buddies are kept: those of accounts that are found and with names, unless they are flagged. */
  lemma KeptIf(env: Env, b: WalkedBuddy)
    ensures var digits := forall i :: 0 <= i < |b.account.username| ==> '0' <= b.account.username[i] <= '9';
            var found := Find(env, env.accounts, b.account.username,
                              if b.account.protocol == "prpl-oscar" then if digits then "prpl-icq" else "prpl-aim"
                              else b.account.protocol);
            var k := KeptBuddy(env, b);
            && (k.Some? <==> !b.noSave && b.name != "" && found.Some?)
            && (k.Some? ==> k.value.account == found.value && k.value.name == b.name
                            && k.value.alias == if b.alias == Some("") then None else b.alias)
  {
    hide Find, KeptTable;
  }

  /** Where the buddies are that are kept, in order; likewise for contacts and chats. */
  function PlacesOfBuddies(env: Env, l: seq<WalkedBuddy>): (r: seq<nat>)
    ensures forall k :: 0 <= k < |r| ==> r[k] < |l|
  {
    Unflagged(seq(|l|, i requires 0 <= i < |l| => KeptBuddy(env, l[i]) == None))
  }

  lemma PlacesOfBuddiesMore(env: Env, l: seq<WalkedBuddy>)
    requires l != []
    ensures var n := |l| - 1;
            PlacesOfBuddies(env, l) == PlacesOfBuddies(env, l[..n]) + if KeptBuddy(env, l[n]) == None then [] else [n]
  {
    hide KeptBuddy;
    var n := |l| - 1;
    assert seq(|l|, i requires 0 <= i < |l| => KeptBuddy(env, l[i]) == None)[..n]
        == seq(|l[..n]|, i requires 0 <= i < |l[..n]| => KeptBuddy(env, l[..n][i]) == None);
  }

  lemma {:induction false} KeptBuddiesAre(env: Env, l: seq<WalkedBuddy>)
    ensures var u := PlacesOfBuddies(env, l);
            && |KeptBuddies(env, l)| == |u|
            && forall k :: 0 <= k < |u| ==> KeptBuddy(env, l[u[k]]) == Some(KeptBuddies(env, l)[k])
  {
    if l != [] {
      hide KeptBuddy, PlacesOfBuddies;
      var n := |l| - 1;
      KeptBuddiesAre(env, l[..n]);
      PlacesOfBuddiesMore(env, l);
      if KeptBuddy(env, l[n]) == None {
        assert KeptBuddies(env, l) == KeptBuddies(env, l[..n]);
      }
    }
  }

  function PlacesOfChildren(env: Env, l: seq<WalkedChild>): (r: seq<nat>)
    ensures forall k :: 0 <= k < |r| ==> r[k] < |l|
  {
    Unflagged(seq(|l|, i requires 0 <= i < |l| => KeptChild(env, l[i]) == None))
  }

  lemma PlacesOfChildrenMore(env: Env, l: seq<WalkedChild>)
    requires l != []
    ensures var n := |l| - 1;
            PlacesOfChildren(env, l) == PlacesOfChildren(env, l[..n]) + if KeptChild(env, l[n]) == None then [] else [n]
  {
    hide KeptChild;
    var n := |l| - 1;
    assert seq(|l|, i requires 0 <= i < |l| => KeptChild(env, l[i]) == None)[..n]
        == seq(|l[..n]|, i requires 0 <= i < |l[..n]| => KeptChild(env, l[..n][i]) == None);
  }

  lemma {:induction false} KeptChildrenAre(env: Env, l: seq<WalkedChild>)
    ensures var u := PlacesOfChildren(env, l);
            && |KeptChildren(env, l)| == |u|
            && forall k :: 0 <= k < |u| ==> KeptChild(env, l[u[k]]) == Some(KeptChildren(env, l)[k])
  {
    if l != [] {
      hide KeptChild, PlacesOfChildren;
      var n := |l| - 1;
      KeptChildrenAre(env, l[..n]);
      PlacesOfChildrenMore(env, l);
      if KeptChild(env, l[n]) == None {
        assert KeptChildren(env, l) == KeptChildren(env, l[..n]);
      }
    }
  }

  /** A contact is kept if it keeps a buddy, and a chat if its account is found, unless they are flagged. */
  lemma ChildKeptIf(env: Env, c: WalkedChild)
    ensures var k := KeptChild(env, c);
            && (k.Some? ==> k.value.alias == (if c.alias == Some("") then None else c.alias)
                            && k.value.Contact? == c.Contact?)
            && if c.Contact? then
                 && (k.Some? <==> !c.noSave && exists i :: 0 <= i < |c.buddies| && KeptBuddy(env, c.buddies[i]) != None)
                 && (k.Some? ==> k.value.buddies == KeptBuddies(env, c.buddies))
               else
                 var found := Find(env, env.accounts, c.account.username, c.account.protocol);
                 k.Some? == (!c.noSave && found.Some?) && (k.Some? ==> k.value.account == found.value)
  {
    hide Find, KeptTable, KeptBuddy, KeptBuddies, KeptComponents;
    if c.Contact? {
      KeptAny(env, c.buddies);
    }
  }

  lemma {:induction false} KeptAny(env: Env, l: seq<WalkedBuddy>)
    ensures KeptBuddies(env, l) != [] <==> exists i :: 0 <= i < |l| && KeptBuddy(env, l[i]) != None
  {
    hide KeptBuddy;
    if l != [] {
      var n := |l| - 1;
      KeptAny(env, l[..n]);
      assert forall i :: 0 <= i < n ==> l[..n][i] == l[i];
    }
  }

  /** All groups that are not flagged are kept, the writer's default one under the reader's default name. */
  lemma {:induction false} KeptGroupsAre(env: Env, l: seq<WalkedGroup>, buddies: string)
    ensures var u, r := SavedGroups(l), KeptGroups(env, l, buddies);
            && |r| == |u|
            && forall k :: 0 <= k < |u| ==>
                 && r[k].name == (if l[u[k]].name == buddies then env.buddies else l[u[k]].name)
                 && r[k].children == KeptChildren(env, l[u[k]].children)
                 && r[k].settings == KeptTable(l[u[k]].settings)
  {
    if l != [] {
      hide KeptChildren, KeptTable, SavedGroups;
      var n := |l| - 1;
      KeptGroupsAre(env, l[..n], buddies);
      SavedGroupsMore(l);
    }
  }

  /** The settings that are kept are those whose value is no empty or null string. */
  lemma {:induction false} KeptSettings(w: Walked<Value>, i: nat)
    requires Once(w) && i < |w|
    ensures w[i].0 in KeptTable(w) <==> w[i].1 != StringValue(None) && w[i].1 != StringValue(Some(""))
    ensures w[i].0 in KeptTable(w) ==> KeptTable(w)[w[i].0] == w[i].1
  {
    var n := |w| - 1;
    assert w[n].0 !in KeptTable(w[..n]) by {
      KeptNames(w[..n], w[n].0);
    }
    if i < n {
      KeptSettings(w[..n], i);
      assert w[..n][i] == w[i] && w[i].0 != w[n].0;
    }
  }

  /** No other setting is there. */
  lemma {:induction false} KeptNames(w: Walked<Value>, name: string)
    requires forall i :: 0 <= i < |w| ==> w[i].0 != name
    ensures name !in KeptTable(w)
  {
    if w != [] {
      KeptNames(w[..|w| - 1], name);
    }
  }

  /** The components that are kept are those that are not NULL, an empty one as NULL. */
  lemma {:induction false} KeptParts(w: Walked<Option<string>>, i: nat)
    requires Once(w) && i < |w|
    ensures w[i].0 in KeptComponents(w) <==> w[i].1 != None
    ensures w[i].1 != None ==> KeptComponents(w)[w[i].0] == if w[i].1 == Some("") then None else w[i].1
  {
    var n := |w| - 1;
    assert w[n].0 !in KeptComponents(w[..n]) by {
      KeptPartNames(w[..n], w[n].0);
    }
    if i < n {
      KeptParts(w[..n], i);
      assert w[..n][i] == w[i] && w[i].0 != w[n].0;
    }
  }

  lemma {:induction false} KeptPartNames(w: Walked<Option<string>>, name: string)
    requires forall i :: 0 <= i < |w| ==> w[i].0 != name
    ensures name !in KeptComponents(w)
  {
    if w != [] {
      KeptPartNames(w[..|w| - 1], name);
    }
  }
}
