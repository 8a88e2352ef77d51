/** libpurple/account.c: how the settings of an account are written and read, and what is migrated on the way. */
module AccountSettings {
  import opened Options
  import opened Xml

  /** protocol_id, settings and ui_settings. */
  datatype Account = Account(protocol: string, core: Table, ui: map<string, Table>)

  // ---------------------------------------------------------------- writing

  /** setting_to_xmlnode. */
  function SettingElement(name: string, v: Value): Element {
    match v
    case IntValue(n) => Element("setting", map["name" := name, "type" := "int"], Some(Itoa(n)), [])
    case StringValue(Some(s)) => Element("setting", map["name" := name, "type" := "string"], Some(s), [])
    case StringValue(None) => Element("setting", map["name" := name], None, [])
    case BoolValue(b) => Element("setting", map["name" := name, "type" := "bool"], Some(if b then "1" else "0"), [])
  }

  /** The settings `order` of a table, one element each. */
  function SettingElements(t: Table, order: seq<string>): seq<Element>
    requires forall i :: 0 <= i < |order| ==> order[i] in t
  {
    seq(|order|, i requires 0 <= i < |order| => SettingElement(order[i], t[order[i]]))
  }

  /** `order` names every key once, as a walk over a hash table does. */
  ghost predicate Enumerates<V>(order: seq<string>, t: map<string, V>) {
    && (forall i, j :: 0 <= i < j < |order| ==> order[i] != order[j])
    && (forall k :: k in order <==> k in t)
  }

  /** The order in which the tables are walked. */
  datatype Order = Order(core: seq<string>, uis: seq<string>, ui: map<string, seq<string>>)

  ghost predicate Walks(o: Order, a: Account) {
    && Enumerates(o.core, a.core) && Enumerates(o.uis, a.ui)
    && forall u :: u in a.ui ==> u in o.ui && Enumerates(o.ui[u], a.ui[u])
  }

  /** ui_setting_to_xmlnode. */
  function UiElement(u: string, t: Table, order: seq<string>): seq<Element>
    requires forall i :: 0 <= i < |order| ==> order[i] in t
  {
    if |t| > 0 then [Element("settings", map["ui" := u], None, SettingElements(t, order))] else []
  }

  function UiElements(ui: map<string, Table>, uis: seq<string>, o: map<string, seq<string>>): seq<Element>
    requires forall i :: 0 <= i < |uis| ==> uis[i] in ui && uis[i] in o && forall j :: 0 <= j < |o[uis[i]]| ==>
               o[uis[i]][j] in ui[uis[i]]
  {
    if uis == [] then []
    else UiElements(ui, uis[..|uis| - 1], o) + UiElement(uis[|uis| - 1], ui[uis[|uis| - 1]], o[uis[|uis| - 1]])
  }

  function CoreElement(t: Table, order: seq<string>): seq<Element>
    requires forall i :: 0 <= i < |order| ==> order[i] in t
  {
    if |t| > 0 then [Element("settings", map[], None, SettingElements(t, order))] else []
  }

  /** The settings elements account_to_xmlnode writes: the core block first. */
  function Blocks(a: Account, o: Order): seq<Element>
    requires Walks(o, a)
  {
    CoreElement(a.core, o.core) + UiElements(a.ui, o.uis, o.ui)
  }

  // ---------------------------------------------------------------- reading

  /** What a setting element says, if it says anything. */
  function Read(x: Element): Option<(string, Value)> {
    if x.name != "setting" || "name" !in x.attrs || "type" !in x.attrs || x.data == None then None
    else
      var data := x.data.value;
      if x.attrs["type"] == "string" then Some((x.attrs["name"], StringValue(Some(data))))
      else if x.attrs["type"] == "int" then Some((x.attrs["name"], IntValue(Atoi(data))))
      else if x.attrs["type"] == "bool" then Some((x.attrs["name"], BoolValue(data == "" || data[0] != '0')))
      else None
  }

  function Put(t: Table, x: Element): Table {
    match Read(x)
    case None => t
    case Some(p) => t[p.0 := p.1]
  }

  function PutAll(t: Table, l: seq<Element>): Table {
    if l == [] then t else Put(PutAll(t, l[..|l| - 1]), l[|l| - 1])
  }

  // ------------------------------------------------------------- migrations

  function GetString(t: Table, name: string, fallback: Option<string>): Option<string> {
    if name in t && t[name].StringValue? then t[name].s else fallback
  }

  function GetBool(t: Table, name: string, fallback: bool): bool {
    if name in t && t[name].BoolValue? then t[name].b else fallback
  }

  /** migrate_yahoo_japan: an account that is to be converted but lacks a server stays as it is. */
  function YahooJapan(a: Account): Account {
    if a.protocol != "prpl-yahoo" then a
    else if GetBool(a.core, "yahoojp", false) then
      var server, host := GetString(a.core, "serverjp", None), GetString(a.core, "xferjp_host", None);
      if server == None || host == None then a
      else a.(protocol := "prpl-yahoojp",
              core := a.core["server" := StringValue(server)]["xfer_host" := StringValue(host)]
                      - {"yahoojp", "serverjp", "xferjp_host"})
    else a.(core := a.core - {"yahoojp", "serverjp", "xferjp_host"})
  }

  const YAHOO_JAPAN: set<string> := {"yahoojp", "serverjp", "xferjp_host"}

  /**
   The three old settings are removed always, the comment says: they are gone exactly unless the account asks to be
   converted and one of the servers is missing, in which case it keeps all of its settings.
  */
  lemma OldSettingsGone(a: Account)
    requires a.protocol == "prpl-yahoo"
    ensures var stuck := GetBool(a.core, "yahoojp", false)
                         && (GetString(a.core, "serverjp", None) == None
                             || GetString(a.core, "xferjp_host", None) == None);
            && (YahooJapan(a).core.Keys !! YAHOO_JAPAN <==> !stuck)
            && (stuck ==> YahooJapan(a) == a)
            && (!stuck ==> forall k :: k in a.core && k !in YAHOO_JAPAN && k != "server" && k != "xfer_host" ==>
                  k in YahooJapan(a).core && YahooJapan(a).core[k] == a.core[k])
  {
    if GetBool(a.core, "yahoojp", false) {
      assert "yahoojp" in a.core.Keys && "yahoojp" in YAHOO_JAPAN;
    }
  }

  /** An account at which they stay. */
  lemma OldSettingsStay()
    ensures var a := Account("prpl-yahoo",
                             map["yahoojp" := BoolValue(true), "xferjp_host" := StringValue(Some("host"))], map[]);
            YahooJapan(a) == a && "xferjp_host" in Migrated(a).core
  {
  }

  /** migrate_icq_server. */
  function IcqServer(a: Account): Account {
    if a.protocol != "prpl-icq" then a
    else
      var server := GetString(a.core, "server", None);
      if server == Some("login.messaging.aol.com") || server == Some("login.oscar.aol.com")
        then a.(core := a.core["server" := StringValue(Some("login.icq.com"))])
      else if server == Some("slogin.oscar.aol.com")
      then a.(core := a.core["server" := StringValue(Some("slogin.icq.com"))])
      else a
  }

  /** migrate_xmpp_encryption. */
  function XmppEncryption(a: Account): Account {
    if a.protocol != "prpl-jabber" || GetString(a.core, "connection_security", Some("")) != Some("") then a
    else
      var security := if GetBool(a.core, "old_ssl", false) then "old_ssl"
                      else if !GetBool(a.core, "require_tls", true) then "opportunistic_tls" else "require_tls";
      a.(core := a.core["connection_security" := StringValue(Some(security))])
  }

  function Migrated(a: Account): Account {
    XmppEncryption(IcqServer(YahooJapan(a)))
  }

  /** The setting is a string other than NULL. */
  predicate HasString(t: Table, name: string) {
    name in t && t[name].StringValue? && t[name].s != None
  }

  /** The setting is a switch that is so set. */
  predicate IsSwitched(t: Table, name: string, b: bool) {
    name in t && t[name] == BoolValue(b)
  }

  /**
   Where the settings of a Yahoo account that asks to be converted go: its two servers take the names that the other
   protocol has for them. Without both it stays as it is, and without the wish it only loses the three settings.
  */
  lemma YahooValues(a: Account)
    requires a.protocol == "prpl-yahoo"
    ensures Migrated(a).ui == a.ui
    ensures var m, old3 := Migrated(a), {"yahoojp", "serverjp", "xferjp_host"};
            if !IsSwitched(a.core, "yahoojp", true) then
              && m.protocol == "prpl-yahoo" && m.core.Keys == a.core.Keys - old3
              && forall k :: k in m.core ==> m.core[k] == a.core[k]
            else if HasString(a.core, "serverjp") && HasString(a.core, "xferjp_host") then
              && m.protocol == "prpl-yahoojp" && m.core.Keys == a.core.Keys - old3 + {"server", "xfer_host"}
              && m.core["server"] == a.core["serverjp"] && m.core["xfer_host"] == a.core["xferjp_host"]
              && forall k :: k in m.core && k != "server" && k != "xfer_host" ==> m.core[k] == a.core[k]
            else m == a
  {
  }

  /** Each of the old server names of an ICQ account, and any other. */
  lemma IcqValues(a: Account)
    requires a.protocol == "prpl-icq"
    ensures var m, t := Migrated(a), a.core;
            && (HasString(t, "server") && t["server"].s.value in {"login.messaging.aol.com", "login.oscar.aol.com"}
                ==> m == a.(core := t["server" := StringValue(Some("login.icq.com"))]))
            && (HasString(t, "server") && t["server"].s.value == "slogin.oscar.aol.com"
                ==> m == a.(core := t["server" := StringValue(Some("slogin.icq.com"))]))
            && (!HasString(t, "server")
                || t["server"].s.value !in {"login.messaging.aol.com", "login.oscar.aol.com", "slogin.oscar.aol.com"}
                ==> m == a)
  {
  }

  /** The switches of an XMPP account, unless its connection security is set; all other accounts stay as they are. */
  lemma XmppValues(a: Account)
    requires a.protocol != "prpl-yahoo" && a.protocol != "prpl-icq"
    ensures var m, t, security := Migrated(a), a.core, "connection_security";
            if a.protocol != "prpl-jabber" || (security in t && t[security].StringValue? && t[security].s != Some(""))
            then m == a
            else
              var ssl, plain := IsSwitched(t, "old_ssl", true), IsSwitched(t, "require_tls", false);
              && (ssl ==> m == a.(core := t[security := StringValue(Some("old_ssl"))]))
              && (!ssl && plain ==> m == a.(core := t[security := StringValue(Some("opportunistic_tls"))]))
              && (!ssl && !plain ==> m == a.(core := t[security := StringValue(Some("require_tls"))]))
  {
  }

  const SECURE_SERVER := "slogin.oscar.aol.com"

  /** migrate_icq_server compares a server that it has freed: one of the two plain names, on an ICQ account. */
  predicate ReadsFreed(a: Account) {
    var server := GetString(a.core, "server", None);
    a.protocol == "prpl-icq" && (server == Some("login.messaging.aol.com") || server == Some("login.oscar.aol.com"))
  }

  /** The server that an ICQ account gets if the one it had is freed and reads as `freed` afterwards. */
  function IcqServerReading(a: Account, freed: string): Account {
    if ReadsFreed(a) && freed == SECURE_SERVER
    then a.(core := a.core["server" := StringValue(Some("slogin.icq.com"))]) else IcqServer(a)
  }

  /** Such an account: with the wrong text in the freed memory its plain server is replaced by the secure one. */
  lemma PlainBecomesSecure()
    ensures var a := Account("prpl-icq", map["server" := StringValue(Some("login.oscar.aol.com"))], map[]);
            && ReadsFreed(a)
            && GetString(IcqServerReading(a, "login.oscar.aol.com").core, "server", None) == Some("login.icq.com")
            && GetString(IcqServerReading(a, SECURE_SERVER).core, "server", None) == Some("slogin.icq.com")
  {
  }

  /** What has been migrated once reads no freed memory when it is migrated again. */
  lemma MigratedReadsNone(a: Account)
    ensures !ReadsFreed(Migrated(a))
  {
    if a.protocol == "prpl-icq" {
      IcqOnce(a);
    }
  }

  /** Migrating again changes nothing. */
  lemma MigratedOnce(a: Account)
    ensures Migrated(Migrated(a)) == Migrated(a)
  {
    if a.protocol == "prpl-yahoo" {
      YahooOnce(a);
    } else if a.protocol == "prpl-icq" {
      IcqOnce(a);
    } else if a.protocol == "prpl-jabber" {
      XmppOnce(a);
    }
  }

  lemma YahooOnce(a: Account)
    requires a.protocol == "prpl-yahoo"
    ensures Migrated(a) == YahooJapan(a) && Migrated(YahooJapan(a)) == YahooJapan(a)
  {
    var b := YahooJapan(a);
    if !GetBool(a.core, "yahoojp", false) {
      assert b.core - {"yahoojp", "serverjp", "xferjp_host"} == b.core;
    }
  }

  lemma IcqOnce(a: Account)
    requires a.protocol == "prpl-icq"
    ensures Migrated(a) == IcqServer(a) && Migrated(IcqServer(a)) == IcqServer(a)
  {
  }

  lemma XmppOnce(a: Account)
    requires a.protocol == "prpl-jabber"
    ensures Migrated(a) == XmppEncryption(a) && Migrated(XmppEncryption(a)) == XmppEncryption(a)
  {
  }

  /** A migration looks at the core settings and the protocol only, and leaves the user interfaces' settings alone. */
  lemma MigratedUi(a: Account, ui: map<string, Table>)
    ensures Migrated(a).ui == a.ui && Migrated(a.(ui := ui)) == Migrated(a).(ui := ui)
  {
  }

  /** parse_settings. */
  function Parsed(a: Account, x: Element): Account {
    Migrated(Settled(a, x))
  }

  /** The account with the settings of one block, before the migrations. */
  function Settled(a: Account, x: Element): Account {
    match Attribute(x, "ui")
    case None => a.(core := PutAll(a.core, x.children))
    case Some(u) =>
      var t := PutAll(if u in a.ui then a.ui[u] else map[], x.children);
      if t == map[] && u !in a.ui then a else a.(ui := a.ui[u := t])
  }

  function ParsedAll(a: Account, l: seq<Element>): Account {
    if l == [] then a else Parsed(ParsedAll(a, l[..|l| - 1]), l[|l| - 1])
  }

  // -------------------------------------------------------------- round trip

  function Lasting(t: Table): (r: Table)
    ensures forall k :: k in r <==> k in t && t[k] != StringValue(None) && t[k] != StringValue(Some(""))
    ensures forall k :: k in r ==> r[k] == t[k]
  {
    map k | k in t && Lasts(t[k]) :: t[k]
  }

  /** The tables of the user interfaces that keep anything. */
  function LastingUi(ui: map<string, Table>): map<string, Table> {
    map u | u in ui && Lasting(ui[u]) != map[] :: Lasting(ui[u])
  }

  /** One setting written and read. */
  lemma ReadBack(name: string, v: Value)
    ensures Read(Reread(SettingElement(name, v))) == if Lasts(v) then Some((name, v)) else None
  {
    match v {
      case IntValue(n) => AtoiItoa(n);
      case _ =>
    }
  }

  function Only(t: Table, keys: seq<string>): Table {
    map k | k in t && k in keys && Lasts(t[k]) :: t[k]
  }

  /** The settings read so far. */
  lemma {:induction false} PutBack(t: Table, order: seq<string>, i: nat)
    requires (forall k :: 0 <= k < |order| ==> order[k] in t) && i <= |order|
    ensures PutAll(map[], RereadAll(SettingElements(t, order))[..i]) == Only(t, order[..i])
  {
    hide Read, Reread, SettingElement;
    var l := RereadAll(SettingElements(t, order));
    if i == 0 {
      assert Only(t, order[..0]) == map[];
    } else {
      PutBack(t, order, i - 1);
      assert l[..i][..i - 1] == l[..i - 1] && l[..i][i - 1] == l[i - 1];
      ReadBack(order[i - 1], t[order[i - 1]]);
      assert order[..i] == order[..i - 1] + [order[i - 1]];
      OnlyNext(t, order[..i - 1], order[i - 1]);
    }
  }

  lemma OnlyNext(t: Table, keys: seq<string>, k: string)
    requires k in t
    ensures Only(t, keys + [k]) == if Lasts(t[k]) then Only(t, keys)[k := t[k]] else Only(t, keys)
  {
    hide Lasts;
  }

  lemma TableBack(t: Table, order: seq<string>)
    requires Enumerates(order, t)
    ensures PutAll(map[], RereadAll(SettingElements(t, order))) == Lasting(t)
  {
    var l := RereadAll(SettingElements(t, order));
    PutBack(t, order, |order|);
    assert l[..|order|] == l && order[..|order|] == order;
    assert Only(t, order) == Lasting(t);
  }

  /** Reading several blocks after each other. */
  lemma {:induction false} ParsedBoth(a: Account, l: seq<Element>, r: seq<Element>)
    ensures ParsedAll(a, l + r) == ParsedAll(ParsedAll(a, l), r)
  {
    if r == [] {
      assert l + r == l;
    } else {
      var n := |r| - 1;
      assert (l + r)[..|l + r| - 1] == l + r[..n] && (l + r)[|l + r| - 1] == r[n];
      ParsedBoth(a, l, r[..n]);
    }
  }

  function OnlyUi(ui: map<string, Table>, uis: seq<string>): map<string, Table> {
    map u | u in ui && u in uis && Lasting(ui[u]) != map[] :: Lasting(ui[u])
  }

  predicate AnyUi(ui: map<string, Table>, uis: seq<string>) {
    exists i :: 0 <= i < |uis| && uis[i] in ui && |ui[uis[i]]| > 0
  }

  /** The blocks of the user interfaces never alter the core settings beyond migrating them. */
  lemma {:induction false} UiBack(start: Account, a: Account, o: Order, i: nat)
    requires Walks(o, a) && i <= |o.uis| && start.ui == map[]
    ensures forall k :: 0 <= k < |o.uis[..i]| ==> o.uis[..i][k] in a.ui && o.uis[..i][k] in o.ui
    ensures var r := ParsedAll(start, RereadAll(UiElements(a.ui, o.uis[..i], o.ui)));
            r == (if AnyUi(a.ui, o.uis[..i]) then Migrated(start) else start).(ui := OnlyUi(a.ui, o.uis[..i]))
  {
    hide Migrated, OnlyUi, AnyUi, ParsedAll, RereadAll, UiElements;
    UiPrefix(a, o, i);
    if i == 0 {
      assert o.uis[..0] == [];
      UiNone(start, a.ui, o.ui);
    } else {
      UiBack(start, a, o, i - 1);
      UiStep(start, a, o, i);
    }
  }

  lemma UiPrefix(a: Account, o: Order, i: nat)
    requires Walks(o, a) && i <= |o.uis|
    ensures forall k :: 0 <= k < i ==> o.uis[..i][k] in a.ui && o.uis[..i][k] in o.ui
    ensures forall k, j :: 0 <= k < i && 0 <= j < |o.ui[o.uis[..i][k]]| ==>
              o.ui[o.uis[..i][k]][j] in a.ui[o.uis[..i][k]]
  {
    forall k | 0 <= k < i
      ensures o.uis[..i][k] in a.ui && o.uis[..i][k] in o.ui
              && Enumerates(o.ui[o.uis[..i][k]], a.ui[o.uis[..i][k]])
    {
      assert o.uis[k] in o.uis;
    }
  }

  lemma UiNone(start: Account, ui: map<string, Table>, o: map<string, seq<string>>)
    ensures ParsedAll(start, RereadAll(UiElements(ui, [], o))) == start && OnlyUi(ui, []) == map[] && !AnyUi(ui, [])
  {
  }

  lemma UiStep(start: Account, a: Account, o: Order, i: nat)
    requires Walks(o, a) && 0 < i <= |o.uis| && start.ui == map[]
    requires var r := ParsedAll(start, RereadAll(UiElements(a.ui, o.uis[..i - 1], o.ui)));
             r == (if AnyUi(a.ui, o.uis[..i - 1]) then Migrated(start) else start).(ui := OnlyUi(a.ui, o.uis[..i - 1]))
    ensures var r := ParsedAll(start, RereadAll(UiElements(a.ui, o.uis[..i], o.ui)));
            r == (if AnyUi(a.ui, o.uis[..i]) then Migrated(start) else start).(ui := OnlyUi(a.ui, o.uis[..i]))
  {
    hide Migrated, PutAll, UiElement, Lasting, OnlyUi, AnyUi, Reread, RereadAll, Parsed, ParsedAll;
    var u, before := o.uis[i - 1], o.uis[..i - 1];
    assert o.uis[..i][..i - 1] == before && o.uis[..i][i - 1] == u && o.uis[..i] == before + [u];
    var l, x := UiElements(a.ui, before, o.ui), UiElement(u, a.ui[u], o.ui[u]);
    assert UiElements(a.ui, o.uis[..i], o.ui) == l + x;
    assert u !in before && Enumerates(o.ui[u], a.ui[u]);
    hide UiElements, Walks, Enumerates;
    RereadBoth(l, x);
    ParsedBoth(start, RereadAll(l), RereadAll(x));
    AnyMore(a.ui, before, u);
    var r, t := ParsedAll(start, RereadAll(l)), Lasting(a.ui[u]);
    OnlyMore(a.ui, before, u);
    UiBlock(r, u, a.ui[u], o.ui[u]);
    MigratedOnce(start);
    MigratedUi(start, OnlyUi(a.ui, before));
    MigratedUi(Migrated(start), OnlyUi(a.ui, before));
    MigratedUi(start, OnlyUi(a.ui, before + [u]));
    MigratedUi(Migrated(start), OnlyUi(a.ui, before + [u]));
  }

  lemma OnlyMore(ui: map<string, Table>, uis: seq<string>, u: string)
    requires u in ui && u !in uis
    ensures OnlyUi(ui, uis + [u]) == if Lasting(ui[u]) == map[] then OnlyUi(ui, uis)
              else OnlyUi(ui, uis)[u := Lasting(ui[u])]
    ensures u !in OnlyUi(ui, uis)
  {
    hide Lasting;
  }

  /** One user interface's block, if its table was not empty. */
  lemma UiBlock(r: Account, u: string, t: Table, order: seq<string>)
    requires u !in r.ui && Enumerates(order, t)
    ensures ParsedAll(r, RereadAll(UiElement(u, t, order)))
         == if |t| > 0 then Migrated(if Lasting(t) == map[] then r else r.(ui := r.ui[u := Lasting(t)])) else r
    ensures |t| == 0 ==> Lasting(t) == map[]
  {
    hide Migrated, PutAll;
    if |t| > 0 {
      var e := RereadAll(UiElement(u, t, order))[0];
      assert RereadAll(UiElement(u, t, order)) == [e];
      OneBlock(r, e);
      TableBack(t, order);
      assert e.children == RereadAll(SettingElements(t, order));
    } else {
      assert t == map[];
    }
  }

  lemma OneBlock(a: Account, e: Element)
    ensures ParsedAll(a, [e]) == Parsed(a, e)
  {
    hide Parsed;
    assert [e][..0] == [];
  }

  lemma AnyMore(ui: map<string, Table>, uis: seq<string>, u: string)
    requires u in ui
    ensures AnyUi(ui, uis + [u]) <==> AnyUi(ui, uis) || |ui[u]| > 0
  {
    var l := uis + [u];
    if AnyUi(ui, uis) {
      var i :| 0 <= i < |uis| && uis[i] in ui && |ui[uis[i]]| > 0;
      assert l[i] == uis[i];
    }
    assert l[|uis|] == u;
  }

  /**
   Writing an account's settings and reading them into a new account of the same protocol gives them back, in whatever
   order the tables were walked: without null and empty strings, and migrated once if there was anything to read.
  */
  lemma RoundTrip(a: Account, o: Order)
    requires Walks(o, a)
    ensures var r := ParsedAll(Account(a.protocol, map[], map[]), RereadAll(Blocks(a, o)));
            var kept := Account(a.protocol, Lasting(a.core), LastingUi(a.ui));
            r == if |a.core| > 0 || exists u :: u in a.ui && |a.ui[u]| > 0 then Migrated(kept) else kept
  {
    hide Migrated, Lasting, UiElements, AnyUi, Reread, RereadAll, Parsed, ParsedAll, CoreElement;
    var start := Account(a.protocol, map[], map[]);
    var uis := UiElements(a.ui, o.uis, o.ui);
    RereadBoth(CoreElement(a.core, o.core), uis);
    ParsedBoth(start, RereadAll(CoreElement(a.core, o.core)), RereadAll(uis));
    var c := Account(a.protocol, Lasting(a.core), map[]);
    CoreBlock(start, a.core, o.core);
    var mid := if |a.core| > 0 then Migrated(c) else c;
    MigratedUi(c, map[]);
    UiBack(mid, a, o, |o.uis|);
    assert o.uis[..|o.uis|] == o.uis;
    assert OnlyUi(a.ui, o.uis) == LastingUi(a.ui);
    MigratedOnce(c);
    MigratedUi(c, LastingUi(a.ui));
    AnyAtAll(a, o);
  }

  lemma CoreBlock(start: Account, t: Table, order: seq<string>)
    requires start.core == map[] && Enumerates(order, t)
    ensures ParsedAll(start, RereadAll(CoreElement(t, order)))
         == if |t| > 0 then Migrated(start.(core := Lasting(t))) else start.(core := Lasting(t))
  {
    hide Migrated, PutAll;
    if |t| > 0 {
      var e := RereadAll(CoreElement(t, order))[0];
      assert RereadAll(CoreElement(t, order)) == [e];
      OneBlock(start, e);
      TableBack(t, order);
      assert e.children == RereadAll(SettingElements(t, order));
    } else {
      assert t == map[];
      assert Lasting(t) == map[];
    }
  }

  lemma AnyAtAll(a: Account, o: Order)
    requires Walks(o, a)
    ensures AnyUi(a.ui, o.uis) <==> exists u :: u in a.ui && |a.ui[u]| > 0
  {
    if u :| u in a.ui && |a.ui[u]| > 0 {
      assert u in o.uis;
      var i :| 0 <= i < |o.uis| && o.uis[i] == u;
    }
  }
}
