/** libpurple/account.c: an account's settings as they are kept, migrated, written and read in place. */
module AccountStore {
  import opened Options
  import opened Xml
  import opened AccountSettings

  class Store {
    var protocol: string
    var settings: Table
    var uiSettings: map<string, Table>

    ghost function A(): Account
      reads this
    {
      Account(protocol, settings, uiSettings)
    }

    /** purple_account_new, as far as settings go. */
    constructor (protocol: string)
      ensures A() == Account(protocol, map[], map[])
    {
      this.protocol := protocol;
      settings := map[];
      uiSettings := map[];
    }

    /** purple_account_set_string, _int and _bool. */
    method Set(name: string, v: Value)
      modifies `settings
      ensures settings == old(settings)[name := v]
    {
      settings := settings[name := v];
    }

    /** purple_account_remove_setting. */
    method RemoveSetting(name: string)
      modifies `settings
      ensures settings == old(settings) - {name}
    {
      settings := settings - {name};
    }

    /** purple_account_set_ui_string, _ui_int and _ui_bool, which make the interface's table when it is first needed. */
    method SetUi(u: string, name: string, v: Value)
      modifies `uiSettings
      ensures uiSettings
                == old(uiSettings)[u := (if u in old(uiSettings) then old(uiSettings)[u] else map[])[name := v]]
    {
      var table := if u in uiSettings then uiSettings[u] else map[];
      uiSettings := uiSettings[u := table[name := v]];
    }

    method MigrateYahooJapan()
      modifies `protocol, `settings
      ensures A() == YahooJapan(old(A()))
    {
      if protocol == "prpl-yahoo" {
        ghost var a := A();
        if GetBool(settings, "yahoojp", false) {
          var serverjp := GetString(settings, "serverjp", None);
          var host := GetString(settings, "xferjp_host", None);
          if serverjp == None || host == None {
            return;
          }
          Set("server", StringValue(serverjp));
          Set("xfer_host", StringValue(host));
          protocol := "prpl-yahoojp";
        }
        ghost var t := settings;
        RemoveSetting("yahoojp");
        RemoveSetting("serverjp");
        RemoveSetting("xferjp_host");
        assert settings == t - {"yahoojp", "serverjp", "xferjp_host"};
      }
    }

    /**
     migrate_icq_server. Replacing a server frees its string, which is then compared with one more name: `dangling`
     says whether that happens, and `freed` what the memory reads as. The migration is as it should be for whatever it
     reads as if and only if it does not happen, and for `freed` if and only if it does not happen or `freed` is not
     that name.
    */
    method MigrateIcqServer(freed: string) returns (dangling: bool)
      modifies `settings
      ensures dangling <==> ReadsFreed(old(A()))
      ensures A() == IcqServerReading(old(A()), freed)
      ensures A() == IcqServer(old(A())) <==> !(dangling && freed == SECURE_SERVER)
      ensures dangling <==> protocol == "prpl-icq" && HasString(old(settings), "server")
                            && old(settings)["server"].s.value in {"login.messaging.aol.com", "login.oscar.aol.com"}
      ensures dangling ==>
                settings == old(settings)["server" := StringValue(Some(if freed == "slogin.oscar.aol.com"
                                                                       then "slogin.icq.com" else "login.icq.com"))]
    {
      dangling := false;
      if protocol == "prpl-icq" {
        var server := GetString(settings, "server", None);
        if server == Some("login.messaging.aol.com") || server == Some("login.oscar.aol.com") {
          Set("server", StringValue(Some("login.icq.com")));
          server := Some(freed);
          dangling := true;
        }
        if server == Some("slogin.oscar.aol.com") {
          Set("server", StringValue(Some("slogin.icq.com")));
          assert settings == old(settings)["server" := StringValue(Some("slogin.icq.com"))];
          assert settings["server"].s == Some("slogin.icq.com");
        }
      }
    }

    method MigrateXmppEncryption()
      modifies `settings
      ensures A() == XmppEncryption(old(A()))
    {
      if protocol == "prpl-jabber" {
        if GetString(settings, "connection_security", Some("")) == Some("") {
          var security := "require_tls";
          if GetBool(settings, "old_ssl", false) {
            security := "old_ssl";
          } else if !GetBool(settings, "require_tls", true) {
            security := "opportunistic_tls";
          }
          Set("connection_security", StringValue(Some(security)));
        }
      }
    }

    /**
     parse_settings: the settings of one block, one by one, and then the migrations; a freed server, if one is compared,
     reads as `freed`.
    */
    method ParseSettings(x: Element, freed: string) returns (dangling: bool)
      modifies this
      ensures dangling <==> ReadsFreed(Settled(old(A()), x))
      ensures A() == Parsed(old(A()), x) <==> !(dangling && freed == SECURE_SERVER)
      ensures dangling && freed == SECURE_SERVER ==> A() == IcqServerReading(Settled(old(A()), x), freed)
    {
      hide YahooJapan, IcqServer, XmppEncryption, Read, IcqServerReading, ReadsFreed;
      var ui := Attribute(x, "ui");
      ghost var a, l := A(), x.children;
      ghost var t0: Table := if ui.Some? && ui.value in a.ui then a.ui[ui.value] else map[];
      assert l[..0] == [];
      var i := 0;
      while i < |x.children|
        invariant 0 <= i <= |l| && protocol == a.protocol
        invariant ui == None ==> settings == PutAll(a.core, l[..i]) && uiSettings == a.ui
        invariant ui.Some? ==> settings == a.core
                               && uiSettings == Filled(a.ui, ui.value, PutAll(t0, l[..i]))
      {
        assert l[..i + 1][..i] == l[..i] && l[..i + 1][i] == l[i];
        var setting := Read(x.children[i]);
        if setting.Some? {
          if ui == None {
            Set(setting.value.0, setting.value.1);
          } else {
            FilledMore(a.ui, ui.value, PutAll(t0, l[..i]), setting.value.0, setting.value.1);
            SetUi(ui.value, setting.value.0, setting.value.1);
          }
        }
        i := i + 1;
      }
      assert l[..i] == l;
      ghost var b := A();
      assert b == Settled(a, x);
      MigrateYahooJapan();
      dangling := MigrateIcqServer(freed);
      MigrateXmppEncryption();
      IcqAlone(b, freed);
    }

    /** The loop of parse_account over the settings elements. */
    method ParseAccount(blocks: seq<Element>, freed: nat -> string)
      modifies this
      ensures (forall i :: 0 <= i < |blocks| ==> !Misread(old(A()), blocks, i, freed)) ==>
                A() == ParsedAll(old(A()), blocks)
    {
      hide Parsed, ReadsFreed, Settled, IcqServerReading;
      ghost var a := A();
      assert blocks[..0] == [];
      for i := 0 to |blocks|
        invariant (forall k :: 0 <= k < i ==> !Misread(a, blocks, k, freed)) ==> A() == ParsedAll(a, blocks[..i])
      {
        assert blocks[..i + 1][..i] == blocks[..i] && blocks[..i + 1][i] == blocks[i];
        ghost var b := A();
        var dangling := ParseSettings(blocks[i], freed(i));
        assert b == ParsedAll(a, blocks[..i]) && !Misread(a, blocks, i, freed) ==> A() == ParsedAll(a, blocks[..i + 1]);
      }
      assert blocks[..|blocks|] == blocks;
    }

    /** setting_to_xmlnode for each setting of a table, in the order it is walked. */
    method TableToXml(t: Table, order: seq<string>) returns (l: seq<Element>)
      requires Enumerates(order, t)
      ensures l == SettingElements(t, order)
    {
      l := [];
      for i := 0 to |order|
        invariant l == SettingElements(t, order[..i])
      {
        var v := t[order[i]];
        var attributes := map["name" := order[i]];
        var data: Option<string> := None;
        if v.IntValue? {
          attributes := attributes["type" := "int"];
          data := Some(Itoa(v.n));
        } else if v.StringValue? && v.s.Some? {
          attributes := attributes["type" := "string"];
          data := v.s;
        } else if v.BoolValue? {
          attributes := attributes["type" := "bool"];
          data := Some(if v.b then "1" else "0");
        }
        l := l + [Element("setting", attributes, data, [])];
        assert order[..i + 1] == order[..i] + [order[i]];
      }
      assert order[..|order|] == order;
    }

    /** The settings part of account_to_xmlnode. */
    method ToXml(o: Order) returns (l: seq<Element>)
      requires Walks(o, A())
      ensures l == Blocks(A(), o)
    {
      hide SettingElements, Enumerates;
      var core: seq<Element> := [];
      if |settings| > 0 {
        var children := TableToXml(settings, o.core);
        core := [Element("settings", map[], None, children)];
      }
      var uis: seq<Element> := [];
      assert o.uis[..0] == [];
      for i := 0 to |o.uis|
        invariant forall k :: 0 <= k < i ==> o.uis[..i][k] in uiSettings && o.uis[..i][k] in o.ui
        invariant forall k, j :: 0 <= k < i && 0 <= j < |o.ui[o.uis[..i][k]]| ==>
                    o.ui[o.uis[..i][k]][j] in uiSettings[o.uis[..i][k]]
        invariant uis == UiElements(uiSettings, o.uis[..i], o.ui)
      {
        var u := o.uis[i];
        UiPrefix(A(), o, i + 1);
        assert o.uis[..i + 1][..i] == o.uis[..i] && o.uis[..i + 1][i] == u;
        if |uiSettings[u]| > 0 {
          var children := TableToXml(uiSettings[u], o.ui[u]);
          uis := uis + [Element("settings", map["ui" := u], None, children)];
        } else {
          assert uis + [] == uis;
        }
      }
      assert o.uis[..|o.uis|] == o.uis;
      l := core + uis;
    }
  }

  /**
   Block `i`, the others before it having been read rightly, makes a server dangle that then reads as the secure one.
  */
  predicate Misread(a: Account, blocks: seq<Element>, i: nat, freed: nat -> string) {
    i < |blocks| && freed(i) == SECURE_SERVER && ReadsFreed(Settled(ParsedAll(a, blocks[..i]), blocks[i]))
  }

  /** Only accounts that are not on ICQ are changed by the other two migrations. */
  lemma IcqAlone(a: Account, freed: string)
    ensures ReadsFreed(YahooJapan(a)) <==> ReadsFreed(a)
    ensures a.protocol == "prpl-icq" ==> YahooJapan(a) == a
    ensures ReadsFreed(a) ==> XmppEncryption(IcqServerReading(a, freed)) == IcqServerReading(a, freed)
    ensures XmppEncryption(IcqServerReading(YahooJapan(a), freed)) == Migrated(a)
            <==> !(ReadsFreed(a) && freed == SECURE_SERVER)
    ensures ReadsFreed(a) ==> a.protocol == "prpl-icq"
  {
    hide GetString, GetBool;
    if ReadsFreed(a) && freed == SECURE_SERVER {
      assert IcqServerReading(a, freed).core["server"].s == Some("slogin.icq.com") != IcqServer(a).core["server"].s;
    }
  }

  /** A user interface's table exists once something has been put into it. */
  function Filled(ui: map<string, Table>, u: string, t: Table): map<string, Table> {
    if t == map[] && u !in ui then ui else ui[u := t]
  }

  lemma FilledMore(ui: map<string, Table>, u: string, t: Table, name: string, v: Value)
    requires u in ui || t == map[] || u in Filled(ui, u, t)
    ensures var f := Filled(ui, u, t);
            f[u := (if u in f then f[u] else map[])[name := v]] == Filled(ui, u, t[name := v])
  {
    assert name in t[name := v];
  }

  /** What a block says goes over what was there. */
  lemma {:induction false} PutOver(t: Table, l: seq<Element>)
    ensures PutAll(t, l) == t + PutAll(map[], l)
  {
    hide Read;
    if l != [] {
      PutOver(t, l[..|l| - 1]);
    }
  }

  /** An old switch of an XMPP account asks for something else than what an account without any is given. */
  predicate AsksOtherwise(t: Table) {
    "connection_security" !in t && (GetBool(t, "old_ssl", false) || !GetBool(t, "require_tls", true))
  }

  /**
   The core block has to come first, for XMPP accounts with an old switch and for no others: behind an interface's
   block, which migrates an account without settings, the switch comes too late to be migrated.
  */
  lemma CoreFirst(protocol: string, x: Element, y: Element)
    requires Attribute(x, "ui") == None && Attribute(y, "ui").Some?
    ensures var a := Account(protocol, map[], map[]);
            (ParsedAll(a, [y, x]) == ParsedAll(a, [x, y])
             <==> !(protocol == "prpl-jabber" && AsksOtherwise(PutAll(map[], x.children))))
  {
    hide Migrated, PutAll, Parsed, ParsedAll, AsksOtherwise;
    var a, t, u := Account(protocol, map[], map[]), PutAll(map[], x.children), PutAll(map[], y.children);
    var ui := if u == map[] then map[] else map[Attribute(y, "ui").value := u];
    TwoBlocks(a, x, y);
    TwoBlocks(a, y, x);
    CoreBlockRead(a, x);
    MigratedUi(a.(core := t), ui);
    UiBlockRead(Migrated(a.(core := t)), y);
    UiBlockRead(a, y);
    CoreBlockRead(Migrated(a.(ui := ui)), x);
    MigratedUi(a, ui);
    MigratedOnce(a.(core := t));
    MigratedUi(Migrated(a.(core := t)), ui);
    LateBlock(a, t);
    MigratedUi(Migrated(a).(core := Migrated(a).core + t), ui);
    PutOver(Migrated(a).core, x.children);
  }

  lemma TwoBlocks(a: Account, x: Element, y: Element)
    ensures ParsedAll(a, [x, y]) == Parsed(Parsed(a, x), y)
  {
    hide Parsed;
    assert [x, y][..1] == [x];
    OneBlock(a, x);
  }

  lemma CoreBlockRead(a: Account, x: Element)
    requires Attribute(x, "ui") == None
    ensures Parsed(a, x) == Migrated(a.(core := PutAll(a.core, x.children)))
  {
    hide Migrated, PutAll;
  }

  lemma UiBlockRead(a: Account, y: Element)
    requires Attribute(y, "ui").Some? && a.ui == map[]
    ensures var u := PutAll(map[], y.children);
            Parsed(a, y) == Migrated(a.(ui := if u == map[] then map[] else map[Attribute(y, "ui").value := u]))
  {
    hide Migrated, PutAll;
    assert a.(ui := map[]) == a;
  }

  /** What comes of settings that are read into an account that has been migrated without any. */
  lemma LateBlock(a: Account, t: Table)
    requires a.core == map[]
    ensures var late := Migrated(Migrated(a).(core := Migrated(a).core + t));
            (late == Migrated(a.(core := t)) <==> !(a.protocol == "prpl-jabber" && AsksOtherwise(t)))
  {
    hide GetBool;
    var none: Table := map[];
    assert none - {"yahoojp", "serverjp", "xferjp_host"} == none;
    assert GetBool(map[], "yahoojp", false) == GetBool(map[], "old_ssl", false) == false
             && GetBool(map[], "require_tls", true) by {
      NoSwitches();
    }
    if a.protocol == "prpl-jabber" {
      var given: Table := map["connection_security" := StringValue(Some("require_tls"))];
      assert Migrated(a).core == given;
      if "connection_security" in t {
        assert given + t == t;
      } else {
        assert given + t == t["connection_security" := StringValue(Some("require_tls"))];
        assert Migrated(a.(core := t)).core["connection_security"].s
            == if AsksOtherwise(t) then (if GetBool(t, "old_ssl", false) then Some("old_ssl")
                                         else Some("opportunistic_tls")) else Some("require_tls");
      }
    } else {
      assert Migrated(a) == a && a.core + t == t;
    }
  }

  lemma NoSwitches()
    ensures GetBool(map[], "yahoojp", false) == GetBool(map[], "old_ssl", false) == false
    ensures GetBool(map[], "require_tls", true)
  {
  }
}
