/** The settings of an account as they stand in the file, by the names of elements and attributes. */
module AccountFormat {
  import opened Options
  import opened Xml
  import opened AccountSettings

  /** A setting: its name, its type, and its value as text; a NULL string has neither. */
  predicate IsSetting(x: Element, name: string, v: Value) {
    && x.name == "setting" && x.children == []
    && match v
       case IntValue(n) => x.attrs == map["name" := name, "type" := "int"] && x.data == Some(Itoa(n))
       case BoolValue(b) =>
         x.attrs == map["name" := name, "type" := "bool"] && x.data == Some(if b then "1" else "0")
       case StringValue(None) => x.attrs == map["name" := name] && x.data == None
       case StringValue(s) => x.attrs == map["name" := name, "type" := "string"] && x.data == s
  }

  /** A block with all settings of a table, in the order in which it is walked. */
  predicate IsBlock(x: Element, t: Table, order: seq<string>) {
    && x.name == "settings" && x.data == None && |x.children| == |order|
    && forall i :: 0 <= i < |order| ==> order[i] in t && IsSetting(x.children[i], order[i], t[order[i]])
  }

  /** An interface's block, which is not written if there is nothing to write. */
  predicate IsUiBlock(x: Element, ui: map<string, Table>, o: map<string, seq<string>>) {
    && x.attrs.Keys == {"ui"}
    && var u := x.attrs["ui"]; u in ui && u in o && ui[u] != map[] && IsBlock(x, ui[u], o[u])
  }

  predicate HasUiBlock(l: seq<Element>, u: string) {
    exists i :: 0 <= i < |l| && l[i].attrs == map["ui" := u]
  }

  lemma BlockWritten(t: Table, order: seq<string>, attrs: map<string, string>)
    requires forall i :: 0 <= i < |order| ==> order[i] in t
    ensures IsBlock(Element("settings", attrs, None, SettingElements(t, order)), t, order)
  {
  }

  lemma {:induction false} UiBlocksWritten(ui: map<string, Table>, uis: seq<string>, o: map<string, seq<string>>)
    requires forall i :: 0 <= i < |uis| ==> uis[i] in ui && uis[i] in o && forall j :: 0 <= j < |o[uis[i]]| ==>
               o[uis[i]][j] in ui[uis[i]]
    ensures forall i :: 0 <= i < |UiElements(ui, uis, o)| ==> IsUiBlock(UiElements(ui, uis, o)[i], ui, o)
    ensures forall k :: 0 <= k < |uis| && ui[uis[k]] != map[] ==> HasUiBlock(UiElements(ui, uis, o), uis[k])
  {
    hide IsBlock, SettingElements;
    if uis != [] {
      var n := |uis| - 1;
      var u, before := uis[n], UiElements(ui, uis[..n], o);
      UiBlocksWritten(ui, uis[..n], o);
      assert ui[u] != map[] ==> |ui[u]| > 0;
      BlockWritten(ui[u], o[u], map["ui" := u]);
      forall k | 0 <= k < n && ui[uis[k]] != map[]
        ensures HasUiBlock(UiElements(ui, uis, o), uis[k])
      {
        assert uis[..n][k] == uis[k];
        var i :| 0 <= i < |before| && before[i].attrs == map["ui" := uis[k]];
        assert UiElements(ui, uis, o)[i] == before[i];
      }
      if ui[u] != map[] {
        assert UiElements(ui, uis, o)[|before|].attrs == map["ui" := u];
      }
    }
  }

  /** The core settings stand in the first block, which has no attribute, and each interface's in one that names it. */
  lemma BlocksWritten(a: Account, o: Order)
    requires Walks(o, a)
    ensures var l, n := Blocks(a, o), if a.core == map[] then 0 else 1;
            && n <= |l| && (n == 1 ==> l[0].attrs == map[] && IsBlock(l[0], a.core, o.core))
            && (forall i :: n <= i < |l| ==> IsUiBlock(l[i], a.ui, o.ui))
            && forall u :: u in a.ui && a.ui[u] != map[] ==> HasUiBlock(l[n..], u)
  {
    hide IsBlock, SettingElements, IsUiBlock, HasUiBlock, UiElements;
    UiPrefix(a, o, |o.uis|);
    assert o.uis[..|o.uis|] == o.uis;
    var n := if a.core == map[] then 0 else 1;
    assert a.core != map[] ==> |a.core| > 0;
    BlockWritten(a.core, o.core, map[]);
    UiBlocksWritten(a.ui, o.uis, o.ui);
    assert Blocks(a, o)[n..] == UiElements(a.ui, o.uis, o.ui);
    forall u | u in a.ui && a.ui[u] != map[]
      ensures HasUiBlock(Blocks(a, o)[n..], u)
    {
      assert u in o.uis;
      var k :| 0 <= k < |o.uis| && o.uis[k] == u;
      assert a.ui[o.uis[k]] != map[];
    }
  }

  /** An element is read only if it is a setting with a name, a type that is known, and text. */
  lemma ReadsOnly(x: Element)
    ensures Read(x) != None <==> x.name == "setting" && "name" in x.attrs && x.data != None
                                 && "type" in x.attrs && x.attrs["type"] in {"string", "int", "bool"}
    ensures Read(x) != None ==>
              var (name, v) := Read(x).value;
              && name == x.attrs["name"]
              && (x.attrs["type"] == "string" ==> v == StringValue(x.data))
              && (x.attrs["type"] == "int" ==> forall n :: x.data == Some(Itoa(n)) ==> v == IntValue(n))
              && (x.attrs["type"] == "bool" ==> v.BoolValue? && (v.b <==> !("0" <= x.data.value)))
  {
    forall n | x.data == Some(Itoa(n))
      ensures Atoi(Itoa(n)) == n
    {
      AtoiItoa(n);
    }
  }
}
