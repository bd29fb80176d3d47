/** The recursive methods of src/sapp/sapp_document_menu.cpp.h with what they change: the parser
    fills a map of names for each platform, the generator appends to its text. */
module MenuObjects {
  import opened Menus
  import opened MenuCompiler

  class MenuParser {
    var itemsMac: set<string>
    var itemsWindows: set<string>
    var itemsLinux: set<string>

    function Used(): Names
      reads this
    {
      Names(itemsMac, itemsWindows, itemsLinux)
    }

    constructor ()
      ensures Used() == NO_NAMES
    {
      itemsMac, itemsWindows, itemsLinux := {}, {}, {};
    }

    /** Take a name on the platforms `f`, unless it is in use on one of them. */
    method Register(name: string, f: Platforms) returns (ok: bool)
      modifies this
      ensures ok == old(Used()).Free(name, f)
      ensures ok ==> Used() == old(Used()).With(name, f)
    {
      if f.mac {
        if name in itemsMac {
          return false;
        }
        itemsMac := itemsMac + {name};
      }
      if f.windows {
        if name in itemsWindows {
          return false;
        }
        itemsWindows := itemsWindows + {name};
      }
      if f.linux {
        if name in itemsLinux {
          return false;
        }
        itemsLinux := itemsLinux + {name};
      }
      ok := true;
    }

    method ParseItem(e: Element, parent: Platforms, valid: string -> bool) returns (ok: bool, item: MenuItem)
      modifies this
      ensures var r := Menus.ParseItem(e, parent, old(Used()), valid);
              ok == r.Parsed? && (ok ==> item == r.value && Used() == r.names)
      decreases e
    {
      item := MenuItem(Separator, "", ALL_PLATFORMS, Look(Undefined, Undefined, Undefined), 0, 0, []);
      if KindOf(e.tag) == [] {
        return false, item;
      }
      var kind := KindOf(e.tag)[0];
      var f := ParsePlatforms(e.platform, parent);
      if !NameOk(e.name, kind, valid) || f.Empty() {
        return false, item;
      }
      if e.name != "" {
        ok := Register(e.name, f);
        if !ok {
          return;
        }
      }
      if !kind.Separator? && !e.wellFormed {
        return false, item;
      }
      var children: seq<MenuItem> := [];
      if kind.Submenu? {
        ok, children := ParseChildren(e.children, f, valid);
        if !ok {
          return;
        }
      }
      ok, item := true, MenuItem(kind, e.name, f, e.look, e.key, e.macKey, children);
    }

    method ParseChildren(es: seq<Element>, parent: Platforms, valid: string -> bool)
        returns (ok: bool, items: seq<MenuItem>)
      modifies this
      ensures var r := ParseItems(es, parent, old(Used()), valid);
              ok == r.Parsed? && (ok ==> items == r.value && Used() == r.names)
      decreases es
    {
      ok, items := true, [];
      var i := 0;
      assert es[0..] == es;
      NothingBefore(ParseItems(es, parent, Used(), valid));
      while i < |es|
        invariant i <= |es| && ok
        invariant ParseItems(es, parent, old(Used()), valid) == After(items, ParseItems(es[i..], parent, Used(), valid))
      {
        assert es[i..][0] == es[i] && es[i..][1..] == es[i + 1..];
        var item;
        ok, item := ParseItem(es[i], parent, valid);
        if !ok {
          return;
        }
        OneMoreBefore(items, item, ParseItems(es[i + 1..], parent, Used(), valid));
        items := items + [item];
        i := i + 1;
      }
      assert es[i..] == [] && items + [] == items;
    }

    /** A result with `items` in front. */
    static function After(items: seq<MenuItem>, r: Result<seq<MenuItem>>): Result<seq<MenuItem>> {
      if r.Invalid? then Invalid else Parsed(items + r.value, r.names)
    }

    static lemma NothingBefore(r: Result<seq<MenuItem>>)
      ensures After([], r) == r
    {
      assert r.Parsed? ==> [] + r.value == r.value;
    }

    static lemma OneMoreBefore(items: seq<MenuItem>, item: MenuItem, r: Result<seq<MenuItem>>)
      ensures After(items, After([item], r)) == After(items + [item], r)
    {
      assert r.Parsed? ==> items + ([item] + r.value) == (items + [item]) + r.value;
    }
  }

  class MenuGenerator {
    var text: seq<Line>

    constructor ()
      ensures text == []
    {
      text := [];
    }

    method GenerateItem(parent: string, flags: Platforms, item: MenuItem) returns (ok: bool)
      modifies this
      ensures var g := Generate(parent, flags, item);
              ok == g.0 && text == old(text) + g.1
      decreases item
    {
      text := text + Header(item.platforms, flags);
      if !Resolves(item) {
        return false;
      }
      text := text + [Define(DefinitionOf(parent, item))];
      if item.kind.Submenu? {
        GenerateAll(item.name, item.platforms, item.children);
      }
      hide GenerateChildren, DefinitionOf, Header, Footer;
      ghost var kids := if item.kind.Submenu? then GenerateChildren(item.name, item.platforms, item.children) else [];
      LinesInARow(old(text), Header(item.platforms, flags), [Define(DefinitionOf(parent, item))], kids,
                  Footer(item.platforms, flags));
      text := text + Footer(item.platforms, flags);
      ok := true;
    }

    static lemma LinesInARow(t: seq<Line>, a: seq<Line>, b: seq<Line>, c: seq<Line>, d: seq<Line>)
      ensures t + a + b + c + d == t + (a + b + c + d)
      ensures t + a + b + [] == t + a + b
    {
    }

    /** The children of a submenu; their failures are not looked at. */
    method GenerateAll(parent: string, flags: Platforms, items: seq<MenuItem>)
      modifies this
      ensures text == old(text) + GenerateChildren(parent, flags, items)
      decreases items
    {
      var i := 0;
      assert items[0..] == items;
      while i < |items|
        invariant i <= |items|
        invariant old(text) + GenerateChildren(parent, flags, items) ==
                  text + GenerateChildren(parent, flags, items[i..])
      {
        assert items[i..][0] == items[i] && items[i..][1..] == items[i + 1..];
        Regroup(text, Generate(parent, flags, items[i]).1, GenerateChildren(parent, flags, items[i + 1..]));
        var _ := GenerateItem(parent, flags, items[i]);
        i := i + 1;
      }
      assert items[i..] == [];
    }

    method GenerateMenu(items: seq<MenuItem>) returns (ok: bool)
      modifies this
      ensures ok == GenerateTop(items).0 && text == old(text) + GenerateTop(items).1
    {
      hide Generate;
      var i := 0;
      while i < |items|
        invariant i <= |items|
        invariant GenerateTop(items).0 == GenerateTop(items[i..]).0
        invariant old(text) + GenerateTop(items).1 == text + GenerateTop(items[i..]).1
      {
        assert items[i..][0] == items[i] && items[i..][1..] == items[i + 1..];
        ok := GenerateItem("root", ALL_PLATFORMS, items[i]);
        if !ok {
          return;
        }
        i := i + 1;
      }
      assert items[i..] == [];
      ok := true;
    }
  }
}
