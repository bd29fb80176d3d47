/** Menu resources of src/sapp/sapp_document_menu.cpp.h: the parsed tree with its platform flags,
    and the parser. */
module Menus {

  datatype Platform = Mac | Windows | Linux

  /** The 16 platform flags of an item. `others` are the 13 that belong to no platform: the
      constants of the source set or clear them together. */
  datatype Platforms = Platforms(mac: bool, windows: bool, linux: bool, others: bool) {
    predicate Has(p: Platform) {
      match p
      case Mac => mac
      case Windows => windows
      case Linux => linux
    }

    /** No flag at all is set. */
    predicate Empty() { !mac && !windows && !linux && !others }

    /** No flag of a platform is set. */
    predicate Nowhere() { !mac && !windows && !linux }

    function And(o: Platforms): Platforms {
      Platforms(mac && o.mac, windows && o.windows, linux && o.linux, others && o.others)
    }

    predicate Within(o: Platforms) {
      (mac ==> o.mac) && (windows ==> o.windows) && (linux ==> o.linux) && (others ==> o.others)
    }

    function Word(): bv16 {
      (if mac then 1 else 0) | (if windows then 2 else 0) | (if linux then 4 else 0) | (if others then 0xFFF8 else 0)
    }
  }

  const ALL_PLATFORMS: Platforms := Platforms(true, true, true, true)
  const NO_MAC: Platforms := Platforms(false, true, true, true)
  const NO_WINDOWS: Platforms := Platforms(true, false, true, true)
  const NO_LINUX: Platforms := Platforms(true, true, false, true)

  /** The flags are the words of the source, and what is done with them are its bit operations. */
  lemma FlagsAreWords(f: Platforms, g: Platforms)
    ensures f.And(g).Word() == f.Word() & g.Word()
    ensures f.Word() == g.Word() <==> f == g
    ensures f.Empty() <==> f.Word() == 0
    ensures f.Within(g) <==> f.Word() & g.Word() == f.Word()
    ensures (f.Has(Mac) <==> f.Word() & 1 != 0) && (f.Has(Windows) <==> f.Word() & 2 != 0)
            && (f.Has(Linux) <==> f.Word() & 4 != 0)
    ensures ALL_PLATFORMS.Word() == 0xFFFF && NO_MAC.Word() == 0xFFFE
            && NO_WINDOWS.Word() == 0xFFFD && NO_LINUX.Word() == 0xFFFB
  {
  }

  datatype Kind = Submenu | Item | Separator

  /** A title or icon: not given, a value, or a reference to what does not exist. */
  datatype Reference = Undefined | Known(value: string) | Dangling

  datatype Look = Look(title: Reference, icon: Reference, checkedIcon: Reference)

  datatype MenuItem = MenuItem(kind: Kind, name: string, platforms: Platforms, look: Look,
                               key: nat, macKey: nat, children: seq<MenuItem>)

  // ---- The parser ----

  /** An element of the source: `wellFormed` when the attributes other than name and platform can
      be parsed. */
  datatype Element = Element(tag: string, name: string, platform: string, wellFormed: bool,
                             look: Look, key: nat, macKey: nat, children: seq<Element>)

  /** The names used so far, platform by platform. */
  datatype Names = Names(mac: set<string>, windows: set<string>, linux: set<string>) {
    function Of(p: Platform): set<string> {
      match p
      case Mac => mac
      case Windows => windows
      case Linux => linux
    }

    /** `name` is free on all of `f`. */
    predicate Free(name: string, f: Platforms) {
      (f.mac ==> name !in mac) && (f.windows ==> name !in windows) && (f.linux ==> name !in linux)
    }

    function With(name: string, f: Platforms): Names {
      Names(if f.mac then mac + {name} else mac,
            if f.windows then windows + {name} else windows,
            if f.linux then linux + {name} else linux)
    }
  }

  predicate Contains(s: string, t: string) {
    |t| <= |s| && (s[..|t|] == t || Contains(s[1..], t))
  }

  /** The platforms an attribute names, within those of the parent. */
  function ParsePlatforms(s: string, parent: Platforms): (f: Platforms)
    ensures f.Within(parent)
  {
    if s == "" then parent
    else if s == "no-mac" then NO_MAC.And(parent)
    else if s == "no-windows" then NO_WINDOWS.And(parent)
    else if s == "no-linux" then NO_LINUX.And(parent)
    else Platforms(Contains(s, "mac"), Contains(s, "windows"), Contains(s, "linux"), false).And(parent)
  }

  datatype Result<T> = Parsed(value: T, names: Names) | Invalid

  function KindOf(tag: string): seq<Kind> {
    if tag == "submenu" then [Submenu] else if tag == "item" then [Item]
    else if tag == "separator" then [Separator] else []
  }

  predicate NameOk(name: string, kind: Kind, valid: string -> bool) {
    if name == "" then kind.Separator? else name != "root" && valid(name)
  }

  function ParseItem(e: Element, parent: Platforms, names: Names, valid: string -> bool): Result<MenuItem>
    decreases e
  {
    if KindOf(e.tag) == [] then Invalid
    else
      var kind := KindOf(e.tag)[0];
      var f := ParsePlatforms(e.platform, parent);
      if !NameOk(e.name, kind, valid) || f.Empty() then Invalid
      else if e.name != "" && !names.Free(e.name, f) then Invalid
      else if !kind.Separator? && !e.wellFormed then Invalid
      else
        var names1 := if e.name == "" then names else names.With(e.name, f);
        if kind.Submenu? then
          match ParseItems(e.children, f, names1, valid)
          case Invalid => Invalid
          case Parsed(children, names2) => Parsed(MenuItem(kind, e.name, f, e.look, e.key, e.macKey, children), names2)
        else Parsed(MenuItem(kind, e.name, f, e.look, e.key, e.macKey, []), names1)
  }

  function ParseItems(es: seq<Element>, parent: Platforms, names: Names, valid: string -> bool): Result<seq<MenuItem>>
    decreases es
  {
    if es == [] then Parsed([], names)
    else
      match ParseItem(es[0], parent, names, valid)
      case Invalid => Invalid
      case Parsed(item, names1) =>
        match ParseItems(es[1..], parent, names1, valid)
        case Invalid => Invalid
        case Parsed(items, names2) => Parsed([item] + items, names2)
  }

  // ---- What the parser guarantees ----

  /** Every item has flags, all of them its parent's; they need not name a platform. */
  predicate Flagged(item: MenuItem, parent: Platforms)
    decreases item
  {
    && !item.platforms.Empty() && item.platforms.Within(parent)
    && (item.name == "" ==> item.kind.Separator?)
    && (!item.kind.Submenu? ==> item.children == [])
    && AllFlagged(item.children, item.platforms)
  }

  predicate AllFlagged(items: seq<MenuItem>, parent: Platforms)
    decreases items
  {
    items == [] || (Flagged(items[0], parent) && AllFlagged(items[1..], parent))
  }

  lemma {:induction false} ParsedIsFlagged(e: Element, parent: Platforms, names: Names, valid: string -> bool)
    ensures var r := ParseItem(e, parent, names, valid);
            r.Parsed? ==> Flagged(r.value, parent)
    decreases e
  {
    if ParseItem(e, parent, names, valid).Parsed? && KindOf(e.tag)[0].Submenu? {
      var f := ParsePlatforms(e.platform, parent);
      AllParsedAreFlagged(e.children, f, names.With(e.name, f), valid);
    }
  }

  lemma {:induction false} AllParsedAreFlagged(es: seq<Element>, parent: Platforms, names: Names, valid: string -> bool)
    ensures var r := ParseItems(es, parent, names, valid);
            r.Parsed? ==> AllFlagged(r.value, parent)
    decreases es
  {
    if es != [] {
      ParsedIsFlagged(es[0], parent, names, valid);
      var r := ParseItem(es[0], parent, names, valid);
      if r.Parsed? {
        AllParsedAreFlagged(es[1..], parent, r.names, valid);
        var rest := ParseItems(es[1..], parent, r.names, valid);
        if rest.Parsed? {
          assert ([r.value] + rest.value)[1..] == rest.value;
        }
      }
    }
  }

  /** The names of the submenus that exist on `p`, in the order of the tree. */
  function SubmenuNames(item: MenuItem, p: Platform): seq<string>
    decreases item
  {
    if item.platforms.Has(p) && item.kind.Submenu? then [item.name] + AllSubmenuNames(item.children, p) else []
  }

  function AllSubmenuNames(items: seq<MenuItem>, p: Platform): seq<string>
    decreases items
  {
    if items == [] then [] else SubmenuNames(items[0], p) + AllSubmenuNames(items[1..], p)
  }

  predicate Distinct(s: seq<string>) {
    forall i, j :: 0 <= i < j < |s| ==> s[i] != s[j]
  }

  /** Names `s` were free before and are taken after. */
  predicate Taken(s: seq<string>, before: set<string>, after: set<string>) {
    && Distinct(s) && before <= after
    && (forall n :: n in s ==> n !in before && n in after && n != "root")
  }

  lemma TakenInTurn(a: seq<string>, b: seq<string>, x: set<string>, y: set<string>, z: set<string>)
    requires Taken(a, x, y) && Taken(b, y, z)
    ensures Taken(a + b, x, z)
  {
    var s := a + b;
    forall i, j | 0 <= i < j < |s| ensures s[i] != s[j] {
      if i < |a| <= j {
        assert a[i] in a && b[j - |a|] in b;
      }
    }
  }

  lemma NothingTaken(x: set<string>, y: set<string>)
    requires x <= y
    ensures Taken([], x, y)
  {
  }

  lemma OneTaken(name: string, x: set<string>)
    requires name !in x && name != "root"
    ensures Taken([name], x, x + {name})
  {
  }

  /** On each platform the parser gives every submenu a name of its own. */
  lemma {:induction false} ParsedNames(e: Element, parent: Platforms, names: Names, valid: string -> bool, p: Platform)
    ensures var r := ParseItem(e, parent, names, valid);
            r.Parsed? ==> Taken(SubmenuNames(r.value, p), names.Of(p), r.names.Of(p))
    decreases e
  {
    var r := ParseItem(e, parent, names, valid);
    if r.Parsed? {
      var f := ParsePlatforms(e.platform, parent);
      var names1 := if e.name == "" then names else names.With(e.name, f);
      NothingTaken(names.Of(p), names1.Of(p));
      if r.value.kind.Submenu? {
        AllParsedNames(e.children, f, names1, valid, p);
        if f.Has(p) {
          OneTaken(e.name, names.Of(p));
          TakenInTurn([e.name], AllSubmenuNames(r.value.children, p), names.Of(p), names1.Of(p), r.names.Of(p));
        }
      }
    }
  }

  lemma {:induction false} AllParsedNames(es: seq<Element>, parent: Platforms, names: Names, valid: string -> bool,
                                          p: Platform)
    ensures var r := ParseItems(es, parent, names, valid);
            r.Parsed? ==> Taken(AllSubmenuNames(r.value, p), names.Of(p), r.names.Of(p))
    decreases es
  {
    if es != [] {
      ParsedNames(es[0], parent, names, valid, p);
      var r := ParseItem(es[0], parent, names, valid);
      if r.Parsed? {
        AllParsedNames(es[1..], parent, r.names, valid, p);
        var rest := ParseItems(es[1..], parent, r.names, valid);
        if rest.Parsed? {
          TakenInTurn(SubmenuNames(r.value, p), AllSubmenuNames(rest.value, p), names.Of(p), r.names.Of(p),
                      rest.names.Of(p));
          assert ([r.value] + rest.value)[1..] == rest.value;
        }
      }
    }
  }

  // ---- What the attribute of platforms says ----

  function PlatformName(p: Platform): string {
    match p
    case Mac => "mac"
    case Windows => "windows"
    case Linux => "linux"
  }

  predicate OccursAt(t: string, s: string, i: int) { 0 <= i <= |s| - |t| && s[i..i + |t|] == t }

  predicate Occurs(t: string, s: string) { exists i :: 0 <= i <= |s| && OccursAt(t, s, i) }

  lemma {:induction false} ContainsExactly(s: string, t: string)
    ensures Contains(s, t) <==> Occurs(t, s)
  {
    if |t| <= |s| {
      if s[..|t|] == t {
        assert OccursAt(t, s, 0);
      } else {
        ContainsExactly(s[1..], t);
        forall i | 0 <= i <= |s| && OccursAt(t, s, i) ensures OccursAt(t, s[1..], i - 1) {
          assert s[i..i + |t|] == s[1..][i - 1..i - 1 + |t|];
        }
        forall i | 0 <= i <= |s[1..]| && OccursAt(t, s[1..], i) ensures OccursAt(t, s, i + 1) {
          assert s[1..][i..i + |t|] == s[i + 1..i + 1 + |t|];
        }
      }
    }
  }

  /** Flags `f` are what the text `s` says below a parent with flags `parent`: without a text the
      parent's; `no-` and the name of a platform takes that one away; any other text names the
      platforms it contains. */
  predicate TextSays(s: string, parent: Platforms, f: Platforms) {
    && (s == "" ==> f == parent)
    && (forall p :: s == "no-" + PlatformName(p) ==>
          f.others == parent.others && forall q :: f.Has(q) <==> parent.Has(q) && q != p)
    && (s != "" && (forall p :: s != "no-" + PlatformName(p)) ==>
          !f.others && forall p :: f.Has(p) <==> parent.Has(p) && Occurs(PlatformName(p), s))
  }

  lemma PlatformNames()
    ensures PlatformName(Mac) == "mac" && PlatformName(Windows) == "windows" && PlatformName(Linux) == "linux"
    ensures "no-" + PlatformName(Mac) == "no-mac" && "no-" + PlatformName(Windows) == "no-windows"
            && "no-" + PlatformName(Linux) == "no-linux"
  {
  }

  lemma PlatformsAsTheTextSays(s: string, parent: Platforms)
    ensures TextSays(s, parent, ParsePlatforms(s, parent))
  {
    PlatformNames();
    ContainsExactly(s, "mac");
    ContainsExactly(s, "windows");
    ContainsExactly(s, "linux");
    hide Contains, Occurs, PlatformName;
    var f := ParsePlatforms(s, parent);
    forall p | s == "no-" + PlatformName(p)
      ensures f.others == parent.others && forall q :: f.Has(q) <==> parent.Has(q) && q != p
    {
      match p
      case Mac =>
      case Windows =>
      case Linux =>
    }
    if s != "" && (forall p :: s != "no-" + PlatformName(p)) {
      assert s != "no-" + PlatformName(Mac) && s != "no-" + PlatformName(Windows) && s != "no-" + PlatformName(Linux);
      forall p ensures f.Has(p) <==> parent.Has(p) && Occurs(PlatformName(p), s) {
        match p
        case Mac =>
        case Windows =>
        case Linux =>
      }
    }
  }

  /** `item` is the element `e`, on the platforms that its text says, and so below. */
  predicate Mirrors(item: MenuItem, e: Element, parent: Platforms)
    decreases e
  {
    && item.name == e.name && item.look == e.look && item.key == e.key && item.macKey == e.macKey
    && e.tag == (match item.kind case Submenu => "submenu" case Item => "item" case Separator => "separator")
    && TextSays(e.platform, parent, item.platforms)
    && (if item.kind.Submenu? then AllMirror(item.children, e.children, item.platforms) else item.children == [])
  }

  predicate AllMirror(items: seq<MenuItem>, es: seq<Element>, parent: Platforms)
    decreases es
  {
    if es == [] then items == []
    else items != [] && Mirrors(items[0], es[0], parent) && AllMirror(items[1..], es[1..], parent)
  }

  /** What the parser accepts it takes over: the same items in the same order and nesting. */
  lemma {:induction false} ParsedMirrors(e: Element, parent: Platforms, names: Names, valid: string -> bool)
    ensures var r := ParseItem(e, parent, names, valid);
            r.Parsed? ==> Mirrors(r.value, e, parent)
    decreases e
  {
    PlatformsAsTheTextSays(e.platform, parent);
    hide TextSays, ParsePlatforms;
    if ParseItem(e, parent, names, valid).Parsed? && KindOf(e.tag)[0].Submenu? {
      var f := ParsePlatforms(e.platform, parent);
      AllParsedMirror(e.children, f, names.With(e.name, f), valid);
    }
  }

  lemma {:induction false} AllParsedMirror(es: seq<Element>, parent: Platforms, names: Names, valid: string -> bool)
    ensures var r := ParseItems(es, parent, names, valid);
            r.Parsed? ==> AllMirror(r.value, es, parent)
    decreases es
  {
    if es != [] {
      ParsedMirrors(es[0], parent, names, valid);
      var r := ParseItem(es[0], parent, names, valid);
      hide ParseItem, Mirrors;
      if r.Parsed? {
        AllParsedMirror(es[1..], parent, r.names, valid);
        var rest := ParseItems(es[1..], parent, r.names, valid);
        if rest.Parsed? {
          assert ([r.value] + rest.value)[1..] == rest.value;
        }
      }
    }
  }

  // ---- What the parser accepts ----

  /** An element may become an item, apart from the names in use. */
  predicate Acceptable(e: Element, parent: Platforms, valid: string -> bool)
    decreases e
  {
    var f := ParsePlatforms(e.platform, parent);
    && (e.tag == "submenu" || e.tag == "item" || e.tag == "separator")
    && (if e.name == "" then e.tag == "separator" else e.name != "root" && valid(e.name))
    && f != Platforms(false, false, false, false)
    && (e.tag != "separator" ==> e.wellFormed)
    && (e.tag == "submenu" ==> AllAcceptable(e.children, f, valid))
  }

  predicate AllAcceptable(es: seq<Element>, parent: Platforms, valid: string -> bool)
    decreases es
  {
    es == [] || (Acceptable(es[0], parent, valid) && AllAcceptable(es[1..], parent, valid))
  }

  /** The names that elements want on `p`, in the order of the text. */
  function Wanted(e: Element, parent: Platforms, p: Platform): seq<string>
    decreases e
  {
    var f := ParsePlatforms(e.platform, parent);
    (if e.name != "" && f.Has(p) then [e.name] else [])
    + (if e.tag == "submenu" then AllWanted(e.children, f, p) else [])
  }

  function AllWanted(es: seq<Element>, parent: Platforms, p: Platform): seq<string>
    decreases es
  {
    if es == [] then [] else Wanted(es[0], parent, p) + AllWanted(es[1..], parent, p)
  }

  /** All of `s` differ, and none is in use. */
  predicate AllFree(s: seq<string>, used: set<string>) { Distinct(s) && forall n :: n in s ==> n !in used }

  function Members(s: seq<string>): set<string> { set n | n in s }

  lemma FreeInTurn(a: seq<string>, b: seq<string>, used: set<string>)
    ensures AllFree(a + b, used) <==> AllFree(a, used) && AllFree(b, used + Members(a))
    ensures Members(a + b) == Members(a) + Members(b)
  {
    var s := a + b;
    if AllFree(s, used) {
      forall i, j | 0 <= i < j < |a| ensures a[i] != a[j] { assert s[i] == a[i] && s[j] == a[j]; }
      forall i, j | 0 <= i < j < |b| ensures b[i] != b[j] { assert s[|a| + i] == b[i] && s[|a| + j] == b[j]; }
      forall n | n in a ensures n !in used { assert n in s; }
      forall n | n in b ensures n !in used + Members(a) {
        assert n in s;
        var j :| 0 <= j < |b| && b[j] == n;
        if n in a {
          var i :| 0 <= i < |a| && a[i] == n;
          assert s[i] == s[|a| + j];
        }
      }
    }
    if AllFree(a, used) && AllFree(b, used + Members(a)) {
      forall i, j | 0 <= i < j < |s| ensures s[i] != s[j] {
        if i < |a| <= j {
          assert a[i] in a && b[j - |a|] in b;
        }
      }
    }
  }

  function First(e: Element, parent: Platforms, p: Platform): seq<string> {
    if e.name != "" && ParsePlatforms(e.platform, parent).Has(p) then [e.name] else []
  }

  lemma FirstTaken(e: Element, parent: Platforms, names: Names, p: Platform)
    ensures var f := ParsePlatforms(e.platform, parent);
            var names1 := if e.name == "" then names else names.With(e.name, f);
            names1.Of(p) == names.Of(p) + Members(First(e, parent, p))
  {
    hide ParsePlatforms;
  }

  lemma FirstFree(e: Element, parent: Platforms, names: Names)
    ensures (e.name == "" || names.Free(e.name, ParsePlatforms(e.platform, parent))) <==>
            forall p :: AllFree(First(e, parent, p), names.Of(p))
  {
    hide ParsePlatforms;
    var f := ParsePlatforms(e.platform, parent);
    if forall p :: AllFree(First(e, parent, p), names.Of(p)) {
      assert AllFree(First(e, parent, Mac), names.Of(Mac));
      assert AllFree(First(e, parent, Windows), names.Of(Windows));
      assert AllFree(First(e, parent, Linux), names.Of(Linux));
    }
  }

  /** Everything that `e` wants is free in `names`. */
  predicate WantsFree(e: Element, parent: Platforms, names: Names) {
    forall p :: AllFree(Wanted(e, parent, p), names.Of(p))
  }

  predicate AllWantFree(es: seq<Element>, parent: Platforms, names: Names) {
    forall p :: AllFree(AllWanted(es, parent, p), names.Of(p))
  }

  lemma WantsInTurn(e: Element, parent: Platforms, names: Names, p: Platform)
    ensures var f := ParsePlatforms(e.platform, parent);
            var kids := if e.tag == "submenu" then AllWanted(e.children, f, p) else [];
            && (AllFree(Wanted(e, parent, p), names.Of(p)) <==>
                  AllFree(First(e, parent, p), names.Of(p))
                  && AllFree(kids, names.Of(p) + Members(First(e, parent, p))))
            && Members(Wanted(e, parent, p)) == Members(First(e, parent, p)) + Members(kids)
  {
    var f := ParsePlatforms(e.platform, parent);
    FreeInTurn(First(e, parent, p), if e.tag == "submenu" then AllWanted(e.children, f, p) else [], names.Of(p));
    hide ParsePlatforms, AllFree, Members;
  }

  lemma NothingIsFree(used: set<string>)
    ensures AllFree([], used) && Members([]) == {}
  {
  }

  lemma WantsSplit(e: Element, parent: Platforms, names: Names)
    ensures var f := ParsePlatforms(e.platform, parent);
            var names1 := if e.name == "" then names else names.With(e.name, f);
            WantsFree(e, parent, names) <==>
            (e.name == "" || names.Free(e.name, f))
            && (e.tag == "submenu" ==> AllWantFree(e.children, f, names1))
  {
    FirstFree(e, parent, names);
    forall p
      ensures var f := ParsePlatforms(e.platform, parent);
              var names1 := if e.name == "" then names else names.With(e.name, f);
              AllFree(Wanted(e, parent, p), names.Of(p)) <==>
              AllFree(First(e, parent, p), names.Of(p))
              && (e.tag == "submenu" ==> AllFree(AllWanted(e.children, f, p), names1.Of(p)))
    {
      FirstTaken(e, parent, names, p);
      WantsInTurn(e, parent, names, p);
      NothingIsFree(names.Of(p) + Members(First(e, parent, p)));
    }
    hide ParsePlatforms, AllFree, Wanted, AllWanted, First, Names.With, Names.Free, Names.Of;
  }

  lemma AllWantSplit(es: seq<Element>, parent: Platforms, names: Names, u: Names)
    requires es != [] && forall p :: u.Of(p) == names.Of(p) + Members(Wanted(es[0], parent, p))
    ensures AllWantFree(es, parent, names) <==> WantsFree(es[0], parent, names) && AllWantFree(es[1..], parent, u)
  {
    forall p
      ensures AllFree(AllWanted(es, parent, p), names.Of(p)) <==>
              AllFree(Wanted(es[0], parent, p), names.Of(p)) && AllFree(AllWanted(es[1..], parent, p), u.Of(p))
    {
      FreeInTurn(Wanted(es[0], parent, p), AllWanted(es[1..], parent, p), names.Of(p));
      hide AllFree;
      assert u.Of(p) == names.Of(p) + Members(Wanted(es[0], parent, p));
    }
    hide AllFree, Wanted, AllWanted;
  }

  lemma AllWantFirst(es: seq<Element>, parent: Platforms, names: Names)
    requires es != [] && AllWantFree(es, parent, names)
    ensures WantsFree(es[0], parent, names)
  {
    forall p ensures AllFree(Wanted(es[0], parent, p), names.Of(p)) {
      FreeInTurn(Wanted(es[0], parent, p), AllWanted(es[1..], parent, p), names.Of(p));
      hide AllFree, Wanted;
      assert AllFree(AllWanted(es, parent, p), names.Of(p));
    }
  }

  /** `u` is `names` with what `e` wants. */
  ghost predicate TakesWanted(e: Element, parent: Platforms, names: Names, u: Names) {
    forall p :: u.Of(p) == names.Of(p) + Members(Wanted(e, parent, p))
  }

  ghost predicate TakesAllWanted(es: seq<Element>, parent: Platforms, names: Names, u: Names) {
    forall p :: u.Of(p) == names.Of(p) + Members(AllWanted(es, parent, p))
  }

  lemma KidsTaken(e: Element, parent: Platforms, names: Names, u: Names)
    requires var f := ParsePlatforms(e.platform, parent);
             var names1 := if e.name == "" then names else names.With(e.name, f);
             if e.tag == "submenu" then TakesAllWanted(e.children, f, names1, u) else u == names1
    ensures TakesWanted(e, parent, names, u)
  {
    forall p ensures u.Of(p) == names.Of(p) + Members(Wanted(e, parent, p)) {
      FirstTaken(e, parent, names, p);
      WantsInTurn(e, parent, names, p);
      NothingIsFree({});
    }
  }

  lemma RestTaken(es: seq<Element>, parent: Platforms, names: Names, u: Names, v: Names)
    requires es != [] && TakesWanted(es[0], parent, names, u) && TakesAllWanted(es[1..], parent, u, v)
    ensures TakesAllWanted(es, parent, names, v)
  {
    forall p ensures v.Of(p) == names.Of(p) + Members(AllWanted(es, parent, p)) {
      FreeInTurn(Wanted(es[0], parent, p), AllWanted(es[1..], parent, p), {});
      hide Wanted;
      assert u.Of(p) == names.Of(p) + Members(Wanted(es[0], parent, p));
      assert v.Of(p) == u.Of(p) + Members(AllWanted(es[1..], parent, p));
    }
  }

  /** What the parser accepts, element by element: exactly when tags, names, platforms and attributes
      are in order, and on each platform every name is used once. */
  lemma {:induction false} AcceptsExactly(e: Element, parent: Platforms, names: Names, valid: string -> bool)
    ensures var r := ParseItem(e, parent, names, valid);
            && (r.Parsed? <==> Acceptable(e, parent, valid) && WantsFree(e, parent, names))
            && (r.Parsed? ==> TakesWanted(e, parent, names, r.names))
    decreases e
  {
    var f := ParsePlatforms(e.platform, parent);
    var names1 := if e.name == "" then names else names.With(e.name, f);
    var r := ParseItem(e, parent, names, valid);
    WantsSplit(e, parent, names);
    if e.tag == "submenu" {
      AllAcceptExactly(e.children, f, names1, valid);
    }
    hide WantsFree, AllWantFree, TakesWanted, TakesAllWanted, Names.With, Names.Free, ParsePlatforms;
    if r.Parsed? {
      KidsTaken(e, parent, names, r.names);
    }
  }

  lemma {:induction false} AllAcceptExactly(es: seq<Element>, parent: Platforms, names: Names, valid: string -> bool)
    ensures var r := ParseItems(es, parent, names, valid);
            && (r.Parsed? <==> AllAcceptable(es, parent, valid) && AllWantFree(es, parent, names))
            && (r.Parsed? ==> TakesAllWanted(es, parent, names, r.names))
    decreases es
  {
    if es != [] {
      AcceptsExactly(es[0], parent, names, valid);
      var r := ParseItem(es[0], parent, names, valid);
      hide ParseItem, Acceptable, WantsFree, AllWantFree, TakesAllWanted;
      if r.Parsed? {
        AllAcceptExactly(es[1..], parent, r.names, valid);
        AllWantSplit(es, parent, names, r.names);
        var rest := ParseItems(es[1..], parent, r.names, valid);
        if rest.Parsed? {
          RestTaken(es, parent, names, r.names, rest.names);
        }
      } else if AllWantFree(es, parent, names) {
        AllWantFirst(es, parent, names);
      }
    } else {
      NothingWanted(parent, names);
    }
  }

  lemma NothingWanted(parent: Platforms, names: Names)
    ensures AllWantFree([], parent, names) && TakesAllWanted([], parent, names, names)
  {
  }
}
