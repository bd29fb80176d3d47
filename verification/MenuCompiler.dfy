/** The generator of menu source code against the simulator, both of
    src/sapp/sapp_document_menu.cpp.h: on each platform the generated definitions, their guards
    resolved, build the menu that the simulator shows. */
module MenuCompiler {
  import opened Menus

  // ---- Generated source ----

  /** The condition of an `#if`: all platforms but one, or any of some. */
  datatype Condition = AllBut(p: Platform) | AnyOf(f: Platforms)

  predicate Holds(c: Condition, p: Platform) {
    match c
    case AllBut(q) => p != q
    case AnyOf(f) => f.Has(p)
  }

  /** Nothing is written between `#if` and the end of the line. */
  predicate Blank(c: Condition) { c.AnyOf? && c.f.Nowhere() }

  /** A shortcut key, or one for the Mac and one for the others. */
  datatype KeyText = Same(key: nat) | IfMac(mac: nat, other: nat)

  function KeyOn(k: KeyText, p: Platform): nat {
    match k
    case Same(key) => key
    case IfMac(mac, other) => if p.Mac? then mac else other
  }

  /** The definition of an item under the menu named `parent`. */
  datatype Definition = Definition(parent: string, kind: Kind, name: string, look: Look, key: KeyText)

  datatype Line = If(c: Condition) | EndIf | Define(d: Definition)

  function GuardOf(f: Platforms): Condition {
    if f == NO_MAC then AllBut(Mac)
    else if f == NO_WINDOWS then AllBut(Windows)
    else if f == NO_LINUX then AllBut(Linux)
    else AnyOf(f)
  }

  predicate Guarded(f: Platforms, parent: Platforms) { f != parent && f != ALL_PLATFORMS }

  function Header(f: Platforms, parent: Platforms): seq<Line> {
    if Guarded(f, parent) then [If(GuardOf(f))] else []
  }

  function Footer(f: Platforms, parent: Platforms): seq<Line> {
    if Guarded(f, parent) then [EndIf] else []
  }

  function KeyTextOf(item: MenuItem): KeyText {
    if item.key == item.macKey then Same(item.key) else IfMac(item.macKey, item.key)
  }

  /** The label's references exist, as far as the item's kind needs them. */
  predicate Resolves(item: MenuItem) {
    || item.kind.Separator?
    || (!item.look.title.Dangling? && !item.look.icon.Dangling? && !item.look.checkedIcon.Dangling?)
  }

  predicate AllResolve(items: seq<MenuItem>)
    decreases items
  {
    items == [] || (Resolves(items[0]) && AllResolve(items[0].children) && AllResolve(items[1..]))
  }

  function DefinitionOf(parent: string, item: MenuItem): Definition {
    Definition(parent, item.kind, item.name,
               if item.kind.Separator? then Look(Undefined, Undefined, Undefined) else item.look,
               if item.kind.Item? then KeyTextOf(item) else Same(0))
  }

  /** What is generated for an item, and whether its label could be written. When it could not, the
      text breaks off behind the guard; a failure among the children goes unnoticed. */
  function Generate(parent: string, flags: Platforms, item: MenuItem): (bool, seq<Line>)
    decreases item
  {
    var header := Header(item.platforms, flags);
    if !Resolves(item) then (false, header)
    else
      (true, header + [Define(DefinitionOf(parent, item))]
             + (if item.kind.Submenu? then GenerateChildren(item.name, item.platforms, item.children) else [])
             + Footer(item.platforms, flags))
  }

  function GenerateChildren(parent: string, flags: Platforms, items: seq<MenuItem>): seq<Line>
    decreases items
  {
    if items == [] then []
    else Generate(parent, flags, items[0]).1 + GenerateChildren(parent, flags, items[1..])
  }

  /** The top level stops at the first failure. */
  function GenerateTop(items: seq<MenuItem>): (bool, seq<Line>)
    decreases items
  {
    if items == [] then (true, [])
    else
      var (ok, lines) := Generate("root", ALL_PLATFORMS, items[0]);
      if !ok then (false, lines)
      else
        var (more, rest) := GenerateTop(items[1..]);
        (more, lines + rest)
  }

  // ---- What a compiler makes of it ----

  predicate AllTrue(stack: seq<bool>) { forall b :: b in stack ==> b }

  /** What the preprocessor leaves, or its error. */
  datatype Selection = Left(defs: seq<Definition>) | Malformed

  function Join(a: Selection, b: Selection): Selection {
    if a.Left? && b.Left? then Left(a.defs + b.defs) else Malformed
  }

  /** The definitions that are left on `p`; `stack` are the conditions around. A condition is
      read only where those around it hold; one that is missing is an error there. */
  function Select(p: Platform, lines: seq<Line>, stack: seq<bool>): Selection
    decreases |lines|
  {
    if lines == [] then Left([])
    else
      match lines[0]
      case If(c) =>
        if AllTrue(stack) && Blank(c) then Malformed else Select(p, lines[1..], stack + [Holds(c, p)])
      case EndIf => Select(p, lines[1..], if stack == [] then [] else stack[..|stack| - 1])
      case Define(d) => Join(Left(if AllTrue(stack) then [d] else []), Select(p, lines[1..], stack))
  }

  /** A menu as it is shown. */
  datatype Shown = ShownSubmenu(look: Look, children: seq<Shown>) | ShownItem(look: Look, key: nat) | ShownSeparator

  /** The menu under `parent` that definitions build: each goes to the end of its parent's menu. */
  function Build(p: Platform, defs: seq<Definition>, parent: string): seq<Shown>
    decreases |defs|
  {
    if defs == [] then []
    else
      var d := defs[0];
      (if d.parent != parent then []
       else if d.kind.Submenu? then [ShownSubmenu(d.look, Build(p, defs[1..], d.name))]
       else if d.kind.Item? then [ShownItem(d.look, KeyOn(d.key, p))]
       else [ShownSeparator])
      + Build(p, defs[1..], parent)
  }

  // ---- The simulator ----

  /** The menu on `p`; nothing when a label cannot be resolved. */
  datatype Simulation = Shows(menu: seq<Shown>) | Fails

  function Simulate(p: Platform, item: MenuItem): Simulation
    decreases item
  {
    if !item.platforms.Has(p) then Shows([])
    else if !Resolves(item) then Fails
    else match item.kind
      case Submenu =>
        (match SimulateAll(p, item.children)
         case Fails => Fails
         case Shows(children) => Shows([ShownSubmenu(item.look, children)]))
      case Separator => Shows([ShownSeparator])
      case Item => Shows([ShownItem(item.look, if p.Mac? then item.macKey else item.key)])
  }

  function SimulateAll(p: Platform, items: seq<MenuItem>): Simulation
    decreases items
  {
    if items == [] then Shows([])
    else
      match Simulate(p, items[0])
      case Fails => Fails
      case Shows(menu) =>
        match SimulateAll(p, items[1..])
        case Fails => Fails
        case Shows(rest) => Shows(menu + rest)
  }

  /** The items that exist on `p`. */
  function OnPlatform(p: Platform, items: seq<MenuItem>): seq<MenuItem> {
    if items == [] then []
    else (if items[0].platforms.Has(p) then [items[0]] else []) + OnPlatform(p, items[1..])
  }

  /** What is shown of an item on `p`: its own label and key, and of a submenu the same for its items. */
  predicate Depicts(p: Platform, item: MenuItem, s: Shown)
    decreases s
  {
    match s
    case ShownSubmenu(look, children) =>
      item.kind == Submenu && look == item.look && DepictsAll(p, OnPlatform(p, item.children), children)
    case ShownItem(look, key) =>
      item.kind == Item && look == item.look && key == if p == Mac then item.macKey else item.key
    case ShownSeparator => item.kind == Separator
  }

  predicate DepictsAll(p: Platform, items: seq<MenuItem>, menu: seq<Shown>)
    decreases menu
  {
    |menu| == |items| && forall k :: 0 <= k < |menu| ==> Depicts(p, items[k], menu[k])
  }

  /** An item that exists on `p`, or one below it, has a label with a reference to what does not exist. */
  predicate Breaks(p: Platform, item: MenuItem)
    decreases item
  {
    && item.platforms.Has(p)
    && ((item.kind != Separator && Dangling in {item.look.title, item.look.icon, item.look.checkedIcon})
        || (item.kind == Submenu && AnyBreaks(p, item.children)))
  }

  predicate AnyBreaks(p: Platform, items: seq<MenuItem>)
    decreases items
  {
    items != [] && (Breaks(p, items[0]) || AnyBreaks(p, items[1..]))
  }

  lemma {:induction false} SimulatorShowsOne(p: Platform, item: MenuItem)
    ensures var r := Simulate(p, item);
            && (r.Fails? <==> Breaks(p, item))
            && (r.Shows? ==> DepictsAll(p, OnPlatform(p, [item]), r.menu))
    decreases item
  {
    assert [item][1..] == [];
    if item.platforms.Has(p) && item.kind.Submenu? {
      SimulatorShowsExactly(p, item.children);
    }
  }

  /** The simulator shows on `p` exactly the items that exist there, in their order and nesting, with
      their labels and the keys of `p`; unless one of them has a broken label. */
  lemma {:induction false} SimulatorShowsExactly(p: Platform, items: seq<MenuItem>)
    ensures var r := SimulateAll(p, items);
            && (r.Fails? <==> AnyBreaks(p, items))
            && (r.Shows? ==> DepictsAll(p, OnPlatform(p, items), r.menu))
    decreases items
  {
    if items != [] {
      SimulatorShowsOne(p, items[0]);
      SimulatorShowsExactly(p, items[1..]);
      hide Simulate, Depicts, Breaks;
      OnlyOne(p, items[0]);
      var (a, b) := (Simulate(p, items[0]), SimulateAll(p, items[1..]));
      if a.Shows? && b.Shows? {
        DepictsBoth(p, OnPlatform(p, [items[0]]), OnPlatform(p, items[1..]), a.menu, b.menu);
      }
    }
  }

  lemma OnlyOne(p: Platform, item: MenuItem)
    ensures OnPlatform(p, [item]) == if item.platforms.Has(p) then [item] else []
  {
    assert [item][1..] == [];
  }

  lemma DepictsBoth(p: Platform, xs: seq<MenuItem>, ys: seq<MenuItem>, a: seq<Shown>, b: seq<Shown>)
    requires DepictsAll(p, xs, a) && DepictsAll(p, ys, b)
    ensures DepictsAll(p, xs + ys, a + b)
  {
  }

  // ---- Guards ----

  /** The definitions of the items that exist on `p`, in the order of the tree. */
  function Flat(p: Platform, parent: string, item: MenuItem): seq<Definition>
    decreases item
  {
    if !item.platforms.Has(p) then []
    else [DefinitionOf(parent, item)] + (if item.kind.Submenu? then AllFlat(p, item.name, item.children) else [])
  }

  function AllFlat(p: Platform, parent: string, items: seq<MenuItem>): seq<Definition>
    decreases items
  {
    if items == [] then [] else Flat(p, parent, items[0]) + AllFlat(p, parent, items[1..])
  }

  /** A guard says whether the platform is among the flags; without one the parent's platforms are
      meant. */
  lemma GuardDecides(p: Platform, f: Platforms, parent: Platforms)
    requires f.Within(parent)
    ensures Guarded(f, parent) ==> (Holds(GuardOf(f), p) <==> f.Has(p))
    ensures !Guarded(f, parent) ==> (f.Has(p) <==> parent.Has(p))
  {
  }

  lemma SelectHeader(p: Platform, f: Platforms, parent: Platforms, rest: seq<Line>, stack: seq<bool>)
    requires f.Within(parent) && (AllTrue(stack) ==> parent.Has(p))
    ensures var inner := if Guarded(f, parent) then stack + [f.Has(p)] else stack;
            && Select(p, Header(f, parent) + rest, stack) ==
               (if AllTrue(stack) && f.Nowhere() then Malformed else Select(p, rest, inner))
            && (AllTrue(inner) <==> AllTrue(stack) && f.Has(p))
  {
    GuardDecides(p, f, parent);
    if Guarded(f, parent) {
      assert (Header(f, parent) + rest)[1..] == rest;
      OneMoreCondition(stack, f.Has(p));
    } else {
      assert Header(f, parent) + rest == rest;
    }
  }

  lemma OneMoreCondition(stack: seq<bool>, b: bool)
    ensures AllTrue(stack + [b]) <==> AllTrue(stack) && b
  {
    assert b in stack + [b];
    assert forall c :: c in stack ==> c in stack + [b];
  }

  lemma SelectFooter(p: Platform, f: Platforms, parent: Platforms, rest: seq<Line>, stack: seq<bool>)
    ensures var inner := if Guarded(f, parent) then stack + [f.Has(p)] else stack;
            Select(p, Footer(f, parent) + rest, inner) == Select(p, rest, stack)
  {
    if Guarded(f, parent) {
      var inner := stack + [f.Has(p)];
      assert inner[..|inner| - 1] == stack;
      assert (Footer(f, parent) + rest)[1..] == rest;
    } else {
      assert Footer(f, parent) + rest == rest;
    }
  }

  lemma SelectDefine(p: Platform, d: Definition, rest: seq<Line>, stack: seq<bool>)
    ensures Select(p, [Define(d)] + rest, stack) ==
            Join(Left(if AllTrue(stack) then [d] else []), Select(p, rest, stack))
  {
    assert ([Define(d)] + rest)[1..] == rest;
  }

  /** Below an item on `p` there is one whose flags name no platform: its guard is blank. */
  predicate Stranded(p: Platform, flags: Platforms, item: MenuItem)
    decreases item
  {
    flags.Has(p) && (item.platforms.Nowhere() || AnyStranded(p, item.platforms, item.children))
  }

  predicate AnyStranded(p: Platform, flags: Platforms, items: seq<MenuItem>)
    decreases items
  {
    flags.Has(p) && items != [] && (Stranded(p, flags, items[0]) || AnyStranded(p, flags, items[1..]))
  }

  /** What is left of an item whose parent exists on `p`. */
  function Kept(p: Platform, parent: string, flags: Platforms, item: MenuItem): Selection {
    if Stranded(p, flags, item) then Malformed else Left(Flat(p, parent, item))
  }

  function AllKept(p: Platform, parent: string, flags: Platforms, items: seq<MenuItem>): Selection {
    if AnyStranded(p, flags, items) then Malformed else Left(AllFlat(p, parent, items))
  }

  lemma JoinInTurn(a: Selection, b: Selection, c: Selection)
    ensures Join(Join(a, b), c) == Join(a, Join(b, c))
    ensures Join(Left([]), a) == a
  {
    if a.Left? && b.Left? && c.Left? {
      assert a.defs + b.defs + c.defs == a.defs + (b.defs + c.defs);
    }
    assert a.Left? ==> [] + a.defs == a.defs;
  }

  /** The guards of an item leave its definitions exactly where the item exists, and fail exactly
      where one below it is stranded. */
  lemma {:induction false} GuardsResolve(p: Platform, parent: string, flags: Platforms, item: MenuItem,
                                         rest: seq<Line>, stack: seq<bool>)
    requires Flagged(item, flags) && Resolves(item) && AllResolve(item.children)
    requires AllTrue(stack) ==> flags.Has(p)
    ensures Select(p, Generate(parent, flags, item).1 + rest, stack) ==
            Join(if AllTrue(stack) then Kept(p, parent, flags, item) else Left([]), Select(p, rest, stack))
    decreases item, 1
  {
    var f := item.platforms;
    var inner := if Guarded(f, flags) then stack + [f.Has(p)] else stack;
    var d, kids, tail := DefinitionOf(parent, item), KidLines(item), Footer(f, flags) + rest;
    GenerateParts(parent, flags, item, rest);
    SelectHeader(p, f, flags, [Define(d)] + (kids + tail), stack);
    SelectDefine(p, d, kids + tail, inner);
    KidGuardsResolve(p, item, tail, inner);
    SelectFooter(p, f, flags, rest, stack);
    JoinInTurn(Left([d]), KidsKept(p, item), Select(p, rest, stack));
    JoinInTurn(Select(p, rest, stack), Left([]), Left([]));
    hide Select, Generate, KidLines, AllTrue;
  }

  function KidLines(item: MenuItem): seq<Line> {
    if item.kind.Submenu? then GenerateChildren(item.name, item.platforms, item.children) else []
  }

  function KidDefinitions(p: Platform, item: MenuItem): seq<Definition> {
    if item.kind.Submenu? then AllFlat(p, item.name, item.children) else []
  }

  function KidsKept(p: Platform, item: MenuItem): Selection {
    if AnyStranded(p, item.platforms, item.children) then Malformed else Left(KidDefinitions(p, item))
  }

  lemma GenerateParts(parent: string, flags: Platforms, item: MenuItem, rest: seq<Line>)
    requires Resolves(item)
    ensures var f := item.platforms;
            Generate(parent, flags, item).1 + rest ==
            Header(f, flags) + ([Define(DefinitionOf(parent, item))] + (KidLines(item) + (Footer(f, flags) + rest)))
  {
  }

  lemma {:induction false} KidGuardsResolve(p: Platform, item: MenuItem, rest: seq<Line>, stack: seq<bool>)
    requires AllFlagged(item.children, item.platforms) && AllResolve(item.children)
    requires !item.kind.Submenu? ==> item.children == []
    requires AllTrue(stack) ==> item.platforms.Has(p)
    ensures Select(p, KidLines(item) + rest, stack) ==
            Join(if AllTrue(stack) then KidsKept(p, item) else Left([]), Select(p, rest, stack))
    decreases item, 0
  {
    if item.kind.Submenu? {
      AllGuardsResolve(p, item.name, item.platforms, item.children, rest, stack);
    } else {
      assert KidLines(item) + rest == rest;
      JoinInTurn(Select(p, rest, stack), Left([]), Left([]));
    }
  }

  lemma {:induction false} AllGuardsResolve(p: Platform, parent: string, flags: Platforms, items: seq<MenuItem>,
                                            rest: seq<Line>, stack: seq<bool>)
    requires AllFlagged(items, flags) && AllResolve(items)
    requires AllTrue(stack) ==> flags.Has(p)
    ensures Select(p, GenerateChildren(parent, flags, items) + rest, stack) ==
            Join(if AllTrue(stack) then AllKept(p, parent, flags, items) else Left([]), Select(p, rest, stack))
    decreases items, 0
  {
    if items == [] {
      assert GenerateChildren(parent, flags, items) + rest == rest;
      JoinInTurn(Select(p, rest, stack), Left([]), Left([]));
    } else {
      var first, more := Generate(parent, flags, items[0]).1, GenerateChildren(parent, flags, items[1..]);
      assert GenerateChildren(parent, flags, items) + rest == first + (more + rest);
      GuardsResolve(p, parent, flags, items[0], more + rest, stack);
      AllGuardsResolve(p, parent, flags, items[1..], rest, stack);
      JoinInTurn(Kept(p, parent, flags, items[0]), AllKept(p, parent, flags, items[1..]), Select(p, rest, stack));
      JoinInTurn(Select(p, rest, stack), Left([]), Left([]));
      hide Select, Generate, GenerateChildren;
    }
  }

  // ---- Nesting ----

  predicate NoneUnder(defs: seq<Definition>, name: string) {
    forall d :: d in defs ==> d.parent != name
  }

  lemma {:induction false} OthersBuildNothing(p: Platform, a: seq<Definition>, b: seq<Definition>, name: string)
    requires NoneUnder(a, name)
    ensures Build(p, a + b, name) == Build(p, b, name)
  {
    if a == [] {
      assert a + b == b;
    } else {
      assert (a + b)[1..] == a[1..] + b;
      OthersBuildNothing(p, a[1..], b, name);
    }
  }

  /** Definitions go under the menu itself or a submenu in it. */
  lemma {:induction false} FlatParents(p: Platform, parent: string, item: MenuItem, d: Definition)
    requires d in Flat(p, parent, item)
    ensures d.parent == parent || d.parent in SubmenuNames(item, p)
    decreases item
  {
    if item.kind.Submenu? && d != DefinitionOf(parent, item) {
      AllFlatParents(p, item.name, item.children, d);
    }
  }

  lemma {:induction false} AllFlatParents(p: Platform, parent: string, items: seq<MenuItem>, d: Definition)
    requires d in AllFlat(p, parent, items)
    ensures d.parent == parent || d.parent in AllSubmenuNames(items, p)
    decreases items
  {
    if d in Flat(p, parent, items[0]) {
      FlatParents(p, parent, items[0], d);
    } else {
      AllFlatParents(p, parent, items[1..], d);
    }
  }

  predicate Apart(a: seq<string>, b: seq<string>) { forall n :: n in a ==> n !in b }

  lemma DistinctParts(a: seq<string>, b: seq<string>)
    requires Distinct(a + b)
    ensures Distinct(a) && Distinct(b) && Apart(a, b)
  {
    assert forall i :: 0 <= i < |a| ==> (a + b)[i] == a[i];
    assert forall j :: 0 <= j < |b| ==> (a + b)[|a| + j] == b[j];
  }

  lemma InBoth(a: seq<string>, b: seq<string>)
    ensures forall n :: n in a + b <==> n in a || n in b
  {
  }

  /** No definition in `defs` goes under a menu named in `names`. */
  predicate Outside(defs: seq<Definition>, names: seq<string>) {
    forall d :: d in defs ==> d.parent !in names
  }

  lemma NothingUnder(p: Platform, defs: seq<Definition>, name: string)
    requires NoneUnder(defs, name)
    ensures Build(p, defs, name) == []
  {
    OthersBuildNothing(p, defs, [], name);
    assert defs + [] == defs;
  }

  /** What follows in the text goes under no submenu of `item`. */
  lemma RestIsOutside(p: Platform, parent: string, item: MenuItem, more: seq<MenuItem>, post: seq<Definition>)
    requires var (a, b) := (SubmenuNames(item, p), AllSubmenuNames(more, p));
             Distinct(a + b) && parent !in a + b && Outside(post, a + b)
    ensures Outside(AllFlat(p, parent, more) + post, SubmenuNames(item, p))
  {
    var a, b := SubmenuNames(item, p), AllSubmenuNames(more, p);
    DistinctParts(a, b);
    forall d | d in AllFlat(p, parent, more) + post ensures d.parent !in a {
      if d in AllFlat(p, parent, more) {
        AllFlatParents(p, parent, more, d);
      }
    }
  }

  /** The children of a submenu go under no other menu around. */
  lemma KidsAreElsewhere(p: Platform, parent: string, item: MenuItem)
    requires item.platforms.Has(p) && item.kind.Submenu? && parent !in SubmenuNames(item, p)
    ensures NoneUnder(AllFlat(p, item.name, item.children), parent)
  {
    forall d | d in AllFlat(p, item.name, item.children) ensures d.parent != parent {
      AllFlatParents(p, item.name, item.children, d);
    }
  }

  /** The definitions of an item build what the simulator shows for it. */
  lemma {:induction false} FlatBuilds(p: Platform, parent: string, item: MenuItem, post: seq<Definition>)
    requires Resolves(item) && AllResolve(item.children)
    requires var names := SubmenuNames(item, p);
             Distinct(names) && parent !in names && Outside(post, names)
    ensures var s := Simulate(p, item);
            s.Shows? && Build(p, Flat(p, parent, item) + post, parent) == s.menu + Build(p, post, parent)
    decreases item, 1
  {
    if !item.platforms.Has(p) {
      assert Flat(p, parent, item) + post == post;
    } else {
      var d, kids := DefinitionOf(parent, item), KidDefinitions(p, item);
      assert Flat(p, parent, item) + post == [d] + (kids + post);
      assert ([d] + (kids + post))[1..] == kids + post;
      if item.kind.Submenu? {
        SubmenuBuilds(p, parent, item, post);
      } else {
        assert kids + post == post;
      }
    }
  }

  lemma {:induction false} SubmenuBuilds(p: Platform, parent: string, item: MenuItem, post: seq<Definition>)
    requires item.platforms.Has(p) && item.kind.Submenu? && AllResolve(item.children)
    requires var names := SubmenuNames(item, p);
             Distinct(names) && parent !in names && Outside(post, names)
    ensures var (s, kids) := (SimulateAll(p, item.children), AllFlat(p, item.name, item.children));
            && s.Shows? && Build(p, kids + post, item.name) == s.menu
            && Build(p, kids + post, parent) == Build(p, post, parent)
    decreases item, 0
  {
    var names := AllSubmenuNames(item.children, p);
    assert SubmenuNames(item, p) == [item.name] + names;
    DistinctParts([item.name], names);
    InBoth([item.name], names);
    AllFlatBuild(p, item.name, item.children, post);
    NothingUnder(p, post, item.name);
    KidsAreElsewhere(p, parent, item);
    OthersBuildNothing(p, AllFlat(p, item.name, item.children), post, parent);
  }

  /** The conditions of `AllFlatBuild` for the first item and for the others. */
  lemma SplitConditions(p: Platform, parent: string, items: seq<MenuItem>, post: seq<Definition>)
    requires items != []
    requires var names := AllSubmenuNames(items, p);
             Distinct(names) && parent !in names && Outside(post, names)
    ensures var (a, b) := (SubmenuNames(items[0], p), AllSubmenuNames(items[1..], p));
            && Distinct(a) && parent !in a && Outside(AllFlat(p, parent, items[1..]) + post, a)
            && Distinct(b) && parent !in b && Outside(post, b)
  {
    var a, b := SubmenuNames(items[0], p), AllSubmenuNames(items[1..], p);
    DistinctParts(a, b);
    InBoth(a, b);
    RestIsOutside(p, parent, items[0], items[1..], post);
  }

  lemma {:induction false} AllFlatBuild(p: Platform, parent: string, items: seq<MenuItem>, post: seq<Definition>)
    requires AllResolve(items)
    requires var names := AllSubmenuNames(items, p);
             Distinct(names) && parent !in names && Outside(post, names)
    ensures var s := SimulateAll(p, items);
            s.Shows? && Build(p, AllFlat(p, parent, items) + post, parent) == s.menu + Build(p, post, parent)
    decreases items, 0
  {
    if items == [] {
      assert AllFlat(p, parent, items) + post == post;
    } else {
      var first, rest := Flat(p, parent, items[0]), AllFlat(p, parent, items[1..]);
      SplitConditions(p, parent, items, post);
      hide Distinct, Outside, Flat, SubmenuNames, Simulate, Build;
      assert AllFlat(p, parent, items) + post == first + (rest + post);
      FlatBuilds(p, parent, items[0], rest + post);
      AllFlatBuild(p, parent, items[1..], post);
      Regroup(Simulate(p, items[0]).menu, SimulateAll(p, items[1..]).menu, Build(p, post, parent));
    }
  }

  lemma Regroup<T>(a: seq<T>, b: seq<T>, c: seq<T>)
    ensures a + (b + c) == (a + b) + c
  {
  }

  // ---- The generator agrees with the simulator ----

  lemma {:induction false} TopIsChildren(items: seq<MenuItem>)
    requires AllResolve(items)
    ensures GenerateTop(items) == (true, GenerateChildren("root", ALL_PLATFORMS, items))
  {
    if items != [] {
      TopIsChildren(items[1..]);
    }
  }

  const NO_NAMES: Names := Names({}, {}, {})

  /** For every menu that the parser accepts and whose references exist, and on each platform:
      the generated source passes the preprocessor exactly unless an item there has one below it
      that names no platform; and then it builds exactly the menu of the simulator. */
  lemma GeneratorAgreesWithSimulator(es: seq<Element>, valid: string -> bool, p: Platform)
    ensures var r := ParseItems(es, ALL_PLATFORMS, NO_NAMES, valid);
            r.Parsed? && AllResolve(r.value) ==>
              var (ok, lines) := GenerateTop(r.value);
              var left := Select(p, lines, []);
              && ok
              && (left.Left? <==> !AnyStranded(p, ALL_PLATFORMS, r.value))
              && (left.Left? ==> SimulateAll(p, r.value) == Shows(Build(p, left.defs, "root")))
  {
    var r := ParseItems(es, ALL_PLATFORMS, NO_NAMES, valid);
    if r.Parsed? && AllResolve(r.value) {
      AllParsedAreFlagged(es, ALL_PLATFORMS, NO_NAMES, valid);
      AllParsedNames(es, ALL_PLATFORMS, NO_NAMES, valid, p);
      TopIsChildren(r.value);
      hide ParseItems, GenerateTop;
      var lines := GenerateChildren("root", ALL_PLATFORMS, r.value);
      AllGuardsResolve(p, "root", ALL_PLATFORMS, r.value, [], []);
      assert lines + [] == lines;
      assert AllFlat(p, "root", r.value) + [] == AllFlat(p, "root", r.value);
      AllFlatBuild(p, "root", r.value, []);
    }
  }

  // ---- Items on no platform ----

  /** Every item names a platform. */
  predicate AllPlaced(items: seq<MenuItem>)
    decreases items
  {
    items == [] || (!items[0].platforms.Nowhere() && AllPlaced(items[0].children) && AllPlaced(items[1..]))
  }

  lemma {:induction false} PlacedIsNotStranded(p: Platform, flags: Platforms, items: seq<MenuItem>)
    requires AllPlaced(items)
    ensures !AnyStranded(p, flags, items)
    decreases items
  {
    if items != [] {
      PlacedIsNotStranded(p, items[0].platforms, items[0].children);
      PlacedIsNotStranded(p, flags, items[1..]);
    }
  }

  lemma {:induction false} UnplacedIsStranded(flags: Platforms, items: seq<MenuItem>) returns (p: Platform)
    requires AllFlagged(items, flags) && !AllPlaced(items) && !flags.Nowhere()
    ensures AnyStranded(p, flags, items)
    decreases items
  {
    if items[0].platforms.Nowhere() {
      p := if flags.mac then Mac else if flags.windows then Windows else Linux;
    } else if !AllPlaced(items[0].children) {
      p := UnplacedIsStranded(items[0].platforms, items[0].children);
    } else {
      p := UnplacedIsStranded(flags, items[1..]);
    }
  }

  /** The generated source passes the preprocessor on all platforms exactly when every item names
      one of them: when no path to an item excludes all three. */
  lemma ConditionsExistExactly(es: seq<Element>, valid: string -> bool)
    ensures var r := ParseItems(es, ALL_PLATFORMS, NO_NAMES, valid);
            r.Parsed? && AllResolve(r.value) ==>
              ((forall p :: Select(p, GenerateTop(r.value).1, []).Left?) <==> AllPlaced(r.value))
  {
    var r := ParseItems(es, ALL_PLATFORMS, NO_NAMES, valid);
    if r.Parsed? && AllResolve(r.value) {
      AllParsedAreFlagged(es, ALL_PLATFORMS, NO_NAMES, valid);
      forall p ensures Select(p, GenerateTop(r.value).1, []).Left? <==> !AnyStranded(p, ALL_PLATFORMS, r.value) {
        GeneratorAgreesWithSimulator(es, valid, p);
      }
      hide ParseItems, GenerateTop, Select, AnyStranded;
      if AllPlaced(r.value) {
        forall p ensures !AnyStranded(p, ALL_PLATFORMS, r.value) {
          PlacedIsNotStranded(p, ALL_PLATFORMS, r.value);
        }
      } else {
        var p := UnplacedIsStranded(ALL_PLATFORMS, r.value);
        assert !Select(p, GenerateTop(r.value).1, []).Left?;
      }
    }
  }

  /** An item without references. */
  function Plain(tag: string, name: string, platform: string, children: seq<Element>): Element {
    Element(tag, name, platform, true, Look(Undefined, Undefined, Undefined), 0, 0, children)
  }

  /** Each of three nested elements excludes one platform. */
  function NestedExclusions(): seq<Element> {
    [Plain("submenu", "a", "no-mac", [Plain("submenu", "b", "no-windows", [Plain("item", "c", "no-linux", [])])])]
  }

  function ParsedExclusions(): seq<MenuItem> {
    var look := Look(Undefined, Undefined, Undefined);
    var c := MenuItem(Item, "c", Platforms(false, false, false, true), look, 0, 0, []);
    var b := MenuItem(Submenu, "b", Platforms(false, false, true, true), look, 0, 0, [c]);
    [MenuItem(Submenu, "a", NO_MAC, look, 0, 0, [b])]
  }

  lemma OneIsParsed(e: Element, parent: Platforms, names: Names, valid: string -> bool)
    ensures ParseItems([e], parent, names, valid) ==
            match ParseItem(e, parent, names, valid)
            case Invalid => Invalid
            case Parsed(item, more) => Parsed([item], more)
  {
    assert [e][1..] == [];
    var r := ParseItem(e, parent, names, valid);
    assert r.Parsed? ==> [r.value] + [] == [r.value];
  }

  lemma ExclusionsParse(valid: string -> bool)
    requires valid("a") && valid("b") && valid("c")
    ensures var r := ParseItems(NestedExclusions(), ALL_PLATFORMS, NO_NAMES, valid);
            r.Parsed? && r.value == ParsedExclusions()
  {
    var c := Plain("item", "c", "no-linux", []);
    var b := Plain("submenu", "b", "no-windows", [c]);
    var a := Plain("submenu", "a", "no-mac", [b]);
    var names1 := NO_NAMES.With("a", NO_MAC);
    var names2 := names1.With("b", Platforms(false, false, true, true));
    OneIsParsed(c, Platforms(false, false, true, true), names2, valid);
    OneIsParsed(b, NO_MAC, names1, valid);
    OneIsParsed(a, ALL_PLATFORMS, NO_NAMES, valid);
  }

  lemma ExclusionsStrand()
    ensures AllResolve(ParsedExclusions())
    ensures AnyStranded(Linux, ALL_PLATFORMS, ParsedExclusions())
    ensures !AnyStranded(Mac, ALL_PLATFORMS, ParsedExclusions())
    ensures !AnyStranded(Windows, ALL_PLATFORMS, ParsedExclusions())
  {
    var items := ParsedExclusions();
    var kids := items[0].children;
    var c := kids[0].children;
    assert c[0].children == [] && c[1..] == [] && kids[1..] == [] && items[1..] == [];
    assert AnyStranded(Linux, kids[0].platforms, c);
    assert AnyStranded(Linux, items[0].platforms, kids);
    assert !AnyStranded(Windows, kids[0].platforms, c);
    assert !AnyStranded(Windows, items[0].platforms, kids);
    assert AllResolve(c) && AllResolve(kids);
  }

  /** The parser accepts them, as flags of no platform remain; the guard of the innermost is
      blank, which is an error where its parent exists: on Linux. */
  lemma NestedExclusionsFail(valid: string -> bool)
    requires valid("a") && valid("b") && valid("c")
    ensures var r := ParseItems(NestedExclusions(), ALL_PLATFORMS, NO_NAMES, valid);
            && r.Parsed? && AllResolve(r.value)
            && Select(Linux, GenerateTop(r.value).1, []).Malformed?
            && Select(Mac, GenerateTop(r.value).1, []).Left?
            && Select(Windows, GenerateTop(r.value).1, []).Left?
  {
    ExclusionsParse(valid);
    ExclusionsStrand();
    GeneratorAgreesWithSimulator(NestedExclusions(), valid, Mac);
    GeneratorAgreesWithSimulator(NestedExclusions(), valid, Windows);
    GeneratorAgreesWithSimulator(NestedExclusions(), valid, Linux);
    hide *;
  }

  // ---- When references do not exist ----

  /** The generator reports success exactly when the labels of the outermost items exist. */
  lemma {:induction false} SuccessLooksAtTheTopOnly(items: seq<MenuItem>)
    ensures GenerateTop(items).0 <==> forall i :: 0 <= i < |items| ==> Resolves(items[i])
  {
    if items != [] {
      SuccessLooksAtTheTopOnly(items[1..]);
      if Resolves(items[0]) {
        forall i | 0 <= i < |items| && (forall j :: 0 <= j < |items| - 1 ==> Resolves(items[1..][j]))
          ensures Resolves(items[i])
        {
          assert i > 0 ==> items[i] == items[1..][i - 1];
        }
        forall j | 0 <= j < |items| - 1 && (forall i :: 0 <= i < |items| ==> Resolves(items[i]))
          ensures Resolves(items[1..][j])
        {
          assert items[1..][j] == items[j + 1];
        }
      }
    }
  }

  /** So a missing title inside a submenu makes the simulator fail, while the generator reports
      success and leaves the item out. */
  lemma NestedFailureGoesUnnoticed()
    ensures var plain := Look(Known("File"), Undefined, Undefined);
            var broken := MenuItem(Item, "open", ALL_PLATFORMS, Look(Dangling, Undefined, Undefined), 0, 0, []);
            var menu := [MenuItem(Submenu, "file", ALL_PLATFORMS, plain, 0, 0, [broken])];
            var (ok, lines) := GenerateTop(menu);
            && ok && SimulateAll(Mac, menu) == Fails
            && Select(Mac, lines, []).Left?
            && Build(Mac, Select(Mac, lines, []).defs, "root") == [ShownSubmenu(plain, [])]
  {
    var plain := Look(Known("File"), Undefined, Undefined);
    var broken := MenuItem(Item, "open", ALL_PLATFORMS, Look(Dangling, Undefined, Undefined), 0, 0, []);
    var file := MenuItem(Submenu, "file", ALL_PLATFORMS, plain, 0, 0, [broken]);
    assert Header(ALL_PLATFORMS, ALL_PLATFORMS) == [] == Footer(ALL_PLATFORMS, ALL_PLATFORMS);
    assert Generate("file", ALL_PLATFORMS, broken) == (false, []);
    assert [broken][1..] == [];
    assert GenerateChildren("file", ALL_PLATFORMS, [broken]) == [];
    var d := Define(DefinitionOf("root", file));
    assert Generate("root", ALL_PLATFORMS, file).1 == [d];
    assert [file][1..] == [] && GenerateTop([]) == (true, []);
    assert [d] + [] == [d];
    assert GenerateTop([file]) == (true, [d]);
    assert [d][1..] == [];
    assert Select(Mac, [d], []) == Left([DefinitionOf("root", file)]);
    assert [DefinitionOf("root", file)][1..] == [];
    assert Simulate(Mac, broken) == Fails;
    assert SimulateAll(Mac, [broken]) == Fails;
  }
}
