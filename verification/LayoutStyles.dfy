/** Layout styles of src/sapp: how they are defined (sapp_document_layout.cpp.h), and the two
    look-ups along their inheritance (sapp_resources.cpp.h), which must agree on event handlers. */
module LayoutStyles {

  datatype Option<T> = None | Some(value: T)

  datatype Attribute = Attribute(name: string, value: string)

  /** A style as an object: its place in `Document.styles` is its identity, and those it inherits
      are given by theirs. */
  datatype Style = Style(name: string, attributes: seq<Attribute>, inherits: seq<nat>)

  /** All style objects in the order of their making, and the table of the current ones. */
  datatype Document = Document(styles: seq<Style>, table: map<string, nat>)

  datatype StyleElement = StyleElement(theme: string, name: string, override': bool,
                                       inherit: seq<string>, attributes: seq<Attribute>)

  // ---- Definition ----

  function GlobalStyleName(fileNamespace: string, theme: string, name: string): string {
    var s := if theme != "" then theme + ":" + name else name;
    if fileNamespace != "" then fileNamespace + "/" + s else s
  }

  function Entry(table: map<string, nat>, name: string): Option<nat> {
    if name in table then Some(table[name]) else None
  }

  function OrElse<T>(a: Option<T>, b: Option<T>): Option<T> { if a.Some? then a else b }

  /** In the file's own names first, with the theme first. */
  function LookupLayoutStyle(table: map<string, nat>, fileNamespace: string, theme: string, name: string): Option<nat> {
    OrElse(if fileNamespace != "" && theme != "" then Entry(table, GlobalStyleName(fileNamespace, theme, name))
           else None,
    OrElse(if fileNamespace != "" then Entry(table, GlobalStyleName(fileNamespace, "", name)) else None,
    OrElse(if theme != "" then Entry(table, GlobalStyleName("", theme, name)) else None,
           Entry(table, name))))
  }

  /** The inherited styles; none when one of them is not found. */
  function Inherited(table: map<string, nat>, fileNamespace: string, theme: string,
                     names: seq<string>): Option<seq<nat>> {
    if names == [] then Some([])
    else
      match LookupLayoutStyle(table, fileNamespace, theme, names[0])
      case None => None
      case Some(i) =>
        match Inherited(table, fileNamespace, theme, names[1..])
        case None => None
        case Some(rest) => Some([i] + rest)
  }

  function ThemeOf(e: StyleElement, parentTheme: string): string { if e.theme == "" then parentTheme else e.theme }

  function ParseLayoutStyle(d: Document, fileNamespace: string, parentTheme: string,
                            e: StyleElement): Option<Document> {
    var theme := ThemeOf(e, parentTheme);
    var name := GlobalStyleName(fileNamespace, theme, e.name);
    if e.name == "" then None
    else if !e.override' && name in d.table then None
    else
      match Inherited(d.table, fileNamespace, theme, e.inherit)
      case None => None
      case Some(inherits) =>
        Some(Document(d.styles + [Style(name, e.attributes, inherits)], d.table[name := |d.styles|]))
  }

  datatype Definition = Definition(fileNamespace: string, parentTheme: string, element: StyleElement)

  /** A definition that fails changes nothing. */
  function Defined(d: Document, def: Definition): Document {
    match ParseLayoutStyle(d, def.fileNamespace, def.parentTheme, def.element)
    case None => d
    case Some(u) => u
  }

  function AllDefined(d: Document, defs: seq<Definition>): Document {
    if defs == [] then d else Defined(AllDefined(d, defs[..|defs| - 1]), defs[|defs| - 1])
  }

  // ---- Which style a name means ----

  /** The names that are looked for, the nearest first: with namespace and theme, with the namespace,
      with the theme, as it stands. */
  function Candidates(fileNamespace: string, theme: string, name: string): seq<string> {
    (if fileNamespace != "" && theme != "" then [fileNamespace + "/" + theme + ":" + name] else [])
    + (if fileNamespace != "" then [fileNamespace + "/" + name] else [])
    + (if theme != "" then [theme + ":" + name] else [])
    + [name]
  }

  /** The `k`-th of `names` is known, and none before it. */
  predicate FirstKnown(table: map<string, nat>, names: seq<string>, k: nat) {
    k < |names| && names[k] in table && forall j :: 0 <= j < k ==> names[j] !in table
  }

  predicate NoneKnown(table: map<string, nat>, names: seq<string>) {
    forall k :: 0 <= k < |names| ==> names[k] !in table
  }

  /** `r` is the style of the first candidate that is known, if any. */
  predicate Nearest(table: map<string, nat>, names: seq<string>, r: Option<nat>) {
    match r
    case None => NoneKnown(table, names)
    case Some(i) => exists k :: 0 <= k < |names| && FirstKnown(table, names, k) && i == table[names[k]]
  }

  lemma GlobalNames(fileNamespace: string, theme: string, name: string)
    ensures fileNamespace != "" && theme != "" ==>
              GlobalStyleName(fileNamespace, theme, name) == fileNamespace + "/" + theme + ":" + name
    ensures fileNamespace != "" ==> GlobalStyleName(fileNamespace, "", name) == fileNamespace + "/" + name
    ensures theme != "" ==> GlobalStyleName("", theme, name) == theme + ":" + name
    ensures GlobalStyleName("", "", name) == name
  {
    assert fileNamespace + "/" + (theme + ":" + name) == fileNamespace + "/" + theme + ":" + name;
  }

  lemma NearestInFront(table: map<string, nat>, c: seq<string>, rest: seq<string>, r: Option<nat>)
    requires Nearest(table, rest, r) && |c| <= 1
    ensures Nearest(table, c + rest, if c == [] then r else OrElse(Entry(table, c[0]), r))
  {
    var names := c + rest;
    if c == [] {
      assert names == rest;
    } else {
      assert forall k :: 0 < k < |names| ==> names[k] == rest[k - 1];
      if c[0] in table {
        assert FirstKnown(table, names, 0);
      } else if r.Some? {
        var k :| 0 <= k < |rest| && FirstKnown(table, rest, k) && r.value == table[rest[k]];
        assert FirstKnown(table, names, k + 1) && names[k + 1] == rest[k];
      }
    }
  }

  /** A look-up finds the nearest candidate. */
  lemma LookupFindsNearest(table: map<string, nat>, fileNamespace: string, theme: string, name: string)
    ensures Nearest(table, Candidates(fileNamespace, theme, name),
                    LookupLayoutStyle(table, fileNamespace, theme, name))
  {
    GlobalNames(fileNamespace, theme, name);
    hide GlobalStyleName, Nearest;
    var c1 := if fileNamespace != "" && theme != "" then [fileNamespace + "/" + theme + ":" + name] else [];
    var c2 := if fileNamespace != "" then [fileNamespace + "/" + name] else [];
    var c3 := if theme != "" then [theme + ":" + name] else [];
    var r4 := Entry(table, name);
    OneCandidate(table, name);
    NearestInFront(table, c3, [name], r4);
    var r3 := if c3 == [] then r4 else OrElse(Entry(table, c3[0]), r4);
    NearestInFront(table, c2, c3 + [name], r3);
    var r2 := if c2 == [] then r3 else OrElse(Entry(table, c2[0]), r3);
    NearestInFront(table, c1, c2 + (c3 + [name]), r2);
    assert Candidates(fileNamespace, theme, name) == c1 + (c2 + (c3 + [name]));
  }

  lemma OneCandidate(table: map<string, nat>, name: string)
    ensures Nearest(table, [name], Entry(table, name))
  {
    if name in table {
      assert FirstKnown(table, [name], 0);
    }
  }

  lemma {:induction false} InheritedExactly(table: map<string, nat>, fileNamespace: string, theme: string,
                                            names: seq<string>)
    ensures var r := Inherited(table, fileNamespace, theme, names);
            && (r.Some? <==> forall k :: 0 <= k < |names| ==>
                  !NoneKnown(table, Candidates(fileNamespace, theme, names[k])))
            && (r.Some? ==> |r.value| == |names| && forall k :: 0 <= k < |names| ==>
                  Nearest(table, Candidates(fileNamespace, theme, names[k]), Some(r.value[k])))
  {
    if names != [] {
      LookupFindsNearest(table, fileNamespace, theme, names[0]);
      InheritedExactly(table, fileNamespace, theme, names[1..]);
      hide LookupLayoutStyle, Candidates;
      assert forall k :: 0 < k < |names| ==> names[k] == names[1..][k - 1];
      var r := Inherited(table, fileNamespace, theme, names);
      if r.Some? {
        KnownIsNotNone(table, Candidates(fileNamespace, theme, names[0]), r.value[0]);
      }
    }
  }

  lemma KnownIsNotNone(table: map<string, nat>, names: seq<string>, i: nat)
    requires Nearest(table, names, Some(i))
    ensures !NoneKnown(table, names)
  {
  }

  /** A definition, below its own theme or else that of the elements around it, succeeds exactly when it
      has a name that is new or overrides, and every style it inherits is known; it adds one style, with
      the nearest ones by those names, and makes it the style of its name. */
  lemma DefinesExactly(d: Document, fileNamespace: string, parentTheme: string, e: StyleElement)
    ensures var theme := if e.theme == "" then parentTheme else e.theme;
            var name := Candidates(fileNamespace, theme, e.name)[0];
            var r := ParseLayoutStyle(d, fileNamespace, parentTheme, e);
            && (r.Some? <==>
                  && e.name != "" && (e.override' || name !in d.table)
                  && forall k :: 0 <= k < |e.inherit| ==>
                       !NoneKnown(d.table, Candidates(fileNamespace, theme, e.inherit[k])))
            && (r.Some? ==>
                  && |r.value.styles| == |d.styles| + 1 && r.value.styles[..|d.styles|] == d.styles
                  && r.value.table == d.table[name := |d.styles|]
                  && var s := r.value.styles[|d.styles|];
                  && s.name == name && s.attributes == e.attributes && |s.inherits| == |e.inherit|
                  && forall k :: 0 <= k < |e.inherit| ==>
                       Nearest(d.table, Candidates(fileNamespace, theme, e.inherit[k]), Some(s.inherits[k])))
  {
    var theme := ThemeOf(e, parentTheme);
    GlobalNames(fileNamespace, theme, e.name);
    GlobalNames(fileNamespace, "", e.name);
    InheritedExactly(d.table, fileNamespace, theme, e.inherit);
    hide Inherited, Nearest, NoneKnown;
  }

  // ---- The inheritance has no cycle ----

  predicate Below(l: seq<nat>, n: nat) { forall k :: 0 <= k < |l| ==> l[k] < n }

  /** Every style inherits from older ones only. */
  predicate Ordered(styles: seq<Style>) {
    forall i :: 0 <= i < |styles| ==> Below(styles[i].inherits, i)
  }

  predicate Sound(d: Document) {
    && Ordered(d.styles)
    && forall n :: n in d.table ==> d.table[n] < |d.styles| && d.styles[d.table[n]].name == n
  }

  lemma {:induction false} InheritedAreOlder(d: Document, fileNamespace: string, theme: string, names: seq<string>)
    requires Sound(d)
    ensures var r := Inherited(d.table, fileNamespace, theme, names);
            r.Some? ==> Below(r.value, |d.styles|)
  {
    if names != [] {
      InheritedAreOlder(d, fileNamespace, theme, names[1..]);
    }
  }

  lemma DefinitionKeepsSound(d: Document, def: Definition)
    requires Sound(d)
    ensures Sound(Defined(d, def)) && d.styles <= Defined(d, def).styles
  {
    var theme := ThemeOf(def.element, def.parentTheme);
    InheritedAreOlder(d, def.fileNamespace, theme, def.element.inherit);
    hide Inherited, LookupLayoutStyle, GlobalStyleName;
  }

  /** Whatever is defined, and overridden, and fails: no style inherits itself, directly or
      not, since each inherits from older ones; and the table knows every name's latest style. */
  lemma {:induction false} InheritanceIsAcyclic(defs: seq<Definition>)
    ensures Sound(AllDefined(Document([], map[]), defs))
  {
    if defs != [] {
      InheritanceIsAcyclic(defs[..|defs| - 1]);
      DefinitionKeepsSound(AllDefined(Document([], map[]), defs[..|defs| - 1]), defs[|defs| - 1]);
    }
  }

  /** The table knows the latest style of every name. */
  predicate Latest(d: Document) {
    forall i :: 0 <= i < |d.styles| ==> d.styles[i].name in d.table && i <= d.table[d.styles[i].name]
  }

  /** So a definition that overrides is what later look-ups find. */
  lemma {:induction false} LatestWins(defs: seq<Definition>)
    ensures Latest(AllDefined(Document([], map[]), defs))
  {
    if defs != [] {
      var d, def := AllDefined(Document([], map[]), defs[..|defs| - 1]), defs[|defs| - 1];
      LatestWins(defs[..|defs| - 1]);
      InheritanceIsAcyclic(defs[..|defs| - 1]);
      hide Inherited, GlobalStyleName;
      assert forall i :: 0 <= i < |d.styles| ==> d.table[d.styles[i].name] < |d.styles|;
    }
  }

  // ---- Look-up of one attribute ----

  function Own(attributes: seq<Attribute>, name: string): Option<string> {
    if attributes == [] then None
    else if attributes[0].name == name then Some(attributes[0].value)
    else Own(attributes[1..], name)
  }

  /** The element's own attribute, or that of the last style that has it. */
  function GetXmlAttribute(styles: seq<Style>, attributes: seq<Attribute>, inherits: seq<nat>, n: nat,
                           name: string): Option<string>
    requires Ordered(styles) && Below(inherits, n) && n <= |styles|
    decreases n, |inherits| + 1
  {
    OrElse(Own(attributes, name), SearchStyles(styles, inherits, n, name))
  }

  /** Through the styles from the last to the first. */
  function SearchStyles(styles: seq<Style>, inherits: seq<nat>, n: nat, name: string): Option<string>
    requires Ordered(styles) && Below(inherits, n) && n <= |styles|
    decreases n, |inherits|
  {
    if inherits == [] then None
    else
      var i := inherits[|inherits| - 1];
      OrElse(GetXmlAttribute(styles, styles[i].attributes, styles[i].inherits, i, name),
             SearchStyles(styles, inherits[..|inherits| - 1], n, name))
  }

  /** What style `i` has for an attribute, itself or by inheritance. */
  function StyleHas(styles: seq<Style>, i: nat, name: string): Option<string>
    requires Ordered(styles) && i < |styles|
  {
    GetXmlAttribute(styles, styles[i].attributes, styles[i].inherits, i, name)
  }

  predicate LastToHave(styles: seq<Style>, inherits: seq<nat>, name: string, k: nat)
    requires Ordered(styles) && Below(inherits, |styles|) && k < |inherits|
  {
    && StyleHas(styles, inherits[k], name).Some?
    && forall j :: k < j < |inherits| ==> StyleHas(styles, inherits[j], name).None?
  }

  /** The search finds the value of the last style that has one, if any has. */
  lemma {:induction false} SearchFindsLast(styles: seq<Style>, inherits: seq<nat>, n: nat, name: string)
    requires Ordered(styles) && Below(inherits, n) && n <= |styles|
    ensures Below(inherits, |styles|)
    ensures match SearchStyles(styles, inherits, n, name)
            case None => forall k :: 0 <= k < |inherits| ==> StyleHas(styles, inherits[k], name).None?
            case Some(v) => exists k :: 0 <= k < |inherits| && LastToHave(styles, inherits, name, k)
                                        && StyleHas(styles, inherits[k], name) == Some(v)
  {
    if inherits != [] {
      var last, before := |inherits| - 1, inherits[..|inherits| - 1];
      SearchFindsLast(styles, before, n, name);
      hide GetXmlAttribute;
      if StyleHas(styles, inherits[last], name).Some? {
        assert LastToHave(styles, inherits, name, last);
      } else if SearchStyles(styles, before, n, name).Some? {
        var k :| 0 <= k < |before| && LastToHave(styles, before, name, k)
                 && StyleHas(styles, before[k], name) == SearchStyles(styles, before, n, name);
        assert forall j :: 0 <= j < last ==> before[j] == inherits[j];
        assert LastToHave(styles, inherits, name, k);
      }
    }
  }

  predicate IsFirst(attributes: seq<Attribute>, name: string, k: nat) {
    k < |attributes| && attributes[k].name == name && forall j :: 0 <= j < k ==> attributes[j].name != name
  }

  /** An element's own attribute comes before all styles. */
  lemma {:induction false} OwnComesFirst(styles: seq<Style>, attributes: seq<Attribute>, inherits: seq<nat>, n: nat,
                                         name: string, k: nat)
    requires Ordered(styles) && Below(inherits, n) && n <= |styles| && IsFirst(attributes, name, k)
    ensures GetXmlAttribute(styles, attributes, inherits, n, name) == Some(attributes[k].value)
  {
    if k > 0 {
      assert attributes[1..][k - 1] == attributes[k];
      assert forall j :: 0 <= j < k - 1 ==> attributes[1..][j] == attributes[j + 1];
      OwnComesFirst(styles, attributes[1..], inherits, n, name, k - 1);
    }
  }

  // ---- The map of event handlers ----

  const PREFIX: string := "on"

  predicate IsEvent(name: string) { PREFIX <= name }

  function PutEvents(attributes: seq<Attribute>, m: map<string, string>): map<string, string> {
    if attributes == [] then m
    else
      var a := attributes[0];
      PutEvents(attributes[1..], if IsEvent(a.name) then m[a.name[|PREFIX|..] := a.value] else m)
  }

  /** The styles from the first to the last, then the element's own attributes. */
  function EventMapping(styles: seq<Style>, attributes: seq<Attribute>, inherits: seq<nat>, n: nat,
                        m: map<string, string>): map<string, string>
    requires Ordered(styles) && Below(inherits, n) && n <= |styles|
    decreases n, |inherits| + 1
  {
    PutEvents(attributes, StyleEvents(styles, inherits, n, m))
  }

  function StyleEvents(styles: seq<Style>, inherits: seq<nat>, n: nat, m: map<string, string>): map<string, string>
    requires Ordered(styles) && Below(inherits, n) && n <= |styles|
    decreases n, |inherits|
  {
    if inherits == [] then m
    else
      var i := inherits[|inherits| - 1];
      EventMapping(styles, styles[i].attributes, styles[i].inherits, i,
                   StyleEvents(styles, inherits[..|inherits| - 1], n, m))
  }

  // ---- They agree ----

  /** An element has each attribute once. */
  predicate Unambiguous(attributes: seq<Attribute>) {
    forall i, j :: 0 <= i < j < |attributes| ==> attributes[i].name != attributes[j].name
  }

  predicate AllUnambiguous(styles: seq<Style>) {
    forall i :: 0 <= i < |styles| ==> Unambiguous(styles[i].attributes)
  }

  function At(m: map<string, string>, key: string): Option<string> { if key in m then Some(m[key]) else None }

  lemma {:induction false} AbsentIsNone(attributes: seq<Attribute>, name: string)
    requires forall i :: 0 <= i < |attributes| ==> attributes[i].name != name
    ensures Own(attributes, name) == None
  {
    if attributes != [] {
      AbsentIsNone(attributes[1..], name);
    }
  }

  lemma {:induction false} PutEventsAgrees(attributes: seq<Attribute>, m: map<string, string>, event: string)
    requires Unambiguous(attributes)
    ensures At(PutEvents(attributes, m), event) == OrElse(Own(attributes, PREFIX + event), At(m, event))
  {
    if attributes != [] {
      var a := attributes[0];
      PutEventsAgrees(attributes[1..], if IsEvent(a.name) then m[a.name[|PREFIX|..] := a.value] else m, event);
      if a.name == PREFIX + event {
        AbsentIsNone(attributes[1..], a.name);
        assert a.name[|PREFIX|..] == event;
      } else if IsEvent(a.name) {
        assert a.name == PREFIX + a.name[|PREFIX|..];
      }
    }
  }

  lemma OrElseAgain<T>(a: Option<T>, b: Option<T>, c: Option<T>)
    ensures OrElse(a, OrElse(b, c)) == OrElse(OrElse(a, b), c)
  {
  }

  lemma {:induction false} MappingAgrees(styles: seq<Style>, attributes: seq<Attribute>, inherits: seq<nat>, n: nat,
                                         m: map<string, string>, event: string)
    requires Ordered(styles) && AllUnambiguous(styles) && Unambiguous(attributes) && Below(inherits, n) && n <= |styles|
    ensures At(EventMapping(styles, attributes, inherits, n, m), event) ==
            OrElse(GetXmlAttribute(styles, attributes, inherits, n, PREFIX + event), At(m, event))
    decreases n, |inherits| + 1
  {
    PutEventsAgrees(attributes, StyleEvents(styles, inherits, n, m), event);
    StylesAgree(styles, inherits, n, m, event);
    OrElseAgain(Own(attributes, PREFIX + event), SearchStyles(styles, inherits, n, PREFIX + event), At(m, event));
  }

  lemma {:induction false} StylesAgree(styles: seq<Style>, inherits: seq<nat>, n: nat, m: map<string, string>,
                                       event: string)
    requires Ordered(styles) && AllUnambiguous(styles) && Below(inherits, n) && n <= |styles|
    ensures At(StyleEvents(styles, inherits, n, m), event) ==
            OrElse(SearchStyles(styles, inherits, n, PREFIX + event), At(m, event))
    decreases n, |inherits|
  {
    if inherits != [] {
      var i := inherits[|inherits| - 1];
      var before := inherits[..|inherits| - 1];
      StylesAgree(styles, before, n, m, event);
      MappingAgrees(styles, styles[i].attributes, styles[i].inherits, i, StyleEvents(styles, before, n, m), event);
      OrElseAgain(GetXmlAttribute(styles, styles[i].attributes, styles[i].inherits, i, PREFIX + event),
                  SearchStyles(styles, before, n, PREFIX + event), At(m, event));
    }
  }

  /** For an element with styles of a document made by any definitions, and for every event: the
      map that is filled from the first style on, overriding forward, has what the search from the
      last style back finds. */
  lemma EventsAgreeWithAttributes(defs: seq<Definition>, attributes: seq<Attribute>, inherits: seq<nat>, event: string)
    ensures var d := AllDefined(Document([], map[]), defs);
            && Sound(d)
            && (AllUnambiguous(d.styles) && Unambiguous(attributes) && Below(inherits, |d.styles|) ==>
                  At(EventMapping(d.styles, attributes, inherits, |d.styles|, map[]), event) ==
                  GetXmlAttribute(d.styles, attributes, inherits, |d.styles|, PREFIX + event))
  {
    InheritanceIsAcyclic(defs);
    var d := AllDefined(Document([], map[]), defs);
    if AllUnambiguous(d.styles) && Unambiguous(attributes) && Below(inherits, |d.styles|) {
      MappingAgrees(d.styles, attributes, inherits, |d.styles|, map[], event);
    }
  }

  // ---- The objects ----

  class StyleTable {
    var styles: seq<Style>
    var layoutStyles: map<string, nat>

    function State(): Document
      reads this
    {
      Document(styles, layoutStyles)
    }

    constructor ()
      ensures State() == Document([], map[])
    {
      styles, layoutStyles := [], map[];
    }

    method ParseStyle(fileNamespace: string, parentTheme: string, e: StyleElement) returns (ok: bool)
      modifies this
      ensures var r := ParseLayoutStyle(old(State()), fileNamespace, parentTheme, e);
              ok == r.Some? && State() == if ok then r.value else old(State())
    {
      hide LookupLayoutStyle, GlobalStyleName;
      var theme := ThemeOf(e, parentTheme);
      if e.name == "" {
        return false;
      }
      var name := GlobalStyleName(fileNamespace, theme, e.name);
      if !e.override' && name in layoutStyles {
        return false;
      }
      var inherits: seq<nat> := [];
      var i := 0;
      assert e.inherit[0..] == e.inherit;
      NothingInFront(Inherited(layoutStyles, fileNamespace, theme, e.inherit));
      while i < |e.inherit|
        invariant i <= |e.inherit| && State() == old(State())
        invariant Inherited(layoutStyles, fileNamespace, theme, e.inherit) ==
                  InFront(inherits, Inherited(layoutStyles, fileNamespace, theme, e.inherit[i..]))
      {
        assert e.inherit[i..][0] == e.inherit[i] && e.inherit[i..][1..] == e.inherit[i + 1..];
        var style := LookupLayoutStyle(layoutStyles, fileNamespace, theme, e.inherit[i]);
        if style.None? {
          return false;
        }
        OneMoreInFront(inherits, style.value, Inherited(layoutStyles, fileNamespace, theme, e.inherit[i + 1..]));
        inherits := inherits + [style.value];
        i := i + 1;
      }
      assert e.inherit[i..] == [] && inherits + [] == inherits;
      layoutStyles := layoutStyles[name := |styles|];
      styles := styles + [Style(name, e.attributes, inherits)];
      ok := true;
    }

    static function InFront(l: seq<nat>, r: Option<seq<nat>>): Option<seq<nat>> {
      if r.None? then None else Some(l + r.value)
    }

    static lemma NothingInFront(r: Option<seq<nat>>)
      ensures InFront([], r) == r
    {
      assert r.Some? ==> [] + r.value == r.value;
    }

    static lemma OneMoreInFront(l: seq<nat>, i: nat, r: Option<seq<nat>>)
      ensures InFront(l, InFront([i], r)) == InFront(l + [i], r)
    {
      assert r.Some? ==> l + ([i] + r.value) == (l + [i]) + r.value;
    }
  }

  /** The map that an element and its styles fill. */
  class EventMap {
    var mapping: map<string, string>

    constructor ()
      ensures mapping == map[]
    {
      mapping := map[];
    }

    method GetEventMapping(styles: seq<Style>, attributes: seq<Attribute>, inherits: seq<nat>, n: nat)
      requires Ordered(styles) && Below(inherits, n) && n <= |styles|
      modifies this
      ensures mapping == EventMapping(styles, attributes, inherits, n, old(mapping))
      decreases n
    {
      var k := 0;
      while k < |inherits|
        invariant k <= |inherits|
        invariant mapping == StyleEvents(styles, inherits[..k], n, old(mapping))
      {
        assert inherits[..k + 1][..k] == inherits[..k];
        var i := inherits[k];
        GetEventMapping(styles, styles[i].attributes, styles[i].inherits, i);
        k := k + 1;
      }
      assert inherits[..k] == inherits;
      var j := 0;
      assert attributes[0..] == attributes;
      ghost var m := mapping;
      while j < |attributes|
        invariant j <= |attributes|
        invariant PutEvents(attributes, m) == PutEvents(attributes[j..], mapping)
      {
        assert attributes[j..][0] == attributes[j] && attributes[j..][1..] == attributes[j + 1..];
        var a := attributes[j];
        if IsEvent(a.name) {
          mapping := mapping[a.name[|PREFIX|..] := a.value];
        }
        j := j + 1;
      }
      assert attributes[j..] == [];
    }
  }
}
