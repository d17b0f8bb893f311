/**
  `ClassGenerator`: a class declaration with its namespace line, `extends`
  and `implements` clauses, trait uses, and the constants, properties and
  methods blocks, each indented one level.
*/
module ClassGenerator {
  import opened Wrappers
  import opened Php
  import opened Util
  import ConstantGenerator
  import PropertyGenerator
  import MethodGenerator

  /** The generator's fields; every list keeps insertion order. */
  datatype Class = Class(
    name: string,
    namespace: Option<string>,
    parent: Option<string>,
    interfaces: seq<string>,
    traits: seq<string>,
    constants: seq<ConstantGenerator.Constant>,
    properties: seq<PropertyGenerator.Property>,
    methods: seq<MethodGenerator.Method>)

  /** `new ClassGenerator($name)` and `create`. */
  function Create(name: string): (c: Class)
    ensures c.name == name && c.namespace.None? && c.parent.None?
    ensures c.interfaces == [] && c.traits == []
    ensures c.constants == [] && c.properties == [] && c.methods == []
  {
    Class(name, None, None, [], [], [], [], [])
  }

  /** `setNamespace($namespace)`: the last call wins. */
  function SetNamespace(c: Class, namespace: string): (r: Class)
    ensures r.namespace == Some(namespace)
    ensures r == c.(namespace := Some(namespace))
  {
    c.(namespace := Some(namespace))
  }

  /** `extends($parent)`: the last call wins. */
  function Extends(c: Class, parent: string): (r: Class)
    ensures r.parent == Some(parent)
    ensures r == c.(parent := Some(parent))
  {
    c.(parent := Some(parent))
  }

  /** `implements($interface)`: appends; duplicates are kept. */
  function Implements(c: Class, interface: string): (r: Class)
    ensures |r.interfaces| == |c.interfaces| + 1
    ensures r.interfaces[..|c.interfaces|] == c.interfaces && r.interfaces[|c.interfaces|] == interface
    ensures r == c.(interfaces := r.interfaces)
  {
    c.(interfaces := c.interfaces + [interface])
  }

  /** `use($trait)`: appends; duplicates are kept. */
  function Use(c: Class, traitName: string): (r: Class)
    ensures |r.traits| == |c.traits| + 1
    ensures r.traits[..|c.traits|] == c.traits && r.traits[|c.traits|] == traitName
    ensures r == c.(traits := r.traits)
  {
    c.(traits := c.traits + [traitName])
  }

  /** `addConstant($constant)`. */
  function AddConstant(c: Class, k: ConstantGenerator.Constant): (r: Class)
    ensures |r.constants| == |c.constants| + 1
    ensures r.constants[..|c.constants|] == c.constants && r.constants[|c.constants|] == k
    ensures r == c.(constants := r.constants)
  {
    c.(constants := c.constants + [k])
  }

  /** The methods `addProperty` adds: a public getter, then a public
      setter, each only when its flag is set. */
  function Accessors(p: PropertyGenerator.Property, getter: bool, setter: bool): (ms: seq<MethodGenerator.Method>)
    ensures |ms| == (if getter then 1 else 0) + (if setter then 1 else 0)
    ensures getter ==> ms[0] == MethodGenerator.CreateGetter(p, MethodGenerator.Public)
    ensures setter ==> ms[|ms| - 1] == MethodGenerator.CreateSetter(p, MethodGenerator.Public)
  {
    (if getter then [MethodGenerator.CreateGetter(p, MethodGenerator.Public)] else [])
      + (if setter then [MethodGenerator.CreateSetter(p, MethodGenerator.Public)] else [])
  }

  /** `addProperty($property, $getter, $setter)`; both flags default to
      true. */
  function AddProperty(c: Class, p: PropertyGenerator.Property, getter: bool := true, setter: bool := true): (r: Class)
    ensures r.properties == c.properties + [p]
    ensures r.methods == c.methods + Accessors(p, getter, setter)
    ensures r == c.(properties := r.properties, methods := r.methods)
  {
    c.(properties := c.properties + [p], methods := c.methods + Accessors(p, getter, setter))
  }

  /** `addMethod($method)`. */
  function AddMethod(c: Class, m: MethodGenerator.Method): (r: Class)
    ensures |r.methods| == |c.methods| + 1
    ensures r.methods[..|c.methods|] == c.methods && r.methods[|c.methods|] == m
    ensures r == c.(methods := r.methods)
  {
    c.(methods := c.methods + [m])
  }

  // ---------------------------------------------------------------------
  // getPhp
  // ---------------------------------------------------------------------

  /** Every method has a body. */
  predicate AllBodiesSet(ms: seq<MethodGenerator.Method>) {
    forall i :: 0 <= i < |ms| ==> ms[i].body.Some?
  }

  /** The renders of `items` in order, or the error of the first one that
      fails: `array_map` renders front to back and the first exception
      ends the whole render. */
  function RenderAll<T>(items: seq<T>, render: T -> Result<string, RenderError>): (r: Result<seq<string>, RenderError>)
    ensures r.Ok? <==> forall i :: 0 <= i < |items| ==> render(items[i]).Ok?
    ensures r.Ok? ==> |r.value| == |items|
                      && forall i :: 0 <= i < |items| ==> render(items[i]) == Ok(r.value[i])
    ensures r.Err? ==> exists i :: 0 <= i < |items| && render(items[i]) == Err(r.error)
                                   && forall j :: 0 <= j < i ==> render(items[j]).Ok?
    decreases |items|
  {
    if |items| == 0 then Ok([])
    else
      var first :- render(items[0]);
      var rest :- RenderAll(items[1..], render);
      Ok([first] + rest)
  }

  /** `$method->getPhp()` for each method, in order. */
  function RenderMethods(cfg: Config, ms: seq<MethodGenerator.Method>): Result<seq<string>, RenderError> {
    RenderAll(ms, (m: MethodGenerator.Method) => MethodGenerator.Render(cfg, m))
  }

  /** The methods render exactly when all have bodies; otherwise the error
      names the first method without one. */
  lemma {:induction false} RenderMethodsIff(cfg: Config, ms: seq<MethodGenerator.Method>)
    ensures var r := RenderMethods(cfg, ms);
            && (r.Ok? <==> AllBodiesSet(ms))
            && (r.Err? ==> exists i :: 0 <= i < |ms| && ms[i].body.None? && AllBodiesSet(ms[..i])
                                       && r.error == NullMethodBody(ms[i].name))
  {
    var render := (m: MethodGenerator.Method) => MethodGenerator.Render(cfg, m);
    var r := RenderAll(ms, render);
    if r.Err? {
      var i :| 0 <= i < |ms| && render(ms[i]) == Err(r.error)
               && forall j :: 0 <= j < i ==> render(ms[j]).Ok?;
      assert AllBodiesSet(ms[..i]) by {
        forall j | 0 <= j < i ensures ms[..i][j].body.Some? {
          assert render(ms[j]).Ok?;
        }
      }
    } else {
      assert AllBodiesSet(ms) by {
        forall j | 0 <= j < |ms| ensures ms[j].body.Some? {
          assert render(ms[j]).Ok?;
        }
      }
    }
  }

  /** `namespace N;` and a blank line, when a namespace is set. */
  function NamespaceLine(namespace: Option<string>): string {
    match namespace
    case None => ""
    case Some(n) => "namespace " + n + ";" + "\n\n"
  }

  /** `extends P `, when a parent is set. */
  function ExtendsClause(parent: Option<string>): string {
    match parent
    case None => ""
    case Some(p) => "extends " + p + " "
  }

  /** `implements A, B `, when there are interfaces. */
  function ImplementsClause(interfaces: seq<string>): string {
    if |interfaces| == 0 then "" else "implements " + Join(interfaces, ", ") + " "
  }

  /** `class NAME ` and the clauses after it. */
  function ClassLine(c: Class): string {
    "class " + c.name + " " + ExtendsClause(c.parent) + ImplementsClause(c.interfaces)
  }

  /** Everything before the line break in front of the opening brace. */
  function Header(c: Class): string {
    NamespaceLine(c.namespace) + ClassLine(c)
  }

  /** The indented `use A, B; ` line and a blank line, when there are traits
      (the trailing space is the source's). */
  function TraitBlock(cfg: Config, traits: seq<string>): string {
    if |traits| == 0 then "" else Indent(cfg, "use " + Join(traits, ", ") + "; ", 1) + "\n\n"
  }

  /** `Util::group($this->constants)`: one per line. */
  function ConstantGroup(cfg: Config, constants: seq<ConstantGenerator.Constant>): string {
    Group(constants, (k: ConstantGenerator.Constant) => ConstantGenerator.Render(cfg, k), "\n")
  }

  /** `Util::group($this->properties)`: one per line. */
  function PropertyGroup(cfg: Config, properties: seq<PropertyGenerator.Property>): string {
    Group(properties, (p: PropertyGenerator.Property) => PropertyGenerator.Render(cfg, p), "\n")
  }

  /** The three member blocks, each indented and followed by a blank line. */
  function MemberBlocks(cfg: Config, c: Class, methodTexts: seq<string>): string {
    Indent(cfg, ConstantGroup(cfg, c.constants), 1) + "\n\n"
      + Indent(cfg, PropertyGroup(cfg, c.properties), 1) + "\n\n"
      + Indent(cfg, Join(methodTexts, "\n\n"), 1) + "\n\n"
  }

  /** What follows the opening brace before `rtrim`. */
  function Inside(cfg: Config, c: Class, methodTexts: seq<string>): string {
    "\n" + TraitBlock(cfg, c.traits) + MemberBlocks(cfg, c, methodTexts)
  }

  /** The text `rtrim` is applied to. */
  function Untrimmed(cfg: Config, c: Class, methodTexts: seq<string>): string {
    Header(c) + "\n{" + Inside(cfg, c, methodTexts)
  }

  /** `getPhp()`: the header, `{`, the blocks, then `rtrim` and the closing
      brace.  A method without a body makes the whole render fail. */
  function Render(cfg: Config, c: Class): (r: Result<string, RenderError>)
    ensures r.Err? ==> RenderMethods(cfg, c.methods).Err? && r.error == RenderMethods(cfg, c.methods).error
    ensures r.Ok? ==> |r.value| >= 3 && r.value[|r.value| - 3..] == "\n}\n"
  {
    var texts :- RenderMethods(cfg, c.methods);
    var trimmed := RTrim(Untrimmed(cfg, c, texts));
    ConcatParts(trimmed, "\n}\n");
    Ok(trimmed + "\n}\n")
  }

  /** The class renders exactly when all its methods have bodies, and
      otherwise fails naming the first method without one. */
  lemma {:induction false} RenderFailsIff(cfg: Config, c: Class)
    ensures Render(cfg, c).Ok? <==> AllBodiesSet(c.methods)
    ensures Render(cfg, c).Err? ==>
              exists i :: 0 <= i < |c.methods| && c.methods[i].body.None? && AllBodiesSet(c.methods[..i])
                          && Render(cfg, c).error == NullMethodBody(c.methods[i].name)
  {
    RenderMethodsIff(cfg, c.methods);
  }

  /** `rtrim` never reaches back past the opening brace: the render is the
      header, `{`, the trimmed inside, and the closing brace. */
  lemma {:induction false} RenderShape(cfg: Config, c: Class)
    requires AllBodiesSet(c.methods)
    ensures var texts := RenderMethods(cfg, c.methods).value;
            Render(cfg, c) == Ok(Header(c) + "\n{" + RTrim(Inside(cfg, c, texts)) + "\n}\n")
  {
    RenderMethodsIff(cfg, c.methods);
    var texts := RenderMethods(cfg, c.methods).value;
    BraceShields(Header(c), Inside(cfg, c, texts));
  }

  /** `rtrim` stops at the opening brace. */
  lemma {:induction false} BraceShields(h: string, inside: string)
    ensures RTrim(h + "\n{" + inside) == h + "\n{" + RTrim(inside)
  {
    var hb := h + "\n{";
    assert hb[|hb| - 1] == '{';
    RTrimAfterKeptByte(hb, inside);
  }

  /** The byte before the closing `\n}\n` is never one `rtrim` strips
      (space, tab, newline, carriage return, NUL or vertical tab): `rtrim`
      removed those, and the opening brace stops it. */
  lemma {:induction false} ContentBeforeClosingBrace(cfg: Config, c: Class)
    requires AllBodiesSet(c.methods)
    ensures var s := Render(cfg, c).value; |s| >= 4 && !IsTrimChar(s[|s| - 4])
  {
    RenderOk(cfg, c);
    var texts := RenderMethods(cfg, c.methods).value;
    TrimmedBeforeBrace(Untrimmed(cfg, c, texts), Header(c), Inside(cfg, c, texts));
  }

  lemma {:induction false} RenderOk(cfg: Config, c: Class)
    requires AllBodiesSet(c.methods)
    ensures RenderMethods(cfg, c.methods).Ok?
    ensures Render(cfg, c) == Ok(RTrim(Untrimmed(cfg, c, RenderMethods(cfg, c.methods).value)) + "\n}\n")
  {
    RenderMethodsIff(cfg, c.methods);
  }

  lemma {:induction false} TrimmedBeforeBrace(u: string, h: string, inside: string)
    requires u == h + "\n{" + inside
    ensures var s := RTrim(u) + "\n}\n"; |s| >= 4 && !IsTrimChar(s[|s| - 4])
  {
    BraceShields(h, inside);
    KeptBeforeBrace(h, inside);
  }

  lemma {:induction false} KeptBeforeBrace(h: string, inside: string)
    ensures var s := h + "\n{" + RTrim(inside) + "\n}\n"; |s| >= 4 && !IsTrimChar(s[|s| - 4])
  {
    var t := RTrim(inside);
    var s := h + "\n{" + t + "\n}\n";
    if |t| > 0 {
      assert s[|s| - 4] == t[|t| - 1];
    } else {
      assert s[|s| - 4] == '{';
    }
  }

  /** The render begins with the header. */
  lemma {:induction false} RenderStartsWithHeader(cfg: Config, c: Class)
    requires AllBodiesSet(c.methods)
    ensures var s := Render(cfg, c).value;
            |s| >= |Header(c)| + 5 && s[..|Header(c)|] == Header(c)
  {
    RenderShape(cfg, c);
    var texts := RenderMethods(cfg, c.methods).value;
    HeadOfFrame(Header(c), RTrim(Inside(cfg, c, texts)));
  }

  lemma {:induction false} HeadOfFrame(h: string, t: string)
    ensures var s := h + "\n{" + t + "\n}\n";
            |s| >= |h| + 5 && s[..|h|] == h
  {
    ConcatAssoc(h, "\n{", t);
    ConcatAssoc(h, "\n{" + t, "\n}\n");
    ConcatParts(h, "\n{" + t + "\n}\n");
  }

  /** The header starts with `namespace ` when a namespace is set, and
      with `class ` otherwise. */
  lemma {:induction false} HeaderStart(c: Class)
    ensures var h := Header(c);
            && (c.namespace.Some? ==> |h| >= 10 && h[..10] == "namespace ")
            && (c.namespace.None? ==> |h| >= 7 && h[..6] == "class ")
  {
    var h := Header(c);
    var ns := NamespaceLine(c.namespace);
    var cl := ClassLine(c);
    assert cl[..6] == "class ";
    if c.namespace.Some? {
      assert ns[..10] == "namespace ";
      assert h[..10] == ns[..10];
    } else {
      assert h == cl;
    }
  }

  /** The render starts with `namespace ` exactly when a namespace is set,
      and otherwise with `class `. */
  lemma {:induction false} NamespaceIff(cfg: Config, c: Class)
    requires AllBodiesSet(c.methods)
    ensures var s := Render(cfg, c).value;
            && |s| >= 10
            && (c.namespace.Some? <==> s[..10] == "namespace ")
            && (c.namespace.None? ==> s[..6] == "class ")
  {
    RenderStartsWithHeader(cfg, c);
    HeaderStart(c);
    StartFromHeader(Render(cfg, c).value, Header(c), c.namespace.Some?);
  }

  /** `NamespaceIff` on plain strings. */
  lemma {:induction false} StartFromHeader(s: string, h: string, hasNamespace: bool)
    requires |s| >= |h| + 5 && s[..|h|] == h
    requires hasNamespace ==> |h| >= 10 && h[..10] == "namespace "
    requires !hasNamespace ==> |h| >= 7 && h[..6] == "class "
    ensures |s| >= 10
    ensures hasNamespace <==> s[..10] == "namespace "
    ensures !hasNamespace ==> s[..6] == "class "
  {
    if hasNamespace {
      assert s[..10] == h[..10];
    } else {
      assert s[..6] == h[..6];
      assert s[..10][0] == s[0] == 'c';
    }
  }

  /** A rendered class starts with `n` (of `namespace`) or `c` (of
      `class`). */
  lemma {:induction false} FirstByte(cfg: Config, c: Class)
    ensures var r := Render(cfg, c);
            r.Ok? ==> |r.value| > 0 && (r.value[0] == 'n' || r.value[0] == 'c')
  {
    RenderFailsIff(cfg, c);
    if AllBodiesSet(c.methods) {
      NamespaceIff(cfg, c);
      var t := Render(cfg, c).value;
      if c.namespace.Some? {
        FirstOfPrefix(t, "namespace ");
      } else {
        FirstOfPrefix(t, "class ");
      }
    }
  }

  lemma {:induction false} FirstOfPrefix(t: string, p: string)
    requires 0 < |p| <= |t| && t[..|p|] == p
    ensures t[0] == p[0]
  {
    assert t[..|p|][0] == t[0];
  }

  /** The blocks of a fresh class are only line breaks once indented with
      a whitespace indent unit. */
  lemma {:induction false} EmptyInside(cfg: Config, c: Class)
    requires IsWhitespace(cfg.indentChar)
    requires c.traits == [] && c.constants == [] && c.properties == []
    ensures Inside(cfg, c, []) == "\n\n\n\n\n\n\n"
  {
    IndentOfEmpty(cfg, 1);
    var k := Indent(cfg, ConstantGroup(cfg, c.constants), 1);
    var p := Indent(cfg, PropertyGroup(cfg, c.properties), 1);
    var m := Indent(cfg, Join([], "\n\n"), 1);
    assert k == "" by { assert ConstantGroup(cfg, c.constants) == ""; }
    assert p == "" by { assert PropertyGroup(cfg, c.properties) == ""; }
    assert m == "" by { assert Join([], "\n\n") == ""; }
    assert MemberBlocks(cfg, c, []) == k + "\n\n" + p + "\n\n" + m + "\n\n";
    EmptyBlocksText(k, p, m, TraitBlock(cfg, c.traits));
  }

  lemma {:induction false} EmptyBlocksText(k: string, p: string, m: string, t: string)
    requires k == "" && p == "" && m == "" && t == ""
    ensures "\n" + t + (k + "\n\n" + p + "\n\n" + m + "\n\n") == "\n\n\n\n\n\n\n"
  {
  }

  /** A fresh class with a whitespace indent unit renders as an empty body. */
  lemma {:induction false} EmptyClass(cfg: Config, name: string)
    requires IsWhitespace(cfg.indentChar)
    ensures Render(cfg, Create(name)) == Ok("class " + name + " \n{\n}\n")
  {
    var c := Create(name);
    RenderShape(cfg, c);
    assert RenderMethods(cfg, []).value == [];
    EmptyInside(cfg, c);
    HeaderOfFresh(name);
    EmptyFrame(Header(c), Inside(cfg, c, []));
    FreshFrame(name);
  }

  lemma {:induction false} HeaderOfFresh(name: string)
    ensures Header(Create(name)) == "class " + name + " "
  {
  }

  lemma {:induction false} FreshFrame(name: string)
    ensures ("class " + name + " ") + "\n{\n}\n" == "class " + name + " \n{\n}\n"
  {
  }

  /** With nothing but line breaks inside, `rtrim` leaves the header and the
      opening brace. */
  lemma {:induction false} EmptyFrame(h: string, inside: string)
    requires inside == "\n\n\n\n\n\n\n"
    ensures h + "\n{" + RTrim(inside) + "\n}\n" == h + "\n{\n}\n"
  {
    assert AllTrimChars(inside);
    RTrimUnique(inside, "", inside);
    ConcatAssoc(h, "\n{", "\n}\n");
  }

  /** `implements` keeps the interfaces in call order, separated by `, `. */
  lemma {:induction false} ImplementsOrder(c: Class, interface: string)
    ensures ImplementsClause(Implements(c, interface).interfaces)
         == if c.interfaces == [] then "implements " + interface + " "
            else "implements " + Join(c.interfaces, ", ") + ", " + interface + " "
  {
    if c.interfaces != [] {
      JoinAppend(c.interfaces, interface, ", ");
    } else {
      assert Implements(c, interface).interfaces == [interface];
    }
  }

  /** After `class NAME ` comes `extends P ` exactly when a parent is set,
      then the `implements` clause. */
  lemma {:induction false} ClassLineClauses(c: Class)
    ensures var cl := ClassLine(c); var k := 7 + |c.name|;
            && |cl| >= k && cl[..k] == "class " + c.name + " "
            && (c.parent.Some? ==> var e := "extends " + c.parent.value + " ";
                                   |cl| >= k + |e| && cl[k..k + |e|] == e
                                   && cl[k + |e|..] == ImplementsClause(c.interfaces))
            && (c.parent.None? ==> cl[k..] == ImplementsClause(c.interfaces))
  {
    var lead := "class " + c.name + " ";
    var e := ExtendsClause(c.parent);
    var im := ImplementsClause(c.interfaces);
    ConcatAssoc(lead, e, im);
    ConcatParts(lead, e + im);
    ConcatParts(e, im);
  }

  /** With trait names and an indent unit free of line breaks, the trait
      block is one indented `use` line followed by a blank line. */
  lemma {:induction false} TraitLine(cfg: Config, traits: seq<string>)
    requires |traits| > 0
    requires '\n' !in cfg.indentChar
    requires forall i :: 0 <= i < |traits| ==> '\n' !in traits[i]
    ensures TraitBlock(cfg, traits) == IndentPrefix(cfg, 1) + ("use " + Join(traits, ", ") + "; ") + "\n\n"
  {
    var line := "use " + Join(traits, ", ") + "; ";
    if '\n' in Join(traits, ", ") {
      JoinBytes(traits, ", ", '\n');
    }
    assert line[0] == 'u';
    IndentOfOneLine(cfg, line, 1);
  }

  /** `addProperty` with both flags adds the property once and two methods:
      the getter, then the setter. */
  lemma {:induction false} AddPropertyDefaults(c: Class, p: PropertyGenerator.Property)
    ensures var r := AddProperty(c, p, true, true);
            && |r.properties| == |c.properties| + 1
            && r.methods == c.methods + [MethodGenerator.CreateGetter(p, MethodGenerator.Public),
                                         MethodGenerator.CreateSetter(p, MethodGenerator.Public)]
  {
  }

  /** The accessors `addProperty` adds always have bodies, so they never
      make the class render fail. */
  lemma {:induction false} AddPropertyKeepsRenderable(cfg: Config, c: Class, p: PropertyGenerator.Property, getter: bool, setter: bool)
    ensures Render(cfg, AddProperty(c, p, getter, setter)).Ok? <==> Render(cfg, c).Ok?
  {
    var acc := Accessors(p, getter, setter);
    RenderFailsIff(cfg, c);
    RenderFailsIff(cfg, AddProperty(c, p, getter, setter));
    AccessorsHaveBodies(p, getter, setter);
    AllBodiesSetConcat(c.methods, acc);
  }

  lemma {:induction false} AccessorsHaveBodies(p: PropertyGenerator.Property, getter: bool, setter: bool)
    ensures AllBodiesSet(Accessors(p, getter, setter))
  {
    var acc := Accessors(p, getter, setter);
    forall i | 0 <= i < |acc| ensures acc[i].body.Some? {
      if getter && i == 0 {
      } else {
        assert setter && i == |acc| - 1;
      }
    }
  }

  lemma {:induction false} AllBodiesSetConcat(a: seq<MethodGenerator.Method>, b: seq<MethodGenerator.Method>)
    ensures AllBodiesSet(a + b) <==> AllBodiesSet(a) && AllBodiesSet(b)
  {
    if AllBodiesSet(a + b) {
      forall i | 0 <= i < |a| ensures a[i].body.Some? {
        assert (a + b)[i] == a[i];
      }
      forall i | 0 <= i < |b| ensures b[i].body.Some? {
        assert (a + b)[|a| + i] == b[i];
      }
    }
  }

  /** A bodiless method makes the class render fail with that method's
      name. */
  lemma {:induction false} AddMethodWithoutBody(cfg: Config, c: Class, name: string, visibility: string)
    requires AllBodiesSet(c.methods)
    ensures Render(cfg, AddMethod(c, MethodGenerator.Create(name, visibility))) == Err(NullMethodBody(name))
  {
    var m := MethodGenerator.Create(name, visibility);
    var r := AddMethod(c, m);
    RenderFailsIff(cfg, r);
    var e := Render(cfg, r);
    OnlyMissingBodyIsLast(c.methods, m);
    assert r.methods == c.methods + [m];
    assert !AllBodiesSet(c.methods + [m]);
  }

  /** Appended to methods that all have bodies, a bodiless method is the
      only one without a body. */
  lemma {:induction false} OnlyMissingBodyIsLast(ms: seq<MethodGenerator.Method>, m: MethodGenerator.Method)
    requires AllBodiesSet(ms) && m.body.None?
    ensures !AllBodiesSet(ms + [m])
    ensures forall i :: 0 <= i < |ms| + 1 && (ms + [m])[i].body.None? ==> (ms + [m])[i] == m
  {
    assert (ms + [m])[|ms|] == m;
    forall i | 0 <= i < |ms| ensures (ms + [m])[i] == ms[i] {
    }
  }

  // ---------------------------------------------------------------------
  // where the members land
  // ---------------------------------------------------------------------

  /** The render up to the line break in front of the constants block: the
      header and `{`, then the trait line and the blank line after it when
      there are traits. */
  function Front(cfg: Config, c: Class): string {
    if |c.traits| == 0 then Header(c) + "\n{"
    else Header(c) + "\n{\n" + Indent(cfg, "use " + Join(c.traits, ", ") + "; ", 1) + "\n"
  }

  /** The text `rtrim` works on, cut at the line break in front of each of
      the three blocks. */
  lemma {:induction false} UntrimmedCuts(cfg: Config, c: Class, texts: seq<string>)
    ensures var f := Front(cfg, c);
            var ic := Indent(cfg, ConstantGroup(cfg, c.constants), 1);
            var ip := Indent(cfg, PropertyGroup(cfg, c.properties), 1);
            var im := Indent(cfg, Join(texts, "\n\n"), 1);
            var u := Untrimmed(cfg, c, texts);
            && u == f + "\n" + ic + ("\n\n" + ip + "\n\n" + im + "\n\n")
            && u == (f + "\n" + ic + "\n") + "\n" + ip + ("\n\n" + im + "\n\n")
            && u == ((f + "\n" + ic + "\n") + "\n" + ip + "\n") + "\n" + im + "\n\n"
  {
    var h := Header(c);
    var tb := TraitBlock(cfg, c.traits);
    var mb := MemberBlocks(cfg, c, texts);
    if |c.traits| == 0 {
      FrontCutPlain(h);
    } else {
      FrontCutTraits(h, Indent(cfg, "use " + Join(c.traits, ", ") + "; ", 1));
    }
    InsideCut(h, tb, mb);
    BlockCuts(h + "\n{" + ("\n" + tb), Front(cfg, c), Indent(cfg, ConstantGroup(cfg, c.constants), 1),
              Indent(cfg, PropertyGroup(cfg, c.properties), 1), Indent(cfg, Join(texts, "\n\n"), 1));
  }

  lemma {:induction false} FrontCutPlain(h: string)
    ensures h + "\n{" + ("\n" + "") == (h + "\n{") + "\n"
  {
  }

  lemma {:induction false} FrontCutTraits(h: string, t: string)
    ensures h + "\n{" + ("\n" + (t + "\n\n")) == (h + "\n{\n" + t + "\n") + "\n"
  {
  }

  lemma {:induction false} InsideCut(h: string, tb: string, mb: string)
    ensures h + "\n{" + ("\n" + tb + mb) == (h + "\n{" + ("\n" + tb)) + mb
  {
  }

  lemma {:induction false} BlockCuts(g: string, f: string, ic: string, ip: string, im: string)
    requires g == f + "\n"
    ensures var u := g + (ic + "\n\n" + ip + "\n\n" + im + "\n\n");
            && u == f + "\n" + ic + ("\n\n" + ip + "\n\n" + im + "\n\n")
            && u == (f + "\n" + ic + "\n") + "\n" + ip + ("\n\n" + im + "\n\n")
            && u == ((f + "\n" + ic + "\n") + "\n" + ip + "\n") + "\n" + im + "\n\n"
  {
  }

  /** The lines of a text, a block and the line break after it. */
  lemma {:induction false} LinesThroughBlock(f: string, b: string)
    ensures Lines(f + "\n" + b + "\n") == Lines(f) + Lines(b) + [""]
  {
    assert f + "\n" + b + "\n" == f + "\n" + (b + "\n" + "");
    LinesOfConcat(f, b + "\n" + "");
    LinesOfConcat(b, "");
    assert Lines("") == [""];
    SeqAssoc(Lines(f), Lines(b), [""]);
  }

  /** A text that ends in `;` is not blank. */
  lemma {:induction false} SemicolonNotBlank(x: string)
    requires EndsWithByte(x, ';')
    ensures !IsWhitespace(x)
  {
  }

  /** Every item renders to one line that ends in `;`. */
  predicate OneLineStatements<T>(items: seq<T>, render: T -> string) {
    forall i :: 0 <= i < |items| ==> '\n' !in render(items[i]) && EndsWithByte(render(items[i]), ';')
  }

  /** A group of one-line renders ending in `;`, indented: one line per
      item, the indent unit in front of its render. */
  lemma {:induction false} IndentedGroup<T>(cfg: Config, items: seq<T>, render: T -> string)
    requires '\n' !in cfg.indentChar
    requires |items| > 0 && OneLineStatements(items, render)
    ensures Lines(Indent(cfg, Group(items, render, "\n"), 1)) == PrefixEach(Renders(items, render), IndentPrefix(cfg, 1))
  {
    var rs := Renders(items, render);
    forall i | 0 <= i < |rs| ensures '\n' !in rs[i] && !IsWhitespace(rs[i]) {
      SemicolonNotBlank(rs[i]);
    }
    IndentOfLines(cfg, rs, 1);
  }

  /** Lines that each end in `;`, joined and indented, inside the trimmed
      render: they come right after the lines of the text in front of
      them. */
  lemma {:induction false} GroupAt(cfg: Config, a: string, s: string, rs: seq<string>)
    requires '\n' !in cfg.indentChar
    requires |rs| > 0 && forall i :: 0 <= i < |rs| ==> '\n' !in rs[i] && EndsWithByte(rs[i], ';')
    requires |s| > 0 && s[0] == '\n'
    ensures LinesFrom(Lines(RTrim(a + "\n" + Indent(cfg, Join(rs, "\n"), 1) + s) + "\n}\n"),
                      |Lines(a)|, IndentPrefix(cfg, 1), rs)
  {
    var b := Indent(cfg, Join(rs, "\n"), 1);
    forall i | 0 <= i < |rs| ensures '\n' !in rs[i] && !IsWhitespace(rs[i]) {
      SemicolonNotBlank(rs[i]);
    }
    IndentOfLines(cfg, rs, 1);
    JoinEndsWith(rs, "\n", ';');
    IndentEndsWith(cfg, Join(rs, "\n"), 1, ';');
    var tail := TrimmedBlockLines(a, b, s);
    LinesFromConcat(Lines(a), Lines(b), tail, IndentPrefix(cfg, 1), rs);
  }

  /** Each constant's render, in order. */
  function ConstantTexts(cfg: Config, constants: seq<ConstantGenerator.Constant>): (r: seq<string>)
    ensures |r| == |constants|
    ensures forall i :: 0 <= i < |constants| ==> r[i] == ConstantGenerator.Render(cfg, constants[i])
  {
    Renders(constants, (k: ConstantGenerator.Constant) => ConstantGenerator.Render(cfg, k))
  }

  /** Each property's render, in order. */
  function PropertyTexts(cfg: Config, properties: seq<PropertyGenerator.Property>): (r: seq<string>)
    ensures |r| == |properties|
    ensures forall j :: 0 <= j < |properties| ==> r[j] == PropertyGenerator.Render(cfg, properties[j])
  {
    Renders(properties, (q: PropertyGenerator.Property) => PropertyGenerator.Render(cfg, q))
  }

  /** Each method's signature line, in order. */
  function Signatures(cfg: Config, ms: seq<MethodGenerator.Method>): (r: seq<string>)
    ensures |r| == |ms|
    ensures forall l :: 0 <= l < |ms| ==> r[l] == MethodGenerator.Signature(cfg, ms[l])
  {
    Renders(ms, (m: MethodGenerator.Method) => MethodGenerator.Signature(cfg, m))
  }

  /** Each rendered method starts with its signature line and spans more
      than one line. */
  lemma {:induction false} MethodTextsHeaded(cfg: Config, ms: seq<MethodGenerator.Method>)
    requires AllBodiesSet(ms)
    requires forall l :: 0 <= l < |ms| ==> '\n' !in MethodGenerator.Signature(cfg, ms[l])
    ensures RenderMethods(cfg, ms).Ok?
    ensures HeadedTexts(RenderMethods(cfg, ms).value, Signatures(cfg, ms))
  {
    RenderMethodsIff(cfg, ms);
    var texts := RenderMethods(cfg, ms).value;
    var sigs := Signatures(cfg, ms);
    forall l | 0 <= l < |texts|
      ensures |Lines(texts[l])| >= 2 && Lines(texts[l])[0] == sigs[l] && !IsWhitespace(sigs[l])
    {
      assert MethodGenerator.Render(cfg, ms[l]) == Ok(texts[l]);
      MethodGenerator.RenderFirstLine(cfg, ms[l]);
      MethodGenerator.SignatureNotBlank(cfg, ms[l]);
    }
  }

  /** The indented methods block ends in the last method's `}`. */
  lemma {:induction false} MethodsBlockEnds(cfg: Config, ms: seq<MethodGenerator.Method>)
    requires '\n' !in cfg.indentChar
    requires |ms| > 0 && AllBodiesSet(ms)
    ensures RenderMethods(cfg, ms).Ok?
    ensures EndsWithByte(Indent(cfg, Join(RenderMethods(cfg, ms).value, "\n\n"), 1), '}')
  {
    RenderMethodsIff(cfg, ms);
    var texts := RenderMethods(cfg, ms).value;
    var last := texts[|texts| - 1];
    assert MethodGenerator.Render(cfg, ms[|ms| - 1]) == Ok(last);
    assert EndsWithByte(last, '}');
    JoinEndsWith(texts, "\n\n", '}');
    IndentEndsWith(cfg, Join(texts, "\n\n"), 1, '}');
  }

  /** Heads found in a block ending in `}` keep their order inside the
      trimmed render, moved down by the lines in front of the block. */
  lemma {:induction false} TrimmedHeads(a: string, b: string, s: string, o: seq<nat>,
                                        heads: seq<string>, p: string, sep: string)
    returns (mi: seq<nat>)
    requires EndsWithByte(b, '}')
    requires |s| > 0 && s[0] == '\n'
    requires HeadsAt(Lines(b), o, heads, p, sep)
    ensures |mi| == |o| && (forall l :: 0 <= l < |o| ==> |Lines(a)| <= mi[l])
    ensures HeadsAt(Lines(RTrim(a + "\n" + b + s) + "\n}\n"), mi, heads, p, sep)
  {
    var tail := TrimmedBlockLines(a, b, s);
    mi := ShiftedHeads(Lines(a), Lines(b), tail, o, heads, p, sep);
  }

  /** The methods block inside the trimmed render: each method's signature,
      indented, after the lines of the text in front of it, in order, with
      what an indented empty line becomes between consecutive methods. */
  lemma {:induction false} MethodsAt(cfg: Config, ms: seq<MethodGenerator.Method>, a: string) returns (mi: seq<nat>)
    requires '\n' !in cfg.indentChar
    requires |ms| > 0 && AllBodiesSet(ms)
    requires forall l :: 0 <= l < |ms| ==> '\n' !in MethodGenerator.Signature(cfg, ms[l])
    ensures RenderMethods(cfg, ms).Ok?
    ensures |mi| == |ms| && (forall l :: 0 <= l < |ms| ==> |Lines(a)| <= mi[l])
    ensures HeadsAt(Lines(RTrim(a + "\n" + Indent(cfg, Join(RenderMethods(cfg, ms).value, "\n\n"), 1) + "\n\n") + "\n}\n"),
                    mi, Signatures(cfg, ms), IndentPrefix(cfg, 1), RunHead(IndentPrefix(cfg, 1)))
  {
    MethodTextsHeaded(cfg, ms);
    MethodsBlockEnds(cfg, ms);
    var texts := RenderMethods(cfg, ms).value;
    var sigs := Signatures(cfg, ms);
    var p := IndentPrefix(cfg, 1);
    var o := IndentedHeads(cfg, texts, sigs, 1);
    mi := TrimmedHeads(a, Indent(cfg, Join(texts, "\n\n"), 1), "\n\n", o, sigs, p, RunHead(p));
  }

  /** The line the constants start on. */
  function ConstantsLine(cfg: Config, c: Class): nat {
    |Lines(Front(cfg, c))|
  }

  /** The text in front of the properties block. */
  function BeforeProperties(cfg: Config, c: Class): string {
    Front(cfg, c) + "\n" + Indent(cfg, ConstantGroup(cfg, c.constants), 1) + "\n"
  }

  /** The text in front of the methods block. */
  function BeforeMethods(cfg: Config, c: Class): string {
    BeforeProperties(cfg, c) + "\n" + Indent(cfg, PropertyGroup(cfg, c.properties), 1) + "\n"
  }

  /** The constants block is at least one line per constant, and a line
      follows it before the properties start; likewise for the properties
      before the methods. */
  lemma {:induction false} BlockStarts(cfg: Config, c: Class)
    requires '\n' !in cfg.indentChar
    requires OneLineStatements(c.constants, (k: ConstantGenerator.Constant) => ConstantGenerator.Render(cfg, k))
    requires OneLineStatements(c.properties, (q: PropertyGenerator.Property) => PropertyGenerator.Render(cfg, q))
    ensures ConstantsLine(cfg, c) + |c.constants| < |Lines(BeforeProperties(cfg, c))|
    ensures |Lines(BeforeProperties(cfg, c))| + |c.properties| < |Lines(BeforeMethods(cfg, c))|
  {
    var ic := Indent(cfg, ConstantGroup(cfg, c.constants), 1);
    var ip := Indent(cfg, PropertyGroup(cfg, c.properties), 1);
    LinesThroughBlock(Front(cfg, c), ic);
    LinesThroughBlock(BeforeProperties(cfg, c), ip);
    if |c.constants| > 0 {
      IndentedGroup(cfg, c.constants, (k: ConstantGenerator.Constant) => ConstantGenerator.Render(cfg, k));
    }
    if |c.properties| > 0 {
      IndentedGroup(cfg, c.properties, (q: PropertyGenerator.Property) => PropertyGenerator.Render(cfg, q));
    }
  }

  /** Each constant's render, indented, on consecutive lines from
      `ConstantsLine`. */
  lemma {:induction false} ConstantsPlaced(cfg: Config, c: Class, texts: seq<string>)
    requires '\n' !in cfg.indentChar
    requires |c.constants| > 0
    requires forall i :: 0 <= i < |c.constants| ==> '\n' !in ConstantGenerator.Render(cfg, c.constants[i])
    ensures LinesFrom(Lines(RTrim(Untrimmed(cfg, c, texts)) + "\n}\n"), ConstantsLine(cfg, c),
                      IndentPrefix(cfg, 1), ConstantTexts(cfg, c.constants))
  {
    UntrimmedCuts(cfg, c, texts);
    var rs := ConstantTexts(cfg, c.constants);
    forall i | 0 <= i < |rs| ensures '\n' !in rs[i] && EndsWithByte(rs[i], ';') {
      assert rs[i] == ConstantGenerator.Render(cfg, c.constants[i]);
    }
    var ip := Indent(cfg, PropertyGroup(cfg, c.properties), 1);
    var im := Indent(cfg, Join(texts, "\n\n"), 1);
    GroupAt(cfg, Front(cfg, c), "\n\n" + ip + "\n\n" + im + "\n\n", rs);
  }

  /** Each property's render, indented, on consecutive lines right after
      the text in front of the properties block. */
  lemma {:induction false} PropertiesPlaced(cfg: Config, c: Class, texts: seq<string>)
    requires '\n' !in cfg.indentChar
    requires |c.properties| > 0
    requires forall j :: 0 <= j < |c.properties| ==> '\n' !in PropertyGenerator.Render(cfg, c.properties[j])
    ensures LinesFrom(Lines(RTrim(Untrimmed(cfg, c, texts)) + "\n}\n"), |Lines(BeforeProperties(cfg, c))|,
                      IndentPrefix(cfg, 1), PropertyTexts(cfg, c.properties))
  {
    UntrimmedCuts(cfg, c, texts);
    var rs := PropertyTexts(cfg, c.properties);
    forall j | 0 <= j < |rs| ensures '\n' !in rs[j] && EndsWithByte(rs[j], ';') {
      assert rs[j] == PropertyGenerator.Render(cfg, c.properties[j]);
    }
    var im := Indent(cfg, Join(texts, "\n\n"), 1);
    GroupAt(cfg, BeforeProperties(cfg, c), "\n\n" + im + "\n\n", rs);
  }

  /** Each method's signature, indented, after the text in front of the
      methods block. */
  lemma {:induction false} MethodsPlaced(cfg: Config, c: Class) returns (mi: seq<nat>)
    requires '\n' !in cfg.indentChar
    requires |c.methods| > 0 && AllBodiesSet(c.methods)
    requires forall l :: 0 <= l < |c.methods| ==> '\n' !in MethodGenerator.Signature(cfg, c.methods[l])
    ensures RenderMethods(cfg, c.methods).Ok?
    ensures |mi| == |c.methods| && (forall l :: 0 <= l < |c.methods| ==> |Lines(BeforeMethods(cfg, c))| <= mi[l])
    ensures HeadsAt(Lines(RTrim(Untrimmed(cfg, c, RenderMethods(cfg, c.methods).value)) + "\n}\n"),
                    mi, Signatures(cfg, c.methods), IndentPrefix(cfg, 1), RunHead(IndentPrefix(cfg, 1)))
  {
    RenderMethodsIff(cfg, c.methods);
    UntrimmedCuts(cfg, c, RenderMethods(cfg, c.methods).value);
    mi := MethodsAt(cfg, c.methods, BeforeMethods(cfg, c));
  }

  /** In the lines `L` of a class render, from line `ci` on, each constant's
      render indented one level, one per line; from line `pi` on, each
      property's; the constants end before `pi`; method `l`'s signature,
      indented, sits on line `mi[l]`, after the properties and after the
      previous method, with what an indented empty line becomes right in
      front of it. */
  predicate MembersAt(cfg: Config, c: Class, L: seq<string>, ci: nat, pi: nat, mi: seq<nat>) {
    && ci + |c.constants| < pi
    && LinesFrom(L, ci, IndentPrefix(cfg, 1), ConstantTexts(cfg, c.constants))
    && LinesFrom(L, pi, IndentPrefix(cfg, 1), PropertyTexts(cfg, c.properties))
    && |mi| == |c.methods|
    && (forall l :: 0 <= l < |c.methods| ==> pi + |c.properties| < mi[l])
    && HeadsAt(L, mi, Signatures(cfg, c.methods), IndentPrefix(cfg, 1), RunHead(IndentPrefix(cfg, 1)))
  }

  /** Where the members land in the trimmed render, before the closing
      brace is read back from the class's `render`. */
  lemma {:induction false} PlacedMembers(cfg: Config, c: Class, texts: seq<string>) returns (ci: nat, pi: nat, mi: seq<nat>)
    requires RenderMethods(cfg, c.methods) == Ok(texts)
    requires '\n' !in cfg.indentChar
    requires forall i :: 0 <= i < |c.constants| ==> '\n' !in ConstantGenerator.Render(cfg, c.constants[i])
    requires forall j :: 0 <= j < |c.properties| ==> '\n' !in PropertyGenerator.Render(cfg, c.properties[j])
    requires forall l :: 0 <= l < |c.methods| ==> '\n' !in MethodGenerator.Signature(cfg, c.methods[l])
    ensures MembersAt(cfg, c, Lines(RTrim(Untrimmed(cfg, c, texts)) + "\n}\n"), ci, pi, mi)
  {
    RenderMethodsIff(cfg, c.methods);
    var L := Lines(RTrim(Untrimmed(cfg, c, texts)) + "\n}\n");
    var p := IndentPrefix(cfg, 1);
    var kr := (k: ConstantGenerator.Constant) => ConstantGenerator.Render(cfg, k);
    var qr := (q: PropertyGenerator.Property) => PropertyGenerator.Render(cfg, q);
    forall i | 0 <= i < |c.constants| ensures EndsWithByte(kr(c.constants[i]), ';') {
    }
    forall j | 0 <= j < |c.properties| ensures EndsWithByte(qr(c.properties[j]), ';') {
    }
    assert OneLineStatements(c.constants, kr);
    assert OneLineStatements(c.properties, qr);
    BlockStarts(cfg, c);
    ci := ConstantsLine(cfg, c);
    pi := |Lines(BeforeProperties(cfg, c))|;
    if |c.constants| > 0 {
      ConstantsPlaced(cfg, c, texts);
    }
    assert LinesFrom(L, ci, p, ConstantTexts(cfg, c.constants));
    if |c.properties| > 0 {
      PropertiesPlaced(cfg, c, texts);
    }
    assert LinesFrom(L, pi, p, PropertyTexts(cfg, c.properties));
    if |c.methods| > 0 {
      mi := MethodsPlaced(cfg, c);
    } else {
      mi := [];
    }
    assert HeadsAt(L, mi, Signatures(cfg, c.methods), p, RunHead(p));
  }

  /** Every member's text appears in the class render as a line of its own,
      indented one level: each constant on consecutive lines, then after a
      gap each property on consecutive lines, then after another gap each
      method's signature, in insertion order, each method after the first
      preceded by what an indented empty line becomes (an empty line when
      the indent unit is whitespace). */
  lemma {:induction false} MemberLines(cfg: Config, c: Class) returns (ci: nat, pi: nat, mi: seq<nat>)
    requires AllBodiesSet(c.methods)
    requires '\n' !in cfg.indentChar
    requires forall i :: 0 <= i < |c.constants| ==> '\n' !in ConstantGenerator.Render(cfg, c.constants[i])
    requires forall j :: 0 <= j < |c.properties| ==> '\n' !in PropertyGenerator.Render(cfg, c.properties[j])
    requires forall l :: 0 <= l < |c.methods| ==> '\n' !in MethodGenerator.Signature(cfg, c.methods[l])
    ensures Render(cfg, c).Ok? && MembersAt(cfg, c, Lines(Render(cfg, c).value), ci, pi, mi)
    ensures IsWhitespace(cfg.indentChar) ==> RunHead(IndentPrefix(cfg, 1)) == ""
  {
    RenderFailsIff(cfg, c);
    RenderMethodsIff(cfg, c.methods);
    var texts := RenderMethods(cfg, c.methods).value;
    assert Render(cfg, c).value == RTrim(Untrimmed(cfg, c, texts)) + "\n}\n";
    ci, pi, mi := PlacedMembers(cfg, c, texts);
    if IsWhitespace(cfg.indentChar) {
      WhitespacePrefix(cfg, 1);
    }
  }
}
