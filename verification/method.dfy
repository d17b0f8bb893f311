/**
  `MethodGenerator`: one method declaration, its signature followed by the
  body indented one level between braces; plus the getter and setter
  factories used by `ClassGenerator::addProperty`.
*/
module MethodGenerator {
  import opened Wrappers
  import opened Php
  import opened Util
  import ParameterGenerator
  import PropertyGenerator

  const Public: string := "public"
  const Private: string := "private"
  const Protected: string := "protected"

  /** The generator's fields.  An unset body is `None`; the source's
      `$abstract` flag is never read or written by any operation and is
      not modelled. */
  datatype Method = Method(
    name: string,
    visibility: string,
    isStatic: bool,
    parameters: seq<ParameterGenerator.Parameter>,
    returnType: Option<string>,
    body: Option<string>)

  /** `new MethodGenerator($name, $visibility)` and `create`; the PHP
      default visibility is `Public`. */
  function Create(name: string, visibility: string := Public): (m: Method)
    ensures m.name == name && m.visibility == visibility
    ensures !m.isStatic && m.parameters == [] && m.returnType.None? && m.body.None?
  {
    Method(name, visibility, false, [], None, None)
  }

  /** Without a visibility argument, `create`, `createGetter` and
      `createSetter` make public methods. */
  lemma {:induction false} DefaultVisibility(name: string, p: PropertyGenerator.Property)
    ensures Create(name).visibility == Public
    ensures CreateGetter(p).visibility == Public && CreateSetter(p).visibility == Public
  {
  }

  /** `setVisibility($visibility)`. */
  function SetVisibility(m: Method, visibility: string): (r: Method)
    ensures r.visibility == visibility
    ensures r == m.(visibility := visibility)
  {
    m.(visibility := visibility)
  }

  /** `static()`. */
  function Static(m: Method): (r: Method)
    ensures r.isStatic
    ensures r.name == m.name && r.visibility == m.visibility && r.parameters == m.parameters
    ensures r.returnType == m.returnType && r.body == m.body
  {
    m.(isStatic := true)
  }

  /** `setReturnType($returnType)`. */
  function SetReturnType(m: Method, returnType: string): (r: Method)
    ensures r.returnType == Some(returnType)
    ensures r.name == m.name && r.visibility == m.visibility && r.isStatic == m.isStatic
    ensures r.parameters == m.parameters && r.body == m.body
  {
    m.(returnType := Some(returnType))
  }

  /** `addParameter($parameter)`: appends, keeping the earlier parameters in order. */
  function AddParameter(m: Method, parameter: ParameterGenerator.Parameter): (r: Method)
    ensures |r.parameters| == |m.parameters| + 1
    ensures r.parameters[..|m.parameters|] == m.parameters && r.parameters[|m.parameters|] == parameter
    ensures r.name == m.name && r.visibility == m.visibility && r.isStatic == m.isStatic
    ensures r.returnType == m.returnType && r.body == m.body
  {
    m.(parameters := m.parameters + [parameter])
  }

  /** `setBody($body)`. */
  function SetBody(m: Method, body: string): (r: Method)
    ensures r.body == Some(body)
    ensures r.name == m.name && r.visibility == m.visibility && r.isStatic == m.isStatic
    ensures r.parameters == m.parameters && r.returnType == m.returnType
  {
    m.(body := Some(body))
  }

  /** `is` for a property typed exactly `bool`, `get` otherwise. */
  function GetterPrefix(propertyType: Option<string>): string {
    if propertyType == Some("bool") then "is" else "get"
  }

  /** The statement a getter returns with. */
  function GetterBody(name: string): string {
    "return $this->" + name + ";"
  }

  /** The statement a setter assigns with. */
  function SetterBody(name: string): string {
    "$this->" + name + " = $" + name + ";"
  }

  /** `createGetter($property, $visibility)`. */
  function CreateGetter(p: PropertyGenerator.Property, visibility: string := Public): (m: Method)
    ensures m.name == GetterPrefix(p.propertyType) + UcFirst(p.name)
    ensures m.visibility == visibility && !m.isStatic && m.parameters == []
    ensures m.returnType == p.propertyType
    ensures m.body == Some(GetterBody(p.name))
  {
    var getter := SetBody(Create(GetterPrefix(PropertyGenerator.GetType(p)) + UcFirst(PropertyGenerator.GetName(p)), visibility),
                          GetterBody(PropertyGenerator.GetName(p)));
    match PropertyGenerator.GetType(p)
    case Some(t) => SetReturnType(getter, t)
    case None => getter
  }

  /** `createSetter($property, $visibility)`. */
  function CreateSetter(p: PropertyGenerator.Property, visibility: string := Public): (m: Method)
    ensures m.name == "set" + UcFirst(p.name)
    ensures m.visibility == visibility && !m.isStatic && m.returnType.None?
    ensures m.parameters == [ParameterGenerator.Create(p.name, p.propertyType)]
    ensures m.body == Some(SetterBody(p.name))
  {
    var name := PropertyGenerator.GetName(p);
    SetBody(AddParameter(Create("set" + UcFirst(name), visibility),
                         ParameterGenerator.Create(name, PropertyGenerator.GetType(p))),
            SetterBody(name))
  }

  /** `Util::group($this->parameters, ', ')`. */
  function ParameterList(cfg: Config, parameters: seq<ParameterGenerator.Parameter>): string {
    Group(parameters, (q: ParameterGenerator.Parameter) => ParameterGenerator.Render(cfg, q), ", ")
  }

  /** The `: <type>` after the parameter list, empty when no return type is set. */
  function ReturnTypeSuffix(returnType: Option<string>): string {
    match returnType
    case None => ""
    case Some(t) => ": " + t
  }

  /** The first line of the declaration up to the closing parenthesis. */
  function CallHead(cfg: Config, m: Method): string {
    m.visibility + StaticKeyword(m.isStatic) + " function " + m.name
      + "(" + ParameterList(cfg, m.parameters) + ")"
  }

  /** The first line of the declaration. */
  function Signature(cfg: Config, m: Method): string {
    CallHead(cfg, m) + ReturnTypeSuffix(m.returnType)
  }

  /** `getPhp()`.  The body goes through `Util::indent(string $code)`, so
      under `strict_types` an unset body is a `TypeError`. */
  function Render(cfg: Config, m: Method): (r: Result<string, RenderError>)
    ensures r.Err? <==> m.body.None?
    ensures r.Err? ==> r.error == NullMethodBody(m.name)
    ensures r.Ok? ==> var s := Signature(cfg, m);
              && |r.value| >= |s| + 5
              && r.value[..|s| + 3] == s + "\n{\n"
              && r.value[|r.value| - 2..] == "\n}"
  {
    match m.body
    case None => Err(NullMethodBody(m.name))
    case Some(b) =>
      Ok(Frame(Signature(cfg, m), Indent(cfg, b, 1)))
  }

  /** The signature line, then the indented body between braces on lines
      of their own. */
  function Frame(s: string, ind: string): (text: string)
    ensures |text| >= |s| + 5
    ensures text[..|s| + 3] == s + "\n{\n"
    ensures text[|text| - 2..] == "\n}"
  {
    var open := s + "\n{\n";
    ConcatAssoc(open, ind, "\n}");
    ConcatParts(open, ind + "\n}");
    ConcatParts(open + ind, "\n}");
    open + ind + "\n}"
  }

  /** Everything between the opening and the closing brace is the body
      indented one level. */
  lemma {:induction false} RenderedBody(cfg: Config, m: Method, b: string)
    requires m.body == Some(b)
    ensures Render(cfg, m) == Ok(Signature(cfg, m) + "\n{\n" + Indent(cfg, b, 1) + "\n}")
  {
  }

  /** A rendered method's first line is its signature, and more lines
      follow it. */
  lemma {:induction false} RenderFirstLine(cfg: Config, m: Method)
    requires m.body.Some? && '\n' !in Signature(cfg, m)
    ensures var ls := Lines(Render(cfg, m).value); |ls| >= 2 && ls[0] == Signature(cfg, m)
  {
    var s := Signature(cfg, m);
    var ind := Indent(cfg, m.body.value, 1);
    RenderedBody(cfg, m, m.body.value);
    FrameAfterSignature(s, ind);
    LinesAfterNewline(s, "{\n" + ind + "\n}");
  }

  lemma {:induction false} FrameAfterSignature(s: string, ind: string)
    ensures s + "\n{\n" + ind + "\n}" == s + "\n" + ("{\n" + ind + "\n}")
  {
  }

  /** A signature always holds a byte that is not whitespace: the `f` of
      `function`. */
  lemma {:induction false} SignatureNotBlank(cfg: Config, m: Method)
    ensures !IsWhitespace(Signature(cfg, m))
  {
    var lead := m.visibility + StaticKeyword(m.isStatic);
    var k := |lead| + 1;
    assert (lead + " function ")[k] == 'f';
    assert Signature(cfg, m)[k] == 'f';
  }

  /** A setter or getter with a body always renders. */
  lemma {:induction false} FactoriesRender(cfg: Config, p: PropertyGenerator.Property, visibility: string)
    ensures Render(cfg, CreateGetter(p, visibility)).Ok?
    ensures Render(cfg, CreateSetter(p, visibility)).Ok?
  {
  }

  /** The getter is named `is...` exactly when the property's type is `bool`. */
  lemma {:induction false} GetterPrefixIff(p: PropertyGenerator.Property, visibility: string)
    ensures var n := CreateGetter(p, visibility).name;
            p.propertyType == Some("bool") <==> (|n| >= 2 && n[..2] == "is")
  {
    var n := CreateGetter(p, visibility).name;
    var u := UcFirst(p.name);
    if p.propertyType == Some("bool") {
      assert n == "is" + u;
      assert n[..2] == "is";
    } else {
      assert n == "get" + u;
      assert n[0] == 'g';
    }
  }

  /** Adding a parameter appends `, ` and its render to the parameter list
      (or makes it the whole list when it is the first). */
  lemma {:induction false} AddParameterExtendsList(cfg: Config, m: Method, q: ParameterGenerator.Parameter)
    ensures ParameterList(cfg, AddParameter(m, q).parameters)
         == if m.parameters == [] then ParameterGenerator.Render(cfg, q)
            else ParameterList(cfg, m.parameters) + ", " + ParameterGenerator.Render(cfg, q)
  {
    var render := (q: ParameterGenerator.Parameter) => ParameterGenerator.Render(cfg, q);
    if m.parameters == [] {
      assert AddParameter(m, q).parameters == [q];
    } else {
      GroupAppend(m.parameters, q, render, ", ");
    }
  }

  /** The signature ends with `)` exactly when no return type is set, and
      with `): <type>` when one is. */
  lemma {:induction false} ReturnTypeShown(cfg: Config, m: Method)
    ensures var s := Signature(cfg, m);
            match m.returnType
            case None => s[|s| - 1] == ')'
            case Some(t) => |s| >= |t| + 3 && s[|s| - |t| - 3..] == "): " + t
  {
    CallHeadCloses(cfg, m);
    SuffixAfterParen(CallHead(cfg, m), m.returnType);
  }

  lemma {:induction false} CallHeadCloses(cfg: Config, m: Method)
    ensures var h := CallHead(cfg, m); |h| > 0 && h[|h| - 1] == ')'
  {
    var lead := m.visibility + StaticKeyword(m.isStatic) + " function " + m.name;
    ClosedCall(lead, ParameterList(cfg, m.parameters));
  }

  lemma {:induction false} ClosedCall(lead: string, params: string)
    ensures var h := lead + "(" + params + ")"; |h| > 0 && h[|h| - 1] == ')'
  {
  }

  /** `ReturnTypeShown` on plain strings. */
  lemma {:induction false} SuffixAfterParen(h: string, returnType: Option<string>)
    requires |h| > 0 && h[|h| - 1] == ')'
    ensures var s := h + ReturnTypeSuffix(returnType);
            match returnType
            case None => s[|s| - 1] == ')'
            case Some(t) => |s| >= |t| + 3 && s[|s| - |t| - 3..] == "): " + t
  {
    match returnType
    case None =>
      assert h + ReturnTypeSuffix(returnType) == h;
    case Some(t) =>
      var x := ": " + t;
      assert (h + x)[|h| - 1..] == [h[|h| - 1]] + x;
  }

  /** A later `setBody` or `setReturnType` replaces the earlier one. */
  lemma {:induction false} LastWriteWins(m: Method, a: string, b: string)
    ensures SetBody(SetBody(m, a), b) == SetBody(m, b)
    ensures SetReturnType(SetReturnType(m, a), b) == SetReturnType(m, b)
    ensures Static(Static(m)) == Static(m)
  {
  }

  /** A method with a one-line, non-blank body: the body sits on its own
      line, behind the indent prefix. */
  lemma {:induction false} OneLineBody(cfg: Config, m: Method, b: string)
    requires '\n' !in cfg.indentChar
    requires m.body == Some(b) && '\n' !in b && !IsWhitespace(b)
    ensures Render(cfg, m) == Ok(Signature(cfg, m) + "\n{\n" + (IndentPrefix(cfg, 1) + b) + "\n}")
  {
    IndentOfOneLine(cfg, b, 1);
    RenderedBody(cfg, m, b);
  }

  /** The getter's signature: no parameters, and the property's type, if
      any, as the return type. */
  lemma {:induction false} GetterSignature(cfg: Config, p: PropertyGenerator.Property, visibility: string)
    ensures Signature(cfg, CreateGetter(p, visibility))
         == visibility + " function " + GetterPrefix(p.propertyType) + UcFirst(p.name) + "()"
            + ReturnTypeSuffix(p.propertyType)
  {
    var m := CreateGetter(p, visibility);
    NoParameterSignature(cfg, m);
    ConcatAssoc(visibility + " function ", GetterPrefix(p.propertyType), UcFirst(p.name));
  }

  /** The signature of a non-static method without parameters. */
  lemma {:induction false} NoParameterSignature(cfg: Config, m: Method)
    requires m.parameters == [] && !m.isStatic
    ensures Signature(cfg, m) == m.visibility + " function " + m.name + "()" + ReturnTypeSuffix(m.returnType)
  {
    assert ParameterList(cfg, []) == "";
    EmptyCall(m.visibility, m.name);
  }

  lemma {:induction false} EmptyCall(visibility: string, name: string)
    ensures visibility + StaticKeyword(false) + " function " + name + "(" + "" + ")"
         == visibility + " function " + name + "()"
  {
    assert visibility + StaticKeyword(false) == visibility;
    var y := visibility + " function " + name;
    assert y + "(" + "" == y + "(";
    ConcatAssoc(y, "(", ")");
  }

  /** The setter's signature: the property as its one parameter, no return type. */
  lemma {:induction false} SetterSignature(cfg: Config, p: PropertyGenerator.Property, visibility: string)
    ensures Signature(cfg, CreateSetter(p, visibility))
         == visibility + " function " + "set" + UcFirst(p.name)
            + "(" + ParameterGenerator.Render(cfg, ParameterGenerator.Create(p.name, p.propertyType)) + ")"
  {
    var m := CreateSetter(p, visibility);
    assert visibility + StaticKeyword(false) == visibility;
    ConcatAssoc(visibility + " function ", "set", UcFirst(p.name));
    assert CallHead(cfg, m) + ReturnTypeSuffix(None) == CallHead(cfg, m);
  }

  /** The getter of a property renders as its signature and a one-line
      `return $this->NAME;` body. */
  lemma {:induction false} GetterShape(cfg: Config, p: PropertyGenerator.Property, visibility: string)
    requires '\n' !in cfg.indentChar && '\n' !in p.name
    ensures Render(cfg, CreateGetter(p, visibility))
         == Ok(Signature(cfg, CreateGetter(p, visibility)) + "\n{\n"
               + (IndentPrefix(cfg, 1) + GetterBody(p.name)) + "\n}")
  {
    var body := GetterBody(p.name);
    NoNewlineConcat("return $this->", p.name);
    NoNewlineConcat("return $this->" + p.name, ";");
    assert !IsWhitespace(body) by {
      assert body[0] == 'r';
    }
    OneLineBody(cfg, CreateGetter(p, visibility), body);
  }

  /** The setter of a property renders as its signature and a one-line
      `$this->NAME = $NAME;` body. */
  lemma {:induction false} SetterShape(cfg: Config, p: PropertyGenerator.Property, visibility: string)
    requires '\n' !in cfg.indentChar && '\n' !in p.name
    ensures Render(cfg, CreateSetter(p, visibility))
         == Ok(Signature(cfg, CreateSetter(p, visibility)) + "\n{\n"
               + (IndentPrefix(cfg, 1) + SetterBody(p.name)) + "\n}")
  {
    var body := SetterBody(p.name);
    NoNewlineConcat("$this->", p.name);
    NoNewlineConcat("$this->" + p.name, " = $");
    NoNewlineConcat("$this->" + p.name + " = $", p.name);
    NoNewlineConcat("$this->" + p.name + " = $" + p.name, ";");
    assert !IsWhitespace(body) by {
      assert body[1] == 't';
    }
    OneLineBody(cfg, CreateSetter(p, visibility), body);
  }
}
