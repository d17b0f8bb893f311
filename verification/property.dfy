/**
  `PropertyGenerator`: one property declaration,
  `<visibility>[ static] $name[ = default];`.
*/
module PropertyGenerator {
  import opened Wrappers
  import opened Util

  /** The visibility constants the generator offers; any other string is
      accepted and printed as given. */
  const Public: string := "public"
  const Private: string := "private"
  const Protected: string := "protected"

  /** The generator's fields.  The type is stored but never printed: it is
      read only by the getter and setter factories of `MethodGenerator`.
      An unset default is PHP `null`, which is why a `null` default is
      indistinguishable from none. */
  datatype Property = Property(
    name: string,
    visibility: string,
    propertyType: Option<string>,
    defaultValue: Value,
    isStatic: bool)

  /** `new PropertyGenerator($name, $visibility, $type)` and `create`; the
      PHP defaults are `Public` and `null`. */
  function Create(name: string, visibility: string := Public, propertyType: Option<string> := None): (p: Property)
    ensures p.name == name && p.visibility == visibility && p.propertyType == propertyType
    ensures p.defaultValue == Plain(Null) && !p.isStatic
  {
    Property(name, visibility, propertyType, Plain(Null), false)
  }

  /** `setDefaultValue($defaultValue)`. */
  function SetDefaultValue(p: Property, defaultValue: Value): (r: Property)
    ensures r.defaultValue == defaultValue
    ensures r.name == p.name && r.visibility == p.visibility
    ensures r.propertyType == p.propertyType && r.isStatic == p.isStatic
  {
    p.(defaultValue := defaultValue)
  }

  /** `static()`. */
  function Static(p: Property): (r: Property)
    ensures r.isStatic
    ensures r.name == p.name && r.visibility == p.visibility
    ensures r.propertyType == p.propertyType && r.defaultValue == p.defaultValue
  {
    p.(isStatic := true)
  }

  /** `getName()`. */
  function GetName(p: Property): string {
    p.name
  }

  /** `getType()`; `None` is PHP `null`. */
  function GetType(p: Property): Option<string> {
    p.propertyType
  }

  /** `null !== $this->defaultValue`: an expression object is never `null`,
      even when its text is "null". */
  predicate HasInitializer(p: Property) {
    p.defaultValue != Plain(Null)
  }

  function Initializer(cfg: Config, p: Property): string {
    if HasInitializer(p) then " = " + Export(cfg, p.defaultValue) else ""
  }

  /** `getPhp()`. */
  function Render(cfg: Config, p: Property): (r: string)
    ensures |r| > |p.visibility| + 1 && r[..|p.visibility|] == p.visibility
    ensures r[|r| - 1] == ';'
  {
    var front := p.visibility + StaticKeyword(p.isStatic) + " $" + p.name;
    var r := front + Initializer(cfg, p) + ";";
    assert r[..|p.visibility|] == front[..|p.visibility|];
    r
  }

  /** The declaration in full: the visibility, ` static` when set, ` $` and
      the name, then ` = ` and the exported default unless the default is
      `null`, then `;`. */
  lemma {:induction false} RenderText(cfg: Config, p: Property)
    ensures HasInitializer(p) ==>
              Render(cfg, p) == p.visibility + StaticKeyword(p.isStatic) + " $" + p.name
                                + " = " + Export(cfg, p.defaultValue) + ";"
    ensures !HasInitializer(p) ==>
              Render(cfg, p) == p.visibility + StaticKeyword(p.isStatic) + " $" + p.name + ";"
  {
    var front := p.visibility + StaticKeyword(p.isStatic) + " $" + p.name;
    if HasInitializer(p) {
      Php.ConcatAssoc(front, " = " + Export(cfg, p.defaultValue), ";");
    }
  }

  /** Reading a declaration back: the name follows ` $`; what lies between
      the name and the final `;` is the initializer, which is ` = ` and the
      exported default exactly when the default is not `null`. */
  lemma {:induction false} RenderParts(cfg: Config, p: Property)
    ensures var r := Render(cfg, p);
            var k := |p.visibility| + |StaticKeyword(p.isStatic)|;
            var e := k + 2 + |p.name|;
            && |r| > e
            && r[k..k + 2] == " $" && r[k + 2..e] == p.name
            && r[e..|r| - 1] == Initializer(cfg, p)
            && (HasInitializer(p) ==> r[e..e + 3] == " = " && r[e + 3..|r| - 1] == Export(cfg, p.defaultValue))
            && (!HasInitializer(p) ==> |r| == e + 1)
  {
    var r := Render(cfg, p);
    var sk := StaticKeyword(p.isStatic);
    var k := |p.visibility| + |sk|;
    var lead := p.visibility + sk + " $";
    var front := lead + p.name;
    var init := Initializer(cfg, p);
    assert r == front + init + ";";
    assert lead[k..] == " $";
    assert r[k..k + 2] == lead[k..];
    assert r[k + 2..|front|] == p.name;
    assert r[|front|..|r| - 1] == init;
    if HasInitializer(p) {
      assert r[|front|..|front| + 3] == init[..3];
      assert r[|front| + 3..|r| - 1] == init[3..];
    }
  }

  /** Two properties with the same visibility and static flag and names of
      the same length render alike exactly when their names and
      initializers agree. */
  lemma {:induction false} RenderInjective(cfg: Config, p: Property, q: Property)
    requires p.visibility == q.visibility && p.isStatic == q.isStatic && |p.name| == |q.name|
    ensures Render(cfg, p) == Render(cfg, q)
        <==> p.name == q.name && Initializer(cfg, p) == Initializer(cfg, q)
  {
    if Render(cfg, p) == Render(cfg, q) {
      RenderParts(cfg, p);
      RenderParts(cfg, q);
    }
  }

  /** A property made with `create($name)` alone is public, untyped,
      without a default and not static. */
  lemma {:induction false} CreateDefaults(name: string)
    ensures Create(name).visibility == Public && Create(name).propertyType.None?
    ensures !HasInitializer(Create(name)) && !Create(name).isStatic
  {
  }

  /** The property's name and type are what `create` was given, whatever
      mutators ran after it. */
  lemma {:induction false} AccessorsAfterMutators(name: string, visibility: string, t: Option<string>, v: Value)
    ensures var p := Create(name, visibility, t);
            && GetName(p) == name && GetType(p) == t
            && GetName(Static(SetDefaultValue(p, v))) == name
            && GetType(Static(SetDefaultValue(p, v))) == t
  {
  }

  /** The declared type has no effect on the rendered declaration. */
  lemma {:induction false} TypeNotRendered(cfg: Config, p: Property, t: Option<string>)
    ensures Render(cfg, p.(propertyType := t)) == Render(cfg, p)
  {
  }

  /** A `null` default renders exactly like no default at all. */
  lemma {:induction false} NullDefaultIsNoDefault(cfg: Config, p: Property)
    ensures Render(cfg, SetDefaultValue(p, Plain(Null))) == Render(cfg, p.(defaultValue := Plain(Null)))
    ensures Render(cfg, SetDefaultValue(p, Plain(Null)))
         == p.visibility + StaticKeyword(p.isStatic) + " $" + p.name + ";"
  {
  }

  /** An expression whose text is `null` is still rendered. */
  lemma {:induction false} NullExpressionRendered(cfg: Config, p: Property)
    ensures Render(cfg, SetDefaultValue(p, Raw("null")))
         == p.visibility + StaticKeyword(p.isStatic) + " $" + p.name + " = null;"
  {
    var front := p.visibility + StaticKeyword(p.isStatic) + " $" + p.name;
    Php.ConcatAssoc(front, " = null", ";");
  }

  /** When neither the visibility nor the name holds `=`, the declaration
      has an initializer exactly when the default is not `null`. */
  lemma {:induction false} InitializerIff(cfg: Config, p: Property)
    requires '=' !in p.visibility && '=' !in p.name
    ensures '=' in Render(cfg, p) <==> HasInitializer(p)
  {
    var front := p.visibility + StaticKeyword(p.isStatic) + " $" + p.name;
    if HasInitializer(p) {
      var init := Initializer(cfg, p);
      assert init[1] == '=';
      assert (front + init + ";")[|front| + 1] == '=';
    } else {
      assert '=' !in StaticKeyword(p.isStatic);
      assert '=' !in front;
      assert Render(cfg, p) == front + ";";
    }
  }

  /** ` static` follows the visibility exactly when `static()` was called. */
  lemma {:induction false} StaticIff(cfg: Config, p: Property)
    ensures var r := Render(cfg, p); var k := |p.visibility|;
            p.isStatic <==> (|r| >= k + 8 && r[k..k + 8] == " static ")
  {
    var r := Render(cfg, p);
    var k := |p.visibility|;
    var sk := StaticKeyword(p.isStatic);
    var front := p.visibility + sk + " $" + p.name;
    assert r == front + Initializer(cfg, p) + ";";
    if p.isStatic {
      assert front[k..k + 8] == " static ";
      assert r[k..k + 8] == front[k..k + 8];
    } else {
      assert r[k + 1] == '$';
      if |r| >= k + 8 {
        assert r[k..k + 8][1] == r[k + 1];
      }
    }
  }

  /** `static()` twice is `static()` once. */
  lemma {:induction false} StaticIdempotent(p: Property)
    ensures Static(Static(p)) == Static(p)
  {
  }

  /** A private property with a type and no default: the type is dropped. */
  lemma {:induction false} PrivateTypedExample(cfg: Config)
    ensures Render(cfg, Create("id", Private, Some("int"))) == "private $id;"
  {
  }
}
