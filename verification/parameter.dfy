/**
  `ParameterGenerator`: one parameter of a method signature,
  `[type ][...]$name[ = default]`.
*/
module ParameterGenerator {
  import opened Wrappers
  import opened Php
  import opened Util

  /** The generator's fields.  `hasDefaultValue` is a latch set by
      `setDefaultValue`, so a `null` default is still rendered. */
  datatype Parameter = Parameter(
    name: string,
    paramType: Option<string>,
    defaultValue: Value,
    hasDefaultValue: bool,
    variadic: bool)

  /** `new ParameterGenerator($name, $type)` and `ParameterGenerator::create`;
      the name is stored as given, without validation, and the type defaults
      to none. */
  function Create(name: string, paramType: Option<string> := None): (p: Parameter)
    ensures p.name == name && p.paramType == paramType
    ensures !p.hasDefaultValue && !p.variadic
  {
    Parameter(name, paramType, Plain(Null), false, false)
  }

  /** `setDefaultValue($defaultValue)`: stores the value and sets the latch. */
  function SetDefaultValue(p: Parameter, defaultValue: Value): (r: Parameter)
    ensures r.hasDefaultValue && r.defaultValue == defaultValue
    ensures r.name == p.name && r.paramType == p.paramType && r.variadic == p.variadic
  {
    p.(defaultValue := defaultValue, hasDefaultValue := true)
  }

  /** `variadic()`: sets the flag and nothing else. */
  function Variadic(p: Parameter): (r: Parameter)
    ensures r.variadic
    ensures r.name == p.name && r.paramType == p.paramType
    ensures r.defaultValue == p.defaultValue && r.hasDefaultValue == p.hasDefaultValue
  {
    p.(variadic := true)
  }

  /** The `%s` filled by `$this->variadic ? '...' : ''`. */
  function Marker(variadic: bool): string {
    if variadic then "..." else ""
  }

  /** The ` = <export>` part, present exactly when the latch is set. */
  function Initializer(cfg: Config, p: Parameter): string {
    if p.hasDefaultValue then " = " + Export(cfg, p.defaultValue) else ""
  }

  /** The name and everything after it: the part `trim` can shorten at the end. */
  function Tail(cfg: Config, p: Parameter): string {
    p.name + Initializer(cfg, p)
  }

  /** `sprintf('%s %s$%s', ...)` before `trim`; a `null` type prints as "". */
  function Untrimmed(cfg: Config, p: Parameter): string {
    p.paramType.GetOr("") + (" " + (Marker(p.variadic) + ("$" + Tail(cfg, p))))
  }

  /** What `trim` leaves of the type and the space after it: nothing when
      there is no type (or only whitespace), else the type without its
      leading whitespace, then the space. */
  function TypeLead(paramType: Option<string>): string {
    var t := paramType.GetOr("");
    if AllTrimChars(t) then "" else LTrim(t) + " "
  }

  /** Everything up to and including the `$` sigil, as it is rendered. */
  function Head(p: Parameter): string {
    TypeLead(p.paramType) + (Marker(p.variadic) + "$")
  }

  /** `getPhp()`: `trim` of the formatted fragment.  It is computed here in
      the shape `RenderShape` proves equal to `trim(sprintf(...))`: the type
      without its leading whitespace, the marker and the sigil, then the
      name and default without trailing whitespace. */
  function Render(cfg: Config, p: Parameter): string {
    Head(p) + RTrim(Tail(cfg, p))
  }

  /** The rendered parameter never starts or ends with whitespace, and it
      always holds the `$` sigil. */
  lemma {:induction false} RenderTrimmed(cfg: Config, p: Parameter)
    ensures var r := Render(cfg, p);
            && |r| > 0 && !IsTrimChar(r[0]) && !IsTrimChar(r[|r| - 1])
            && '$' in r
  {
    RenderShape(cfg, p);
    var h := Head(p);
    assert Render(cfg, p)[|h| - 1] == '$';
  }

  /** The front half of `RenderShape`: `ltrim` stops at the marker or the
      sigil. */
  lemma {:induction false} LTrimOfUntrimmed(cfg: Config, p: Parameter)
    ensures LTrim(Untrimmed(cfg, p)) == Head(p) + Tail(cfg, p)
  {
    var t := p.paramType.GetOr("");
    var m := Marker(p.variadic);
    var tl := Tail(cfg, p);
    var rest := m + ("$" + tl);
    assert rest[0] == (if p.variadic then '.' else '$');
    LTrimPastSpace(t, rest);
    var lead := TypeLead(p.paramType);
    ConcatAssoc(m, "$", tl);
    ConcatAssoc(lead, m + "$", tl);
  }

  /** `trim` only ever touches the two ends: the marker and the `$` come
      right after the type, and only the name-and-default tail loses its
      trailing whitespace. */
  lemma {:induction false} RenderShape(cfg: Config, p: Parameter)
    ensures Render(cfg, p) == Trim(Untrimmed(cfg, p))
  {
    LTrimOfUntrimmed(cfg, p);
    var h := Head(p);
    assert h[|h| - 1] == '$';
    RTrimAfterKeptByte(h, Tail(cfg, p));
  }

  /** Without a type the render starts at the marker, with no leading space. */
  lemma {:induction false} UntypedStartsWithSigil(cfg: Config, p: Parameter)
    requires p.paramType.None?
    ensures var r := Render(cfg, p);
            if p.variadic then |r| >= 4 && r[..4] == "...$" else |r| > 0 && r[0] == '$'
  {
    var h := Head(p);
    var r := Render(cfg, p);
    assert r == h + RTrim(Tail(cfg, p));
    assert TypeLead(p.paramType) == "";
    if p.variadic {
      assert h == "...$";
      assert r[..4] == h;
    } else {
      assert h == "$";
    }
  }

  /** The `...` marker appears exactly when `variadic()` was called, and it
      sits right before the `$` of the name. */
  lemma {:induction false} VariadicMarkerIff(cfg: Config, p: Parameter)
    ensures var r := Render(cfg, p); var k := |TypeLead(p.paramType)|;
            && |r| > k
            && (p.variadic <==> (|r| >= k + 4 && r[k..k + 4] == "...$"))
            && (!p.variadic <==> r[k] == '$')
  {
    MarkerAfterLead(Render(cfg, p), TypeLead(p.paramType), p.variadic, RTrim(Tail(cfg, p)));
  }

  /** `VariadicMarkerIff` on the rendered string's shape alone. */
  lemma {:induction false} MarkerAfterLead(r: string, lead: string, variadic: bool, rest: string)
    requires r == lead + (Marker(variadic) + "$") + rest
    ensures var k := |lead|;
            && |r| > k
            && (variadic <==> (|r| >= k + 4 && r[k..k + 4] == "...$"))
            && (!variadic <==> r[k] == '$')
  {
    var k := |lead|;
    var ms := Marker(variadic) + "$";
    ConcatAssoc(lead, ms, rest);
    var after := ms + rest;
    assert r[k..] == after;
    if variadic {
      assert after[..4] == "...$";
      assert r[k..k + 4] == after[..4];
      assert r[k] == after[0];
    } else {
      assert r[k] == after[0];
      if |r| >= k + 4 {
        assert r[k..k + 4][0] == after[0];
      }
    }
  }

  /** The type lead holds only bytes of the type and the space after it. */
  lemma {:induction false} TypeLeadBytes(paramType: Option<string>, c: char)
    requires c in TypeLead(paramType)
    ensures c == ' ' || (paramType.Some? && c in paramType.value)
  {
    var t := paramType.GetOr("");
    if !AllTrimChars(t) {
      var l := LTrim(t);
      if c in l {
        LTrimBytes(t, c);
      }
    }
  }

  /** When neither the name nor the type holds `=`, an `=` appears in the
      render exactly when `setDefaultValue` was called, whatever the value
      (`null` included). */
  lemma {:induction false} InitializerIffDefaultSet(cfg: Config, p: Parameter)
    requires '=' !in p.name
    requires p.paramType.Some? ==> '=' !in p.paramType.value
    ensures '=' in Render(cfg, p) <==> p.hasDefaultValue
  {
    if p.hasDefaultValue {
      DefaultShowsEquals(cfg, p);
    } else {
      NoDefaultNoEquals(cfg, p);
    }
  }

  lemma {:induction false} DefaultShowsEquals(cfg: Config, p: Parameter)
    requires p.hasDefaultValue
    ensures '=' in Render(cfg, p)
  {
    EqualsInTail(cfg, p);
    KeptByteSurvives(Head(p), Tail(cfg, p), |p.name| + 1);
  }

  lemma {:induction false} EqualsInTail(cfg: Config, p: Parameter)
    requires p.hasDefaultValue
    ensures |Tail(cfg, p)| > |p.name| + 1 && Tail(cfg, p)[|p.name| + 1] == '='
  {
    var init := Initializer(cfg, p);
    assert init[1] == '=';
  }

  lemma {:induction false} NoDefaultNoEquals(cfg: Config, p: Parameter)
    requires !p.hasDefaultValue
    requires '=' !in p.name
    requires p.paramType.Some? ==> '=' !in p.paramType.value
    ensures '=' !in Render(cfg, p)
  {
    HeadLacksEquals(p);
    assert Tail(cfg, p) == p.name;
    RTrimAddsNoByte(Head(p), p.name, '=');
  }

  lemma {:induction false} HeadLacksEquals(p: Parameter)
    requires p.paramType.Some? ==> '=' !in p.paramType.value
    ensures '=' !in Head(p)
  {
    if '=' in TypeLead(p.paramType) {
      TypeLeadBytes(p.paramType, '=');
    }
  }

  /** A kept byte of the tail is still in `head + rtrim(tail)`. */
  lemma {:induction false} KeptByteSurvives(h: string, tl: string, k: nat)
    requires k < |tl| && !IsTrimChar(tl[k])
    ensures tl[k] in h + RTrim(tl)
  {
    RTrimKeepsUpTo(tl, k);
    assert (h + RTrim(tl))[|h| + k] == tl[k];
  }

  /** `head + rtrim(tail)` has no byte that neither part had. */
  lemma {:induction false} RTrimAddsNoByte(h: string, tl: string, c: char)
    requires c !in h && c !in tl
    ensures c !in h + RTrim(tl)
  {
  }

  /** Nothing rejects a variadic parameter with a default: both are rendered. */
  lemma {:induction false} VariadicWithDefault(cfg: Config, p: Parameter, v: Value)
    requires exists i :: 0 <= i < |Export(cfg, v)| && !IsTrimChar(Export(cfg, v)[i])
    ensures Render(cfg, SetDefaultValue(Variadic(p), v))
         == TypeLead(p.paramType) + "...$" + p.name + " = " + RTrim(Export(cfg, v))
  {
    var q := SetDefaultValue(Variadic(p), v);
    var e := Export(cfg, v);
    assert Tail(cfg, q) == p.name + (" = " + e);
    RTrimOfInitializer(p.name, e);
    Reassociate(TypeLead(p.paramType), p.name, RTrim(e));
  }

  /** `rtrim` of `name = value` when the value has a kept byte. */
  lemma {:induction false} RTrimOfInitializer(name: string, e: string)
    requires exists i :: 0 <= i < |e| && !IsTrimChar(e[i])
    ensures RTrim(name + (" = " + e)) == (name + " = ") + RTrim(e)
  {
    ConcatAssoc(name, " = ", e);
    RTrimOfContentTail(name + " = ", e);
  }

  lemma {:induction false} Reassociate(lead: string, name: string, e: string)
    ensures lead + (Marker(true) + "$") + ((name + " = ") + e) == lead + "...$" + name + " = " + e
  {
    assert Marker(true) + "$" == "...$";
    ConcatAssoc(lead + "...$", name + " = ", e);
    ConcatAssoc(lead + "...$", name, " = ");
  }
}
