/**
  `ConstantGenerator`: one class constant, `const NAME = <export>;`.
*/
module ConstantGenerator {
  import opened Util

  datatype Constant = Constant(name: string, value: Value)

  /** `new ConstantGenerator($name, $value)` and `create`. */
  function Create(name: string, value: Value): (c: Constant)
    ensures c.name == name && c.value == value
  {
    Constant(name, value)
  }

  /** The text before the exported value. */
  function Lead(name: string): string {
    "const " + name + " = "
  }

  /** `getPhp()`: unlike a property, a constant always prints its value,
      `null` included. */
  function Render(cfg: Config, c: Constant): (r: string)
    ensures |r| == |Lead(c.name)| + |Export(cfg, c.value)| + 1
    ensures r[..|Lead(c.name)|] == Lead(c.name)
    ensures r[|r| - 1] == ';'
  {
    var r := Lead(c.name) + Export(cfg, c.value) + ";";
    assert r[..|Lead(c.name)|] == Lead(c.name);
    r
  }

  /** Reading a rendered constant back: the name sits after `const `, and
      the exported value is everything between ` = ` and the final `;`. */
  lemma {:induction false} RenderParts(cfg: Config, c: Constant)
    ensures var r := Render(cfg, c); var k := |Lead(c.name)|;
            && r[6..6 + |c.name|] == c.name
            && r[k..|r| - 1] == Export(cfg, c.value)
  {
    var r := Render(cfg, c);
    var lead := Lead(c.name);
    var e := Export(cfg, c.value);
    assert r == lead + e + ";";
    assert r[6..6 + |c.name|] == lead[6..6 + |c.name|];
    assert r[|lead|..|r| - 1] == (lead + e)[|lead|..];
  }

  /** Two constants with names of the same length render alike exactly
      when their names and exported values agree. */
  lemma {:induction false} RenderInjective(cfg: Config, c: Constant, d: Constant)
    requires |c.name| == |d.name|
    ensures Render(cfg, c) == Render(cfg, d)
        <==> c.name == d.name && Export(cfg, c.value) == Export(cfg, d.value)
  {
    if Render(cfg, c) == Render(cfg, d) {
      RenderParts(cfg, c);
      RenderParts(cfg, d);
    }
  }

  /** An expression is printed verbatim. */
  lemma {:induction false} ExpressionVerbatim(cfg: Config, name: string, text: string)
    ensures Render(cfg, Create(name, Raw(text))) == "const " + name + " = " + text + ";"
  {
  }

  /** A `null` value is still exported, as `var_export` prints it. */
  lemma {:induction false} NullValueRendered(cfg: Config, name: string)
    ensures Render(cfg, Create(name, Plain(Null))) == "const " + name + " = " + cfg.varExport(Null) + ";"
  {
  }
}
