/**
  `FileGenerator`: a whole PHP file, the `<?php` tag, an optional
  `declare(strict_types=1);` line, then the text of one body generator.
*/
module FileGenerator {
  import opened Wrappers
  import opened Php
  import opened Util
  import ParameterGenerator
  import PropertyGenerator
  import ConstantGenerator
  import MethodGenerator
  import ClassGenerator

  /** Any `GeneratorInterface` a file can hold as its body: the library's
      own generators (a file is one too), or one written outside the library,
      of which only the outcome of casting it to a string (its
      `__toString()`) is known. */
  datatype Generator =
    | ParameterNode(parameterGen: ParameterGenerator.Parameter)
    | PropertyNode(propertyGen: PropertyGenerator.Property)
    | ConstantNode(constantGen: ConstantGenerator.Constant)
    | MethodNode(methodGen: MethodGenerator.Method)
    | ClassNode(classGen: ClassGenerator.Class)
    | FileNode(fileGen: File)
    | CustomNode(output: Result<string, RenderError>)

  /** The generator's fields; an unset body is PHP `null`. */
  datatype File = File(strictTypes: bool, body: Option<Generator>)

  /** `create()`: no strict-types line and no body. */
  function Create(): (f: File)
    ensures !f.strictTypes && f.body.None?
  {
    File(false, None)
  }

  /** `setStrictTypes($strictTypes)`: the last call wins. */
  function SetStrictTypes(f: File, strictTypes: bool): (r: File)
    ensures r.strictTypes == strictTypes && r.body == f.body
  {
    f.(strictTypes := strictTypes)
  }

  /** `setBody($body)`: the last call wins. */
  function SetBody(f: File, body: Generator): (r: File)
    ensures r.body == Some(body) && r.strictTypes == f.strictTypes
  {
    f.(body := Some(body))
  }

  const OpenTag: string := "<?php\n\n"
  const StrictLine: string := "declare(strict_types=1);"

  /** Everything before the body. */
  function Preamble(strictTypes: bool): (r: string)
    ensures |r| >= |OpenTag| && r[..|OpenTag|] == OpenTag
    ensures strictTypes <==> |r| > |OpenTag|
  {
    var r := OpenTag + (if strictTypes then StrictLine + "\n\n" else "");
    assert r[..|OpenTag|] == OpenTag;
    r
  }

  /** The text a generator turns into when cast to a string: for the
      library's own generators `__toString()` is `getPhp()`; for one written
      outside the library it is whatever its `__toString()` gave. */
  function RenderGenerator(cfg: Config, g: Generator): (r: Result<string, RenderError>)
    ensures r.Err? ==> g.MethodNode? || g.ClassNode? || g.FileNode? || g.CustomNode?
    ensures g.CustomNode? ==> r == g.output
    ensures g.FileNode? && r.Ok? ==> |r.value| >= |OpenTag| && r.value[..|OpenTag|] == OpenTag
    ensures g.ClassNode? && r.Ok? ==> |r.value| > 0 && (r.value[0] == 'n' || r.value[0] == 'c')
    ensures g.ClassNode? ==> (r.Ok? <==> ClassGenerator.AllBodiesSet(g.classGen.methods))
    decreases g
  {
    match g
    case ParameterNode(p) => Ok(ParameterGenerator.Render(cfg, p))
    case PropertyNode(p) => Ok(PropertyGenerator.Render(cfg, p))
    case ConstantNode(k) => Ok(ConstantGenerator.Render(cfg, k))
    case MethodNode(m) => MethodGenerator.Render(cfg, m)
    case ClassNode(c) =>
      ClassGenerator.FirstByte(cfg, c);
      ClassGenerator.RenderFailsIff(cfg, c);
      ClassGenerator.Render(cfg, c)
    case FileNode(f) => Render(cfg, f)
    case CustomNode(output) => output
  }

  /** `getPhp()`: the preamble, then the body as a string (`null` appends
      nothing).  A body that cannot be rendered makes the file fail with the
      same error. */
  function Render(cfg: Config, f: File): (r: Result<string, RenderError>)
    ensures r.Ok? ==> |r.value| >= |OpenTag| && r.value[..|OpenTag|] == OpenTag
    ensures r.Err? ==> f.body.Some? && RenderGenerator(cfg, f.body.value) == r
    decreases f
  {
    var text :- match f.body
                case None => Ok("")
                case Some(g) => RenderGenerator(cfg, g);
    var pre := Preamble(f.strictTypes);
    ConcatParts(pre, text);
    Ok(pre + text)
  }

  /** A generator renders exactly when no method inside it, at any depth of
      nested files, lacks a body, and no outside generator in it throws. */
  predicate Renderable(g: Generator)
    decreases g
  {
    match g
    case MethodNode(m) => m.body.Some?
    case ClassNode(c) => ClassGenerator.AllBodiesSet(c.methods)
    case FileNode(f) => FileRenderable(f)
    case CustomNode(output) => output.Ok?
    case _ => true
  }

  predicate FileRenderable(f: File)
    decreases f
  {
    f.body.None? || Renderable(f.body.value)
  }

  /** `Renderable` is exactly the condition under which rendering succeeds. */
  lemma {:induction false} RenderOkIff(cfg: Config, g: Generator)
    ensures RenderGenerator(cfg, g).Ok? <==> Renderable(g)
    decreases g
  {
    match g
    case MethodNode(m) => MethodNodeOkIff(cfg, m);
    case ClassNode(c) =>
    case FileNode(f) =>
      FileRenderOkIff(cfg, f);
      assert RenderGenerator(cfg, g) == Render(cfg, f);
    case CustomNode(output) =>
    case _ => LeafNodeOk(cfg, g);
  }

  lemma {:induction false} MethodNodeOkIff(cfg: Config, m: MethodGenerator.Method)
    ensures RenderGenerator(cfg, MethodNode(m)).Ok? <==> m.body.Some?
  {
    assert RenderGenerator(cfg, MethodNode(m)) == MethodGenerator.Render(cfg, m);
  }

  lemma {:induction false} LeafNodeOk(cfg: Config, g: Generator)
    requires g.ParameterNode? || g.PropertyNode? || g.ConstantNode?
    ensures RenderGenerator(cfg, g).Ok?
  {
  }

  lemma {:induction false} FileRenderOkIff(cfg: Config, f: File)
    ensures Render(cfg, f).Ok? <==> FileRenderable(f)
    decreases f
  {
    if f.body.Some? {
      RenderOkIff(cfg, f.body.value);
    }
  }

  /** The rendered file is the preamble followed by the body's text,
      unchanged. */
  lemma {:induction false} BodyVerbatim(cfg: Config, f: File)
    requires Render(cfg, f).Ok?
    ensures var s := Render(cfg, f).value; var pre := Preamble(f.strictTypes);
            && |s| >= |pre| && s[..|pre|] == pre
            && (f.body.None? ==> s == pre)
            && (f.body.Some? ==> s[|pre|..] == RenderGenerator(cfg, f.body.value).value)
  {
  }

  /** When the body's text does not itself start with `d`, the strict-types
      line follows the open tag exactly when `setStrictTypes(true)` was
      called. */
  lemma {:induction false} StrictTypesIff(cfg: Config, f: File)
    requires Render(cfg, f).Ok?
    requires f.body.Some? ==> var t := RenderGenerator(cfg, f.body.value).value; |t| == 0 || t[0] != 'd'
    ensures var s := Render(cfg, f).value; var k := |OpenTag|;
            f.strictTypes <==> (|s| >= k + |StrictLine| && s[k..k + |StrictLine|] == StrictLine)
  {
    var s := Render(cfg, f).value;
    BodyVerbatim(cfg, f);
    StrictLineAfterTag(s, f.strictTypes, s[|Preamble(f.strictTypes)|..]);
  }

  /** `StrictTypesIff` on plain strings. */
  lemma {:induction false} StrictLineAfterTag(s: string, strictTypes: bool, t: string)
    requires var pre := Preamble(strictTypes); |s| >= |pre| && s[..|pre|] == pre && s[|pre|..] == t
    requires |t| == 0 || t[0] != 'd'
    ensures var k := |OpenTag|;
            strictTypes <==> (|s| >= k + |StrictLine| && s[k..k + |StrictLine|] == StrictLine)
  {
    var pre := Preamble(strictTypes);
    var k := |OpenTag|;
    if strictTypes {
      var tail := StrictLine + "\n\n";
      assert pre == OpenTag + tail;
      ConcatParts(StrictLine, "\n\n");
      SliceOfPrefix(s, OpenTag, tail, StrictLine);
    } else {
      assert |pre| == k;
      if |s| >= k + |StrictLine| {
        assert s[k] == t[0];
        assert s[k..k + |StrictLine|][0] == s[k];
      }
    }
  }

  /** When `s` starts with `a` followed by `b`, and `b` starts with `x`,
      the `x` sits right after `a` in `s`. */
  lemma {:induction false} SliceOfPrefix(s: string, a: string, b: string, x: string)
    requires |s| >= |a| + |b| && s[..|a| + |b|] == a + b
    requires |b| >= |x| && b[..|x|] == x
    ensures s[|a|..|a| + |x|] == x
  {
    assert s[|a|..|a| + |x|] == (a + b)[|a|..|a| + |x|];
    assert (a + b)[|a|..|a| + |x|] == b[..|x|];
  }

  /** A file holding a class: the strict-types line is present exactly when
      requested. */
  lemma {:induction false} ClassFile(cfg: Config, strictTypes: bool, c: ClassGenerator.Class)
    requires ClassGenerator.AllBodiesSet(c.methods)
    ensures var f := SetBody(SetStrictTypes(Create(), strictTypes), ClassNode(c));
            && Render(cfg, f).Ok?
            && (var s := Render(cfg, f).value; var k := |OpenTag|;
                strictTypes <==> (|s| >= k + |StrictLine| && s[k..k + |StrictLine|] == StrictLine))
  {
    var f := SetBody(SetStrictTypes(Create(), strictTypes), ClassNode(c));
    assert f == File(strictTypes, Some(ClassNode(c)));
    assert FileRenderable(f);
    FileRenderOkIff(cfg, f);
    StrictTypesIff(cfg, f);
  }

  /** The two preambles, written out. */
  lemma {:induction false} PreambleText()
    ensures Preamble(true) == "<?php\n\ndeclare(strict_types=1);\n\n"
    ensures Preamble(false) == "<?php\n\n"
  {
    StrictPreambleText();
  }

  lemma {:induction false} StrictPreambleText()
    ensures OpenTag + (StrictLine + "\n\n") == "<?php\n\ndeclare(strict_types=1);\n\n"
  {
  }

  /** A file with no body is the preamble alone. */
  lemma {:induction false} EmptyFile(cfg: Config, strictTypes: bool)
    ensures Render(cfg, SetStrictTypes(Create(), strictTypes))
         == Ok(if strictTypes then "<?php\n\ndeclare(strict_types=1);\n\n" else "<?php\n\n")
  {
    var pre := Preamble(strictTypes);
    assert Render(cfg, SetStrictTypes(Create(), strictTypes)) == Ok(pre + "");
    assert pre + "" == pre;
    PreambleText();
  }

  /** A file nested as a body repeats the open tag: nothing rejects it. */
  lemma {:induction false} NestedFileRepeatsTag(cfg: Config, inner: File)
    requires FileRenderable(inner)
    ensures var s := Render(cfg, SetBody(Create(), FileNode(inner)));
            && s.Ok? && |s.value| >= 2 * |OpenTag|
            && s.value[..2 * |OpenTag|] == OpenTag + OpenTag
  {
    var outer := SetBody(Create(), FileNode(inner));
    FileRenderOkIff(cfg, outer);
    BodyVerbatim(cfg, outer);
    var s := Render(cfg, outer).value;
    TagTwice(s, s[|OpenTag|..]);
  }

  lemma {:induction false} TagTwice(s: string, t: string)
    requires |s| >= |OpenTag| && s[..|OpenTag|] == OpenTag && s[|OpenTag|..] == t
    requires |t| >= |OpenTag| && t[..|OpenTag|] == OpenTag
    ensures |s| >= 2 * |OpenTag| && s[..2 * |OpenTag|] == OpenTag + OpenTag
  {
    var k := |OpenTag|;
    assert s == OpenTag + t by { assert s == s[..k] + s[k..]; }
    assert s[..2 * k] == OpenTag + t[..k];
  }

  /** A bodiless method as the body makes the file fail with that method's
      name. */
  lemma {:induction false} MethodWithoutBodyFails(cfg: Config, strictTypes: bool, name: string, visibility: string)
    ensures Render(cfg, SetBody(SetStrictTypes(Create(), strictTypes), MethodNode(MethodGenerator.Create(name, visibility))))
         == Err(NullMethodBody(name))
  {
  }

  /** Setting the strict-types flag or the body twice keeps only the second
      value. */
  lemma {:induction false} LastWriteWins(f: File, a: bool, b: bool, g: Generator, h: Generator)
    ensures SetStrictTypes(SetStrictTypes(f, a), b) == SetStrictTypes(f, b)
    ensures SetBody(SetBody(f, g), h) == SetBody(f, h)
  {
  }
}
