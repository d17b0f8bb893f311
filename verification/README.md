# classistant, modelled in Dafny

classistant is a PHP library that builds PHP source text from small
generator objects. There are six generators: parameter, property, constant,
method, class and file. Each has chainable setters and a `getPhp()` that
renders it. A class renders its constants, properties and methods through
`Util::group` and `Util::indent`. A file renders an open tag, an optional
`declare(strict_types=1);` line and one body generator.

This project models the six generators and the `Util` helpers they use.
Each model is an immutable datatype. Each setter is a pure function that
returns the updated value. Each `getPhp()` is a pure function to a
string.

PHP state that the library reads globally is passed in as a `Config`
value. That state is `Util::$indentChar`, `Util::$indentWidth` and PHP's
`var_export`, which is left uninterpreted.

A method whose body was never set cannot be rendered: passing its `null`
body to `Util::indent(string)` raises a `TypeError` under strict types.
The model renders such a method to `Err(NullMethodBody(name))`. A class or
file that contains the method fails with the same error.

The modules, one per source file:

- `Php` (`php.dfy`) holds the PHP string built-ins the generators rely on:
  - `trim`, `ltrim` and `rtrim` with PHP's default character set
    (space, `\t`, `\n`, `\r`, `\0`, `\x0B`);
  - `implode`;
  - splitting text into lines.
- `Util` models `src/Util.php`:
  - `isValidIdentifier`, as a loop over the characters;
  - `export`;
  - `indent`, as the line-by-line effect of its two multi-line regular
    expressions;
  - `group`.
- `ParameterGenerator`, `PropertyGenerator`, `ConstantGenerator`,
  `MethodGenerator`, `ClassGenerator` and `FileGenerator` model the
  generators of the same names.
- `FileGenerator` also holds `Generator`, the `GeneratorInterface` values a
  file body can be: one of the six library generators, or a generator
  written outside the library. A file takes its body's text by casting it
  to a string, which calls `__toString()`. Of an outside generator the model
  knows only what that cast gave, or that it threw. Its `__toString()` need
  not call its own `getPhp()`.

The model follows the code. Where the library's documentation describes
more than the code does, the model follows the code. Specifically, the
code has:

- no abstract or final classes;
- no nullable return types;
- no identifier validation on setters;
- no "return value" mode.

Within the library, the one failure mode is the missing method body
described above, for expressions that `sprintf('%s', …)` can print (see
`Util.Export` under "## Left out"). A file body written outside the library
can also throw when cast to a string; the model passes that error through
as `Thrown(message)`.

## Model

| member | source | states |
|---|---|---|
| Util.DefaultConfig | src/Util.php:9-10 | indentation starts as four spaces per level |
| Util.IsValidIdentifier | src/Util.php:27-33 | true exactly for a letter, underscore or byte 0x7F-0xFF followed by letters, digits, underscores or such bytes. Because `$` without `D` matches before a final newline, one trailing `\n` is also accepted. The empty string and a leading digit are rejected. |
| Util.Export | src/Util.php:43-50 | an expression yields its text verbatim; any other value yields `var_export` of it |
| Util.StaticKeyword | src/PropertyGenerator.php:60 | ` static` exactly when `static()` was called, else nothing. It holds no `=` or `$`. Methods use the same keyword (src/MethodGenerator.php:164). |
| Util.Indent | src/Util.php:60-66 | `indent` as its two passes: prefix every line, then blank out whitespace-only lines. The lemmas below state what the result satisfies. |
| Util.PrefixLines | src/Util.php:62 | the first pass: every line gets the prefix, except the empty line after a final newline, where `^` with `m` does not match |
| Util.CollapseBlankRuns | src/Util.php:63 | the second pass on the line list. A line with content is kept, and a run of whitespace-only lines starts with one empty line. The Collapse lemmas below state the rest. |
| Util.IndentLeavesNoBlankLine | src/Util.php:60-66 | every line of indented text is empty or has a non-whitespace byte, and no two consecutive lines are empty |
| Util.IndentKeepsContentLines | src/Util.php:60-66 | every line of the input with a non-whitespace byte appears in the output, prefixed by `indentChar` repeated `indentWidth * depth` times |
| Util.IndentOfOneLine | src/Util.php:60-66 | one non-blank line without a newline becomes the prefix followed by that line |
| Util.IndentOfEmpty | src/Util.php:60-66 | indenting the empty string gives the empty string when the indent unit is whitespace |
| Util.IndentKeepsLastByte | src/Util.php:60-66 | text ending in a non-space byte keeps that byte as its last byte |
| Util.IndentIsJoinOfCollapsed | src/Util.php:62-63 | indent = prefix every line, blank out whitespace-only lines, join with `\n`. It reads as one pass per regular expression: a line-start match is not made at the empty line after a final newline, and a run of whitespace lines collapses to one empty line because `\s` spans newlines. |
| Util.CollapseKeepsContent | src/Util.php:63 | blanking whitespace-only lines loses no line that has content |
| Util.CollapseAllBlank | src/Util.php:63 | text made only of whitespace lines becomes a single empty line |
| Util.CollapseLeavesNoBlank | src/Util.php:63 | after the second pass every line is empty or has a non-whitespace byte |
| Util.CollapseNoDoubleEmpty | src/Util.php:63 | after the second pass no two adjacent lines are both empty, because a whole run of whitespace lines becomes one empty line |
| Util.CollapseKeepsLast | src/Util.php:63 | a last line with a non-whitespace byte is still the last line after the second pass |
| Util.CollapseNoBlankIdentity | src/Util.php:63 | the second pass leaves lines alone when none of them is whitespace-only |
| Util.CollapseSplit | src/Util.php:63 | the second pass works on the two sides of a line with content separately: no run of whitespace lines crosses it |
| Util.CollapseEndsWithRunHead | src/Util.php:63 | the last line after the second pass is what the last input line becomes: itself when it has content, empty when it is whitespace |
| Util.PrefixSplit | src/Util.php:62 | the first pass prefixes every line in front of a block that is not the bare empty line after a final newline |
| Util.IndentOfLines | src/Util.php:60-66 | indenting newline-free lines with content, joined by `\n`, gives exactly those lines, each behind the prefix, in order |
| Util.IndentedHeads | src/Util.php:60-66 | indenting texts joined by an empty line: the first line of each text appears behind the prefix, in order, and the line above each but the first is what an indented empty line becomes |
| Util.IndentEndsWith | src/Util.php:60-66 | text that ends in a byte `\s` does not match still ends in that byte after indenting |
| Util.JoinEndsWith | src/Util.php:78 | joining texts keeps the last byte of the last text as the last byte |
| Util.Group | src/Util.php:76-81 | no generators give the empty string; one generator gives its own rendering |
| Util.GroupAppend | src/Util.php:76-81 | appending a generator appends the separator and its rendering, so renderings appear in order |
| ParameterGenerator.Create | src/ParameterGenerator.php:15-24 | a new parameter has the given name and type, no default and is not variadic |
| ParameterGenerator.SetDefaultValue | src/ParameterGenerator.php:26-32 | records the default and marks it present; nothing else changes |
| ParameterGenerator.Variadic | src/ParameterGenerator.php:34-39 | marks the parameter variadic; nothing else changes |
| ParameterGenerator.Render | src/ParameterGenerator.php:41-55 | `getPhp`, computed in the form `RenderShape` proves equal to `trim` of the formatted text |
| ParameterGenerator.RenderShape | src/ParameterGenerator.php:41-55 | the rendering is `trim` of `"<type> <...>$<name>[ = <export>]"` |
| ParameterGenerator.RenderTrimmed | src/ParameterGenerator.php:54 | the rendering is non-empty, starts and ends with a non-trim byte, and contains `$` |
| ParameterGenerator.UntypedStartsWithSigil | src/ParameterGenerator.php:43-48 | without a type the rendering starts with `$`, or with `...$` when variadic |
| ParameterGenerator.VariadicMarkerIff | src/ParameterGenerator.php:43-48 | right after the type, the rendering has `...$` exactly when variadic and `$` exactly when not |
| ParameterGenerator.InitializerIffDefaultSet | src/ParameterGenerator.php:50-52 | the rendering contains `=` exactly when a default was set, even a `null` one (given no `=` in the name or type) |
| ParameterGenerator.VariadicWithDefault | src/ParameterGenerator.php:43-54 | a variadic parameter with a default renders both, and nothing rejects the combination |
| PropertyGenerator.Create | src/PropertyGenerator.php:19-29 | a new property has the given name, visibility and type, a `null` default, and is not static |
| PropertyGenerator.SetDefaultValue | src/PropertyGenerator.php:31-36 | replaces the default; nothing else changes |
| PropertyGenerator.Static | src/PropertyGenerator.php:48-53 | marks the property static; nothing else changes |
| PropertyGenerator.CreateDefaults | src/PropertyGenerator.php:19-29 | `create($name)` alone gives a public, untyped, non-static property without a default |
| PropertyGenerator.GetName | src/PropertyGenerator.php:38-41 | returns the stored name |
| PropertyGenerator.GetType | src/PropertyGenerator.php:43-46 | returns the stored type, `None` for PHP `null` |
| PropertyGenerator.AccessorsAfterMutators | src/PropertyGenerator.php:38-46 | `getName` and `getType` return what `create` received, after any mutators |
| PropertyGenerator.StaticIdempotent | src/PropertyGenerator.php:48-53 | calling `static()` twice is the same as calling it once |
| PropertyGenerator.Render | src/PropertyGenerator.php:55-71 | the declaration starts with the visibility and ends with `;` |
| PropertyGenerator.RenderText | src/PropertyGenerator.php:57-68 | the declaration is the visibility, ` static` when set, ` $<name>`, then ` = <export>` exactly when the default is not `null`, then `;` |
| PropertyGenerator.RenderParts | src/PropertyGenerator.php:57-68 | the name can be read back after ` $`. Everything between the name and the final `;` is the initializer: ` = ` and the exported default when the default is not `null`, nothing otherwise. |
| PropertyGenerator.RenderInjective | src/PropertyGenerator.php:57-68 | with the same visibility and static flag and equal-length names, two properties render alike exactly when their names and initializers agree |
| PropertyGenerator.TypeNotRendered | src/PropertyGenerator.php:55-71 | the declared type never affects the declaration |
| PropertyGenerator.NullDefaultIsNoDefault | src/PropertyGenerator.php:64-66 | a `null` default renders as `<visibility>[ static] $<name>;`, the same as no default |
| PropertyGenerator.NullExpressionRendered | src/PropertyGenerator.php:64-66 | an expression with text `null` is not `null`, so it renders as ` = null` |
| PropertyGenerator.InitializerIff | src/PropertyGenerator.php:64-66 | the declaration contains `=` exactly when the default is not `null` (given no `=` in the name or visibility) |
| PropertyGenerator.StaticIff | src/PropertyGenerator.php:57-62 | ` static ` follows the visibility exactly when `static()` was called |
| PropertyGenerator.PrivateTypedExample | src/PropertyGenerator.php:55-71 | a private `int` property `id` with no default renders as `private $id;` |
| ConstantGenerator.Create | src/ConstantGenerator.php:12-21 | `create` and the constructor store the given name and value |
| ConstantGenerator.Render | src/ConstantGenerator.php:23-26 | the text is `const <name> = `, the exported value, then `;` |
| ConstantGenerator.RenderParts | src/ConstantGenerator.php:25 | the name and the exported value can be read back out of the rendering |
| ConstantGenerator.RenderInjective | src/ConstantGenerator.php:25 | two constants with equal-length names render alike exactly when their names and exported values agree |
| ConstantGenerator.ExpressionVerbatim | src/ConstantGenerator.php:25 | an expression value appears verbatim |
| ConstantGenerator.NullValueRendered | src/ConstantGenerator.php:25 | a `null` value is still exported, unlike a property default |
| MethodGenerator.Create | src/MethodGenerator.php:27-44 | a new method has the given name and visibility. It is not static and has no parameters, return type or body. |
| MethodGenerator.DefaultVisibility | src/MethodGenerator.php:27-78 | without a visibility argument, `create`, `createGetter` and `createSetter` make public methods |
| MethodGenerator.SetVisibility | src/MethodGenerator.php:93-98 | replaces the visibility; nothing else changes |
| MethodGenerator.Static | src/MethodGenerator.php:105-110 | marks the method static; nothing else changes |
| MethodGenerator.SetReturnType | src/MethodGenerator.php:119-124 | sets the return type; nothing else changes |
| MethodGenerator.AddParameter | src/MethodGenerator.php:133-138 | appends the parameter after the existing ones; nothing else changes |
| MethodGenerator.SetBody | src/MethodGenerator.php:147-152 | sets the body; nothing else changes |
| MethodGenerator.LastWriteWins | src/MethodGenerator.php:105-152 | a second `setBody` or `setReturnType` overrides the first; `static()` is idempotent |
| MethodGenerator.CreateGetter | src/MethodGenerator.php:54-68 | the getter is named `is`/`get` + `ucfirst(name)` and returns `$this-><name>`. Its return type is the property's type, and it has no parameters. |
| MethodGenerator.GetterPrefixIff | src/MethodGenerator.php:57 | the getter's name starts with `is` exactly when the property's type is `bool` |
| MethodGenerator.CreateSetter | src/MethodGenerator.php:78-84 | the setter is named `set` + `ucfirst(name)`. It takes one parameter with the property's name and type, assigns it, and has no return type. |
| MethodGenerator.FactoriesRender | src/MethodGenerator.php:54-84 | generated getters and setters always have a body, so they always render |
| MethodGenerator.Render | src/MethodGenerator.php:159-174 | fails exactly when no body was set, naming the method. Otherwise the text is the signature, `\n{\n`, the body, then `\n}`. |
| MethodGenerator.RenderFirstLine | src/MethodGenerator.php:161-170 | the first line of a rendered method is its signature, and at least one line follows |
| MethodGenerator.SignatureNotBlank | src/MethodGenerator.php:161-168 | the signature always has a non-whitespace byte, the `f` of `function` |
| MethodGenerator.RenderedBody | src/MethodGenerator.php:169-171 | the body between the braces is the body indented one level |
| MethodGenerator.OneLineBody | src/MethodGenerator.php:169-171 | a one-line body appears as one indented line |
| MethodGenerator.Signature | src/MethodGenerator.php:161-168 | the declaration line: the visibility, ` static` when set, ` function <name>(`, the grouped parameters, `)`, and `: <type>` when a return type is set |
| MethodGenerator.ReturnTypeShown | src/MethodGenerator.php:161-168 | the signature ends with `)` when there is no return type, and with `): <type>` when there is one |
| MethodGenerator.AddParameterExtendsList | src/MethodGenerator.php:166 | adding a parameter appends `, ` and its rendering to the parameter list (the rendering alone for the first) |
| MethodGenerator.GetterSignature | src/MethodGenerator.php:54-68 | the getter's signature is `<visibility> function <name>()` followed by the return-type suffix |
| MethodGenerator.SetterSignature | src/MethodGenerator.php:78-84 | the setter's signature is `<visibility> function set<Name>(<parameter>)` |
| MethodGenerator.GetterShape | src/MethodGenerator.php:54-68 | the rendered getter is its signature and one indented `return $this-><name>;` line, in braces |
| MethodGenerator.SetterShape | src/MethodGenerator.php:78-84 | the rendered setter is its signature and one indented `$this-><name> = $<name>;` line, in braces |
| ClassGenerator.Create | src/ClassGenerator.php:18-26 | a new class has the given name and nothing else |
| ClassGenerator.SetNamespace | src/ClassGenerator.php:28-33 | sets the namespace; nothing else changes |
| ClassGenerator.Extends | src/ClassGenerator.php:35-40 | sets the parent; nothing else changes |
| ClassGenerator.Implements | src/ClassGenerator.php:42-47 | appends the interface; nothing else changes |
| ClassGenerator.Use | src/ClassGenerator.php:49-54 | appends the trait; nothing else changes |
| ClassGenerator.AddConstant | src/ClassGenerator.php:56-61 | appends the constant; nothing else changes |
| ClassGenerator.AddProperty | src/ClassGenerator.php:63-76 | appends the property. The requested getter comes first, then the setter; both are appended to the methods as public. Nothing else changes. |
| ClassGenerator.Accessors | src/ClassGenerator.php:67-73 | zero, one or two accessor methods: the getter when requested, then the setter when requested |
| ClassGenerator.AddPropertyDefaults | src/ClassGenerator.php:63 | by default both a getter and a setter are added, in that order |
| ClassGenerator.AddPropertyKeepsRenderable | src/ClassGenerator.php:63-76 | adding a property never changes whether the class renders |
| ClassGenerator.AddMethod | src/ClassGenerator.php:78-83 | appends the method; nothing else changes |
| ClassGenerator.AddMethodWithoutBody | src/ClassGenerator.php:78-83 | adding a bodiless method to a renderable class makes rendering fail with that method's name |
| ClassGenerator.RenderAll | src/Util.php:78-80 | rendering a list succeeds exactly when every item does. Item renderings keep their order, and a failure reports the first failing item's error. |
| ClassGenerator.RenderMethodsIff | src/ClassGenerator.php:117 | the methods render exactly when every method has a body. Otherwise the error names the first bodiless method. |
| ClassGenerator.Render | src/ClassGenerator.php:85-124 | a failure is the methods' failure. Otherwise the text ends with `\n}\n`. |
| ClassGenerator.RenderFailsIff | src/ClassGenerator.php:85-124 | the class renders exactly when every method has a body; otherwise the error names the first bodiless method |
| ClassGenerator.RenderShape | src/ClassGenerator.php:85-124 | the text is the header, `\n{`, the `rtrim`med block of traits, constants, properties and methods, then `\n}\n` |
| ClassGenerator.ContentBeforeClosingBrace | src/ClassGenerator.php:120-121 | the byte before the closing `\n}\n` is never a byte `rtrim` strips |
| ClassGenerator.RenderStartsWithHeader | src/ClassGenerator.php:87-104 | the text starts with the namespace line (if any) and the class line |
| ClassGenerator.HeaderStart | src/ClassGenerator.php:89-94 | the header starts with `namespace ` when a namespace is set, and with `class ` otherwise |
| ClassGenerator.NamespaceIff | src/ClassGenerator.php:89-94 | the text starts with `namespace ` exactly when a namespace was set, and with `class ` otherwise |
| ClassGenerator.FirstByte | src/ClassGenerator.php:89-94 | a rendered class starts with `n` or `c` |
| ClassGenerator.ClassLineClauses | src/ClassGenerator.php:94-102 | the class line is `class <name> `, then `extends <parent> ` exactly when a parent is set, then the implements clause |
| ClassGenerator.ImplementsOrder | src/ClassGenerator.php:100-102 | the implements clause lists interfaces in the order given, separated by `, ` |
| ClassGenerator.TraitLine | src/ClassGenerator.php:106-109 | traits render as one indented `use A, B; ` line followed by a blank line |
| ClassGenerator.EmptyInside | src/ClassGenerator.php:106-118 | a class with no traits, constants, properties or methods has only newlines between its braces before `rtrim` |
| Php.LinesOfConcat | src/ClassGenerator.php:104-118 | the lines of two texts joined by a newline are the lines of the first, then those of the second |
| Php.TrimmedBlockLines | src/ClassGenerator.php:118-121 | when a block ends in a byte `rtrim` keeps, the lines of the trimmed text with the closing brace added start with the lines in front of the block, then the block's own lines |
| ClassGenerator.UntrimmedCuts | src/ClassGenerator.php:104-118 | the text before `rtrim` is the opening part, then the constants block, then the properties block, then the methods block, each after an empty line |
| ClassGenerator.BlockStarts | src/ClassGenerator.php:104-118 | the constants block ends before the properties block starts, and the properties block ends before the methods block starts, with a line between them |
| ClassGenerator.GroupAt | src/ClassGenerator.php:111-121 | one-line statements ending in `;`, grouped and indented, sit on consecutive lines of the class text, each behind the indent unit, right after the text in front of them |
| ClassGenerator.ConstantsPlaced | src/ClassGenerator.php:111-112 | each constant's rendering, indented, sits on its own line, the constants in insertion order on consecutive lines |
| ClassGenerator.PropertiesPlaced | src/ClassGenerator.php:114-115 | each property's rendering, indented, sits on its own line, the properties in insertion order on consecutive lines |
| ClassGenerator.MethodTextsHeaded | src/MethodGenerator.php:161-171 | every rendered method spans at least two lines and starts with its signature, which is not blank |
| ClassGenerator.MethodsBlockEnds | src/ClassGenerator.php:117 | the indented methods block ends in `}`, which `rtrim` keeps |
| ClassGenerator.MethodsAt | src/ClassGenerator.php:117-121 | each method's signature line, indented, appears after the text in front of the methods, in insertion order, with one indented empty line above each method but the first |
| ClassGenerator.MethodsPlaced | src/ClassGenerator.php:117-121 | the methods render, and their signature lines land after the constants and properties, in insertion order |
| ClassGenerator.PlacedMembers | src/ClassGenerator.php:104-121 | in the trimmed text, constants, then properties, then method signatures, each indented on a line of its own and in insertion order |
| ClassGenerator.MemberLines | src/ClassGenerator.php:85-124 | in the rendered class, every constant's rendering is a line of its own behind the indent unit, on consecutive lines; then, after a gap, every property's; then, after another gap, every method's signature. The members keep their insertion order. Each method after the first has what an indented empty line becomes right above it, which is the empty line when the indent unit is whitespace. |
| ClassGenerator.EmptyClass | src/ClassGenerator.php:85-124 | a fresh class renders as `class <name> \n{\n}\n` |
| FileGenerator.Create | src/FileGenerator.php:12-15 | a new file has no strict-types line and no body |
| FileGenerator.SetStrictTypes | src/FileGenerator.php:17-22 | sets the flag; the body is unchanged |
| FileGenerator.SetBody | src/FileGenerator.php:24-29 | sets the body; the flag is unchanged |
| FileGenerator.LastWriteWins | src/FileGenerator.php:17-29 | a second `setStrictTypes` or `setBody` overrides the first |
| FileGenerator.Preamble | src/FileGenerator.php:33-39 | the preamble starts with `<?php\n\n`, and is longer than that exactly when strict types are on |
| FileGenerator.PreambleText | src/FileGenerator.php:33-39 | the two preambles are `<?php\n\n` and `<?php\n\ndeclare(strict_types=1);\n\n` |
| FileGenerator.RenderGenerator | src/GeneratorInterface.php:9-10 | among the library's generators, for printable expressions, only methods, classes and files can fail; an outside generator yields whatever its cast to a string (`__toString()`) returned or threw. A rendered file starts with the open tag; a rendered class starts with `n` or `c`. |
| FileGenerator.Render | src/FileGenerator.php:31-44 | a rendered file starts with the open tag. It fails only when the body fails, with the body's error. |
| FileGenerator.RenderOkIff | src/FileGenerator.php:24-41 | a generator renders exactly when no method inside it lacks a body and no outside generator inside it throws, at any depth of nested files |
| FileGenerator.FileRenderOkIff | src/FileGenerator.php:31-44 | a file renders exactly when its body, if any, renders |
| FileGenerator.BodyVerbatim | src/FileGenerator.php:41 | after the preamble comes the body's rendering, unchanged; with no body, nothing |
| FileGenerator.StrictTypesIff | src/FileGenerator.php:36-39 | `declare(strict_types=1);` follows the open tag exactly when strict types were requested |
| FileGenerator.ClassFile | src/FileGenerator.php:31-44 | a file holding a renderable class renders, with the strict-types line exactly when requested |
| FileGenerator.EmptyFile | src/FileGenerator.php:31-44 | a file without a body is exactly its preamble |
| FileGenerator.NestedFileRepeatsTag | src/FileGenerator.php:24-29 | a file can be the body of a file, and then the open tag appears twice |
| FileGenerator.MethodWithoutBodyFails | src/FileGenerator.php:41 | a file whose body is a bodiless method fails with that method's name |

## Left out

- `FileGenerator::writeTo` writes to the filesystem. It is I/O and is not modelled.
- `__toString` on each of the library's own generators only calls `getPhp()`. It is not modelled separately for them. A rendering failure inside `__toString` surfaces as the same `Err`.
- `var_export` is a parameter of `Config` (`varExport`), not a model of PHP's exporter. Floats, arrays and objects are not among the modelled values, because the generators only ever test a value for `null`.
- Util.Export: an `Expression` may wrap any PHP value, and `export` hands it back unchanged for `sprintf('%s', …)` to print. The model's `Raw(text)` holds the text that `sprintf` makes of the value. A value `sprintf` cannot convert is excluded: an object without `__toString` makes a constant, property or parameter render throw, and an array prints as `Array` with a warning. So with such an expression those three renders can fail too, which the model does not show.
- PCRE itself is not modelled. `Util.Indent` is the line-based effect of the two patterns it uses.
- Util.Indent: the prefix is inserted literally, so the model assumes an indent unit with no `\` and no `$`. `preg_replace` reads its replacement as a template: `\\` becomes one backslash, and `$1`, `${1}` or a backslash before a digit stand for a captured group. With `Util::$indentChar = '\\'`, PHP puts half as many backslashes in front of each line as the model does. `Util.PrefixLines` shares this assumption.
- FileGenerator.Generator: a generator written outside the library is modelled by the outcome of casting it to a string alone (`CustomNode`), that is, of its `__toString()`, which need not agree with its `getPhp()`. Its text is opaque, so no lemma says more about it than that it passes through unchanged.
- `ucfirst` upper-cases ASCII letters only. That matches PHP 8.2 and later, where `ucfirst` no longer depends on the locale.
- Visibility is any string. The `Visibility` class and the `PUBLIC`/`PRIVATE`/`PROTECTED` constants are only names for three of those strings.
- `MethodGenerator::$abstract` is declared but never read or written, so it is not modelled.
- PHP objects are shared handles, and the model's datatypes are values. `addMethod`, `addProperty`, `addConstant`, `addParameter` and `setBody` store a handle to the child object. The model stores a snapshot of the child as it was at the call. A change made to a child after it was added is seen by PHP's parent but not by the model's. For example, a method that gets its body only after `addMethod` renders in PHP, but the model's class still holds the bodiless copy and fails.
- A file cannot be made its own body: the datatypes are finite trees. In PHP, `$f->setBody($f)` makes `getPhp()` recurse without end.
- `Config.php` declares its own `$indentChar` and `$indentWidth` statics, and its constructor is private. Nothing reads them, because `Util::indent` reads `Util`'s own statics (src/Util.php:62). So `Config.php` is not part of this model; the model's `Config` stands for `Util`'s statics.
- `Util::indent`'s `$depth` and `Util::$indentWidth` are `nat`. A negative repeat count makes PHP's `str_repeat` throw, so that case is not modelled.
- `Util.IndentOfEmpty` requires a whitespace indent unit. With a non-whitespace unit, PHP's `indent("")` returns the bare prefix, which the general `Util.IndentIsJoinOfCollapsed` covers.
- `Util.IndentKeepsContentLines` and the other indent lemmas require `indentChar` to have no newline. With one, the prefix would split lines, and the lemmas would not hold as stated.
- `ParameterGenerator.InitializerIffDefaultSet` and `PropertyGenerator.InitializerIff` require that the name and type, or the name and visibility, contain no `=`. Nothing validates names, so otherwise the `=` test tells nothing.
- `ParameterGenerator.VariadicWithDefault` requires the exported value to have a non-whitespace byte. Otherwise `trim` would also cut the spaces of ` = `.
- `FileGenerator.StrictTypesIff` requires the body's rendering not to start with `d`. Otherwise an unrequested body could itself begin with `declare(strict_types=1);`.
- `ClassGenerator.TraitLine` requires trait names and `indentChar` without newlines, so that the `use` line stays one line.
- ClassGenerator.MemberLines requires an indent unit without newlines and newline-free constant renderings, property renderings and method signatures. Otherwise a member would span several lines, and no one line would hold it. It says where each method's signature lands, but not where the rest of each method's lines land.
- `ClassGenerator.EmptyClass` and `ClassGenerator.EmptyInside` require a whitespace indent unit, because indenting an empty group leaves the prefix otherwise.
