/**
  `Util`: the helpers every generator renders through — the identifier
  predicate, `export` (with `Expression` as an escape hatch around
  `var_export`), the indenter and `group`.
*/
module Util {
  import opened Wrappers
  import opened Php

  /** A PHP value that is not an `Expression`.  Only the difference between
      `null` and everything else is ever inspected by the generators. */
  datatype PhpValue = Null | Bool(b: bool) | Int(i: int) | Str(s: string)

  /** What a generator stores as a default or constant value: an
      `Expression`, held as the text `sprintf('%s', …)` makes of the value it
      wraps, or a plain PHP value. */
  datatype Value = Raw(text: string) | Plain(v: PhpValue)

  /** The process-wide state a render reads: `Util::$indentChar`,
      `Util::$indentWidth`, and PHP's `var_export`, which is not modelled
      and so is supplied from outside. */
  datatype Config = Config(indentChar: string, indentWidth: nat, varExport: PhpValue -> string)

  /** The settings `Util` starts with: four spaces per level. */
  function DefaultConfig(varExport: PhpValue -> string): (cfg: Config)
    ensures cfg.indentChar == " " && cfg.indentWidth == 4 && cfg.varExport == varExport
  {
    Config(" ", 4, varExport)
  }

  /** What a render can throw: under `strict_types`, passing a method's unset
      (`null`) body to `Util::indent(string $code)` is a `TypeError`; a body
      generator written outside the library may throw anything of its own. */
  datatype RenderError =
    | NullMethodBody(methodName: string)
    | Thrown(message: string)

  // ---------------------------------------------------------------------
  // isValidIdentifier
  // ---------------------------------------------------------------------

  /** `[a-zA-Z_\x7f-\xff]` */
  predicate IsIdentifierStart(c: char) {
    ('a' <= c <= 'z') || ('A' <= c <= 'Z') || c == '_' || ('\U{7F}' <= c <= '\U{FF}')
  }

  /** `[a-zA-Z0-9_\x7f-\xff]` */
  predicate IsIdentifierPart(c: char) {
    IsIdentifierStart(c) || ('0' <= c <= '9')
  }

  /** `s` is exactly one word of the identifier grammar. */
  predicate IsIdentifierWord(s: string) {
    && |s| > 0
    && IsIdentifierStart(s[0])
    && forall i :: 1 <= i < |s| ==> IsIdentifierPart(s[i])
  }

  /** The strings `/^[a-zA-Z_\x7f-\xff][a-zA-Z0-9_\x7f-\xff]*$/` matches.
      Without the `D` modifier, `$` also matches before a newline that ends
      the subject, so a word followed by one "\n" is accepted too. */
  predicate MatchesIdentifierPattern(s: string) {
    || IsIdentifierWord(s)
    || (|s| > 0 && s[|s| - 1] == '\n' && IsIdentifierWord(s[..|s| - 1]))
  }

  /** `Util::isValidIdentifier`: one scan over the subject. */
  method IsValidIdentifier(identifier: string) returns (valid: bool)
    ensures valid <==> MatchesIdentifierPattern(identifier)
    ensures |identifier| == 0 ==> !valid
    ensures |identifier| > 0 && !IsIdentifierStart(identifier[0]) ==> !valid
    ensures '\n' !in identifier ==> (valid <==> IsIdentifierWord(identifier))
  {
    var n := |identifier|;
    if n > 0 && identifier[n - 1] == '\n' {
      n := n - 1;
    }
    if n == 0 || !IsIdentifierStart(identifier[0]) {
      return false;
    }
    var i := 1;
    while i < n
      invariant 1 <= i <= n
      invariant forall k :: 1 <= k < i ==> IsIdentifierPart(identifier[k])
    {
      if !IsIdentifierPart(identifier[i]) {
        assert !IsIdentifierWord(identifier[..n]);
        return false;
      }
      i := i + 1;
    }
    assert IsIdentifierWord(identifier[..n]);
    if n < |identifier| {
      assert identifier[..|identifier| - 1] == identifier[..n];
    } else {
      assert identifier[..n] == identifier;
    }
    return true;
  }

  // ---------------------------------------------------------------------
  // export
  // ---------------------------------------------------------------------

  /** The ` static` keyword that property and method declarations carry
      after their visibility exactly when `static()` was called. */
  function StaticKeyword(isStatic: bool): (r: string)
    ensures isStatic <==> |r| > 0
    ensures '=' !in r && '$' !in r
  {
    if isStatic then " static" else ""
  }

  /** `Util::export`: an `Expression`'s text verbatim, anything else through
      `var_export($value, true)`. */
  function Export(cfg: Config, value: Value): (r: string)
    ensures value.Raw? ==> r == value.text
    ensures value.Plain? ==> r == cfg.varExport(value.v)
  {
    match value
    case Raw(text) => text
    case Plain(v) => cfg.varExport(v)
  }

  // ---------------------------------------------------------------------
  // indent
  // ---------------------------------------------------------------------

  /** Every byte is matched by `\s`; for a line, "blank". */
  predicate IsWhitespace(s: string) {
    forall i :: 0 <= i < |s| ==> IsPcreSpace(s[i])
  }

  /** `str_repeat(self::$indentChar, self::$indentWidth * $depth)`. */
  function IndentPrefix(cfg: Config, depth: nat): (r: string)
    ensures |r| == |cfg.indentChar| * (cfg.indentWidth * depth)
    ensures forall c :: c in r ==> c in cfg.indentChar
  {
    Repeat(cfg.indentChar, cfg.indentWidth * depth)
  }

  /** The lines after `preg_replace('/^/m', $prefix, ...)`: `^` matches at
      the start of the subject and after every newline except one that ends
      the subject, so all lines are prefixed except the empty line after a
      trailing newline. */
  function PrefixLines(ls: seq<string>, prefix: string): (r: seq<string>)
    requires |ls| >= 1
    ensures |r| == |ls|
    ensures forall i :: 0 <= i < |ls| - 1 ==> r[i] == prefix + ls[i]
    ensures r[|ls| - 1] == if |ls| >= 2 && ls[|ls| - 1] == "" then "" else prefix + ls[|ls| - 1]
  {
    seq(|ls|, i requires 0 <= i < |ls| =>
      if i == |ls| - 1 && i > 0 && ls[i] == "" then "" else prefix + ls[i])
  }

  /** The lines that are not blank, in order. */
  function ContentLines(ls: seq<string>): (r: seq<string>)
    ensures |r| <= |ls|
    decreases |ls|
  {
    if |ls| == 0 then []
    else if IsWhitespace(ls[0]) then ContentLines(ls[1..])
    else [ls[0]] + ContentLines(ls[1..])
  }

  /** `ContentLines` keeps exactly the non-blank lines. */
  lemma {:induction false} ContentLinesMembers(ls: seq<string>, x: string)
    requires x in ls && !IsWhitespace(x)
    ensures x in ContentLines(ls)
    decreases |ls|
  {
    if ls[0] != x {
      assert x in ls[1..];
      ContentLinesMembers(ls[1..], x);
    }
  }

  /** `ContentLines` keeps nothing but lines of its input. */
  lemma {:induction false} ContentLinesSubset(ls: seq<string>, x: string)
    requires x in ContentLines(ls)
    ensures x in ls && !IsWhitespace(x)
    decreases |ls|
  {
    if ls[0] != x || IsWhitespace(ls[0]) {
      ContentLinesSubset(ls[1..], x);
    }
  }

  /** Leading blank lines, dropped. */
  function DropBlankLines(ls: seq<string>): (r: seq<string>)
    ensures |r| <= |ls| && r == ls[|ls| - |r|..]
    ensures |r| > 0 ==> !IsWhitespace(r[0])
    decreases |ls|
  {
    if |ls| > 0 && IsWhitespace(ls[0]) then DropBlankLines(ls[1..]) else ls
  }

  /** Only blank lines are dropped. */
  lemma {:induction false} DropKeepsContent(ls: seq<string>)
    ensures ContentLines(DropBlankLines(ls)) == ContentLines(ls)
    decreases |ls|
  {
    if |ls| > 0 && IsWhitespace(ls[0]) {
      DropKeepsContent(ls[1..]);
    }
  }

  /** What a line turns into when a run starts at it: a blank line (the
      start of a run of blank lines) becomes empty, any other line stays. */
  function RunHead(line: string): (r: string)
    ensures r == "" || !IsWhitespace(r)
  {
    if IsWhitespace(line) then "" else line
  }

  /** The lines left after the first line, or after the whole run of blank
      lines that starts at it. */
  function RunTail(ls: seq<string>): (r: seq<string>)
    requires |ls| > 0
    ensures |r| < |ls| && r == ls[|ls| - |r|..]
    ensures IsWhitespace(ls[0]) && |r| > 0 ==> !IsWhitespace(r[0])
  {
    if IsWhitespace(ls[0]) then DropBlankLines(ls[1..]) else ls[1..]
  }

  /** The lines after `preg_replace('/^\s+$/m', '', ...)`.  A match starts
      at the start of a blank line; `\s+` runs greedily across the newlines
      of the blank lines that follow and backtracks to the last newline
      before the next non-blank line (or runs to the end of the subject).
      So each maximal run of blank lines, empty ones included, becomes one
      empty line. */
  function CollapseBlankRuns(ls: seq<string>): (r: seq<string>)
    ensures |ls| > 0 ==> |r| > 0 && r[0] == RunHead(ls[0])
    decreases |ls|
  {
    if |ls| == 0 then [] else [RunHead(ls[0])] + CollapseBlankRuns(RunTail(ls))
  }

  /** Every line is empty or holds a non-blank byte. */
  predicate NoBlankLine(r: seq<string>) {
    forall i :: 0 <= i < |r| ==> r[i] == "" || !IsWhitespace(r[i])
  }

  /** No two adjacent lines are both empty. */
  predicate NoDoubleEmpty(r: seq<string>) {
    forall i :: 0 <= i < |r| - 1 ==> r[i] != "" || r[i + 1] != ""
  }

  predicate NewlineFree(r: seq<string>) {
    forall i :: 0 <= i < |r| ==> '\n' !in r[i]
  }

  /** After collapsing, every line is empty or holds a non-blank byte. */
  lemma {:induction false} CollapseLeavesNoBlank(ls: seq<string>)
    ensures NoBlankLine(CollapseBlankRuns(ls))
    decreases |ls|
  {
    if |ls| > 0 {
      CollapseLeavesNoBlank(RunTail(ls));
      ConsNoBlank(RunHead(ls[0]), CollapseBlankRuns(RunTail(ls)));
    }
  }

  lemma {:induction false} ConsNoBlank(x: string, r: seq<string>)
    requires x == "" || !IsWhitespace(x)
    requires NoBlankLine(r)
    ensures NoBlankLine([x] + r)
  {
    forall i | 1 <= i < |r| + 1 ensures ([x] + r)[i] == "" || !IsWhitespace(([x] + r)[i]) {
      assert ([x] + r)[i] == r[i - 1];
    }
  }

  /** After collapsing, no two empty lines are adjacent. */
  lemma {:induction false} CollapseNoDoubleEmpty(ls: seq<string>)
    ensures NoDoubleEmpty(CollapseBlankRuns(ls))
    decreases |ls|
  {
    if |ls| > 0 {
      var t := RunTail(ls);
      CollapseNoDoubleEmpty(t);
      if |t| > 0 {
        assert IsWhitespace(ls[0]) ==> t[0] != "" by {
          if IsWhitespace(ls[0]) {
            NonBlankIsNotEmpty(t[0]);
          }
        }
      }
      ConsNoDoubleEmpty(RunHead(ls[0]), CollapseBlankRuns(t));
    }
  }

  lemma {:induction false} NonBlankIsNotEmpty(line: string)
    requires !IsWhitespace(line)
    ensures line != "" && RunHead(line) == line
  {
  }

  lemma {:induction false} ConsNoDoubleEmpty(x: string, r: seq<string>)
    requires NoDoubleEmpty(r)
    requires x == "" && |r| > 0 ==> r[0] != ""
    ensures NoDoubleEmpty([x] + r)
  {
    forall i | 1 <= i < |r| ensures ([x] + r)[i] != "" || ([x] + r)[i + 1] != "" {
      assert ([x] + r)[i] == r[i - 1] && ([x] + r)[i + 1] == r[i];
    }
  }

  /** Collapsing introduces no newline. */
  lemma {:induction false} CollapseNoNewline(ls: seq<string>)
    requires NewlineFree(ls)
    ensures NewlineFree(CollapseBlankRuns(ls))
    decreases |ls|
  {
    if |ls| > 0 {
      var t := RunTail(ls);
      SuffixNewlineFree(ls, t);
      CollapseNoNewline(t);
      ConsNewlineFree(RunHead(ls[0]), CollapseBlankRuns(t));
    }
  }

  lemma {:induction false} ConsNewlineFree(x: string, r: seq<string>)
    requires '\n' !in x && NewlineFree(r)
    ensures NewlineFree([x] + r)
  {
    forall i | 1 <= i < |r| + 1 ensures '\n' !in ([x] + r)[i] {
      assert ([x] + r)[i] == r[i - 1];
    }
  }

  lemma {:induction false} SuffixNewlineFree(ls: seq<string>, t: seq<string>)
    requires NewlineFree(ls) && |t| <= |ls| && t == ls[|ls| - |t|..]
    ensures NewlineFree(t)
  {
    forall j | 0 <= j < |t| ensures '\n' !in t[j] {
      assert t[j] == ls[|ls| - |t| + j];
    }
  }

  /** Collapsing blank runs keeps the non-blank lines, in order. */
  lemma {:induction false} CollapseKeepsContent(ls: seq<string>)
    ensures ContentLines(CollapseBlankRuns(ls)) == ContentLines(ls)
    decreases |ls|
  {
    if |ls| > 0 {
      var t := RunTail(ls);
      CollapseKeepsContent(t);
      ContentOfCons(RunHead(ls[0]), CollapseBlankRuns(t));
      if IsWhitespace(ls[0]) {
        DropKeepsContent(ls[1..]);
      }
    }
  }

  lemma {:induction false} ContentOfCons(x: string, r: seq<string>)
    ensures ContentLines([x] + r) == if IsWhitespace(x) then ContentLines(r) else [x] + ContentLines(r)
  {
    assert ([x] + r)[1..] == r;
  }

  /** A run made only of blank lines collapses to one empty line. */
  lemma {:induction false} CollapseAllBlank(ls: seq<string>)
    requires |ls| > 0
    requires forall i :: 0 <= i < |ls| ==> IsWhitespace(ls[i])
    ensures CollapseBlankRuns(ls) == [""]
  {
    DropAllBlank(ls[1..]);
    assert RunTail(ls) == [];
  }

  lemma {:induction false} DropAllBlank(ls: seq<string>)
    requires forall i :: 0 <= i < |ls| ==> IsWhitespace(ls[i])
    ensures DropBlankLines(ls) == []
    decreases |ls|
  {
    if |ls| > 0 {
      DropAllBlank(ls[1..]);
    }
  }

  /** `ls` is not empty and its last line is `x`. */
  predicate LastLineIs(ls: seq<string>, x: string) {
    |ls| > 0 && ls[|ls| - 1] == x
  }

  /** A non-blank last line stays last. */
  lemma {:induction false} CollapseKeepsLast(ls: seq<string>, x: string)
    requires LastLineIs(ls, x) && !IsWhitespace(x)
    ensures LastLineIs(CollapseBlankRuns(ls), x)
    decreases |ls|
  {
    if |ls| == 1 {
      CollapseOneLine(ls);
    } else {
      RunTailKeepsLast(ls, x);
      CollapseKeepsLast(RunTail(ls), x);
      LastOfCons(RunHead(ls[0]), CollapseBlankRuns(RunTail(ls)), x);
    }
  }

  /** A single non-blank line is left alone. */
  lemma {:induction false} CollapseOneLine(ls: seq<string>)
    requires |ls| == 1 && !IsWhitespace(ls[0])
    ensures CollapseBlankRuns(ls) == ls
  {
    assert RunTail(ls) == [];
  }

  lemma {:induction false} RunTailKeepsLast(ls: seq<string>, x: string)
    requires |ls| > 1 && LastLineIs(ls, x) && !IsWhitespace(x)
    ensures LastLineIs(RunTail(ls), x)
  {
    var tail := ls[1..];
    assert LastLineIs(tail, x);
    if IsWhitespace(ls[0]) {
      DropKeepsLast(tail, x);
    }
  }

  /** Dropping leading blank lines keeps a non-blank last line. */
  lemma {:induction false} DropKeepsLast(ls: seq<string>, x: string)
    requires LastLineIs(ls, x) && !IsWhitespace(x)
    ensures LastLineIs(DropBlankLines(ls), x)
    decreases |ls|
  {
    if IsWhitespace(ls[0]) {
      var tail := ls[1..];
      assert LastLineIs(tail, x);
      DropKeepsLast(tail, x);
    }
  }

  lemma {:induction false} LastOfCons(h: string, r: seq<string>, x: string)
    requires LastLineIs(r, x)
    ensures LastLineIs([h] + r, x)
  {
  }

  /** `Util::indent($code, $depth)`: the two `preg_replace` passes, each
      stated on the lines of its subject. */
  function Indent(cfg: Config, code: string, depth: nat): string {
    var prefixed := Join(PrefixLines(Lines(code), IndentPrefix(cfg, depth)), "\n");
    Join(CollapseBlankRuns(Lines(prefixed)), "\n")
  }

  /** The second pass leaves no line that is whitespace without being empty,
      and never two empty lines in a row. */
  lemma {:induction false} IndentLeavesNoBlankLine(cfg: Config, code: string, depth: nat)
    ensures var ls := Lines(Indent(cfg, code, depth));
            && (forall i :: 0 <= i < |ls| ==> ls[i] == "" || !IsWhitespace(ls[i]))
            && (forall i :: 0 <= i < |ls| - 1 ==> ls[i] != "" || ls[i + 1] != "")
  {
    var prefixed := Join(PrefixLines(Lines(code), IndentPrefix(cfg, depth)), "\n");
    var c := CollapseBlankRuns(Lines(prefixed));
    CollapseNoNewline(Lines(prefixed));
    LinesOfJoin(c);
    CollapseLeavesNoBlank(Lines(prefixed));
    CollapseNoDoubleEmpty(Lines(prefixed));
  }

  /** The lines `Indent` works on after its first pass, when the indent unit
      has no newline. */
  lemma {:induction false} PrefixedLines(cfg: Config, code: string, depth: nat)
    requires '\n' !in cfg.indentChar
    ensures var pl := PrefixLines(Lines(code), IndentPrefix(cfg, depth));
            Lines(Join(pl, "\n")) == pl
    ensures Lines(Indent(cfg, code, depth))
         == CollapseBlankRuns(PrefixLines(Lines(code), IndentPrefix(cfg, depth)))
  {
    var p := IndentPrefix(cfg, depth);
    var ls := Lines(code);
    var pl := PrefixLines(ls, p);
    forall i | 0 <= i < |pl| ensures '\n' !in pl[i] {
      NoNewlineConcat(p, ls[i]);
    }
    LinesOfJoin(pl);
    CollapseNoNewline(pl);
    LinesOfJoin(CollapseBlankRuns(pl));
  }

  lemma {:induction false} NoNewlineConcat(a: string, b: string)
    requires '\n' !in a && '\n' !in b
    ensures '\n' !in a + b
  {
    forall k | 0 <= k < |a + b| ensures (a + b)[k] != '\n' {
      if k < |a| {
        assert (a + b)[k] == a[k];
      } else {
        assert (a + b)[k] == b[k - |a|];
      }
    }
  }

  /** Every input line with a non-blank byte appears in the output with
      exactly `indentWidth * depth` copies of the indent unit in front. */
  lemma {:induction false} IndentKeepsContentLines(cfg: Config, code: string, depth: nat, line: string)
    requires '\n' !in cfg.indentChar
    requires line in Lines(code) && !IsWhitespace(line)
    ensures IndentPrefix(cfg, depth) + line in Lines(Indent(cfg, code, depth))
  {
    PrefixedLines(cfg, code, depth);
    PrefixedContentKept(Lines(code), IndentPrefix(cfg, depth), line);
  }

  /** `IndentKeepsContentLines` on the line list. */
  lemma {:induction false} PrefixedContentKept(ls: seq<string>, p: string, line: string)
    requires |ls| >= 1 && line in ls && !IsWhitespace(line)
    ensures p + line in CollapseBlankRuns(PrefixLines(ls, p))
  {
    var pl := PrefixLines(ls, p);
    var i :| 0 <= i < |ls| && ls[i] == line;
    assert line != "";
    assert pl[i] == p + line;
    NotBlankAfterPrefix(p, line);
    ContentLinesMembers(pl, p + line);
    CollapseKeepsContent(pl);
    ContentLinesSubset(CollapseBlankRuns(pl), p + line);
  }

  lemma {:induction false} NotBlankAfterPrefix(p: string, line: string)
    requires !IsWhitespace(line)
    ensures !IsWhitespace(p + line)
  {
    var k :| 0 <= k < |line| && !IsPcreSpace(line[k]);
    assert (p + line)[|p| + k] == line[k];
  }

  /** With a whitespace indent unit, `indent("")` is "". */
  lemma {:induction false} IndentOfEmpty(cfg: Config, depth: nat)
    requires IsWhitespace(cfg.indentChar)
    ensures Indent(cfg, "", depth) == ""
  {
    var p := IndentPrefix(cfg, depth);
    assert Lines("") == [""];
    var pl := PrefixLines([""], p);
    assert pl[0] == p;
    assert pl == [p];
    assert IsWhitespace(p) by {
      forall i | 0 <= i < |p| ensures IsPcreSpace(p[i]) {
        assert p[i] in cfg.indentChar;
      }
    }
    LinesOfWhitespace(p);
    CollapseAllBlank(Lines(p));
  }

  /** Every line of a whitespace string is blank. */
  lemma {:induction false} LinesOfWhitespace(s: string)
    requires IsWhitespace(s)
    ensures forall i :: 0 <= i < |Lines(s)| ==> IsWhitespace(Lines(s)[i])
    decreases |s|
  {
    if |s| > 0 {
      assert IsWhitespace(s[1..]) by {
        forall i | 0 <= i < |s[1..]| ensures IsPcreSpace(s[1..][i]) {
          assert s[1..][i] == s[i + 1];
        }
      }
      LinesOfWhitespace(s[1..]);
    }
  }

  /** A single non-blank line is only prefixed. */
  lemma {:induction false} IndentOfOneLine(cfg: Config, line: string, depth: nat)
    requires '\n' !in cfg.indentChar
    requires '\n' !in line && !IsWhitespace(line)
    ensures Indent(cfg, line, depth) == IndentPrefix(cfg, depth) + line
  {
    var p := IndentPrefix(cfg, depth);
    LinesOfOneLine(line);
    PrefixedLines(cfg, line, depth);
    assert PrefixLines([line], p) == [p + line];
    var k :| 0 <= k < |line| && !IsPcreSpace(line[k]);
    assert (p + line)[|p| + k] == line[k];
    var c := CollapseBlankRuns([p + line]);
    assert c == [p + line];
    JoinLines(Indent(cfg, line, depth));
  }

  /** Lines without a blank one are left alone by the second pass. */
  lemma {:induction false} CollapseNoBlankIdentity(ls: seq<string>)
    requires forall i :: 0 <= i < |ls| ==> !IsWhitespace(ls[i])
    ensures CollapseBlankRuns(ls) == ls
    decreases |ls|
  {
    if |ls| > 0 {
      assert RunTail(ls) == ls[1..];
      CollapseNoBlankIdentity(ls[1..]);
      assert ls == [ls[0]] + ls[1..];
    }
  }

  /** A non-blank line ends any run of blank lines before it. */
  lemma {:induction false} DropSplit(a: seq<string>, b: seq<string>)
    requires |b| > 0 && !IsWhitespace(b[0])
    ensures DropBlankLines(a + b) == DropBlankLines(a) + b
    decreases |a|
  {
    if |a| == 0 {
      assert a + b == b;
    } else if IsWhitespace(a[0]) {
      assert (a + b)[1..] == a[1..] + b;
      DropSplit(a[1..], b);
    }
  }

  /** The second pass works on either side of a non-blank line
      separately. */
  lemma {:induction false} CollapseSplit(a: seq<string>, b: seq<string>)
    requires |b| > 0 && !IsWhitespace(b[0])
    ensures CollapseBlankRuns(a + b) == CollapseBlankRuns(a) + CollapseBlankRuns(b)
    decreases |a|
  {
    if |a| == 0 {
      assert a + b == b;
    } else {
      CollapseSplit(RunTail(a), b);
      CollapseSplitStep(a, b);
    }
  }

  lemma {:induction false} CollapseSplitStep(a: seq<string>, b: seq<string>)
    requires |a| > 0 && |b| > 0 && !IsWhitespace(b[0])
    requires CollapseBlankRuns(RunTail(a) + b) == CollapseBlankRuns(RunTail(a)) + CollapseBlankRuns(b)
    ensures CollapseBlankRuns(a + b) == CollapseBlankRuns(a) + CollapseBlankRuns(b)
  {
    var t := RunTail(a);
    var h := RunHead(a[0]);
    var ct := CollapseBlankRuns(t);
    var cb := CollapseBlankRuns(b);
    assert CollapseBlankRuns(a + b) == [h] + (ct + cb) by {
      RunTailSplit(a, b);
      CollapseCons(a + b);
      assert (a + b)[0] == a[0];
    }
    assert CollapseBlankRuns(a) == [h] + ct by {
      CollapseCons(a);
    }
    SeqAssoc([h], ct, cb);
  }


  /** One step of the second pass. */
  lemma {:induction false} CollapseCons(ls: seq<string>)
    requires |ls| > 0
    ensures CollapseBlankRuns(ls) == [RunHead(ls[0])] + CollapseBlankRuns(RunTail(ls))
  {
  }

  lemma {:induction false} RunTailSplit(a: seq<string>, b: seq<string>)
    requires |a| > 0 && |b| > 0 && !IsWhitespace(b[0])
    ensures RunTail(a + b) == RunTail(a) + b
  {
    assert (a + b)[1..] == a[1..] + b;
    if IsWhitespace(a[0]) {
      DropSplit(a[1..], b);
    }
  }

  /** The last line after the second pass is what a run starting at the
      last input line would become. */
  lemma {:induction false} CollapseEndsWithRunHead(ls: seq<string>)
    requires |ls| > 0
    ensures LastLineIs(CollapseBlankRuns(ls), RunHead(ls[|ls| - 1]))
    decreases |ls|
  {
    var tail := RunTail(ls);
    if |tail| > 0 {
      assert tail[|tail| - 1] == ls[|ls| - 1];
      CollapseEndsWithRunHead(tail);
      LastOfCons(RunHead(ls[0]), CollapseBlankRuns(tail), RunHead(ls[|ls| - 1]));
    } else if |ls| > 1 {
      assert IsWhitespace(ls[0]);
      DropToNothing(ls[1..]);
      assert ls[1..][|ls| - 2] == ls[|ls| - 1];
    }
  }

  /** Lines that all drop end in a blank one. */
  lemma {:induction false} DropToNothing(ls: seq<string>)
    requires |ls| > 0 && DropBlankLines(ls) == []
    ensures IsWhitespace(ls[|ls| - 1])
    decreases |ls|
  {
    if |ls| > 1 {
      assert ls[1..][|ls| - 2] == ls[|ls| - 1];
      DropToNothing(ls[1..]);
    }
  }

  /** Every line with `prefix` in front. */
  function PrefixEach(ls: seq<string>, prefix: string): (r: seq<string>)
    ensures |r| == |ls|
  {
    seq(|ls|, i requires 0 <= i < |ls| => prefix + ls[i])
  }

  /** The first pass prefixes every line before the last part in full. */
  lemma {:induction false} PrefixSplit(a: seq<string>, b: seq<string>, prefix: string)
    requires |b| >= 2 || (|b| == 1 && b[0] != "")
    ensures PrefixLines(a + b, prefix) == PrefixEach(a, prefix) + PrefixLines(b, prefix)
  {
    var l := PrefixLines(a + b, prefix);
    var r := PrefixEach(a, prefix) + PrefixLines(b, prefix);
    forall i | 0 <= i < |l| ensures l[i] == r[i] {
      if i < |a| {
        assert (a + b)[i] == a[i];
      } else {
        assert (a + b)[i] == b[i - |a|];
      }
    }
  }

  /** A block of non-blank lines, indented: each line gains the prefix and
      nothing else changes. */
  lemma {:induction false} IndentOfLines(cfg: Config, ls: seq<string>, depth: nat)
    requires '\n' !in cfg.indentChar
    requires |ls| >= 1
    requires forall i :: 0 <= i < |ls| ==> '\n' !in ls[i] && !IsWhitespace(ls[i])
    ensures Lines(Indent(cfg, Join(ls, "\n"), depth)) == PrefixEach(ls, IndentPrefix(cfg, depth))
  {
    var p := IndentPrefix(cfg, depth);
    LinesOfJoin(ls);
    PrefixedLines(cfg, Join(ls, "\n"), depth);
    NonBlankIsNotEmpty(ls[|ls| - 1]);
    var pl := PrefixLines(ls, p);
    assert pl == PrefixEach(ls, p);
    forall i | 0 <= i < |pl| ensures !IsWhitespace(pl[i]) {
      NotBlankAfterPrefix(p, ls[i]);
    }
    CollapseNoBlankIdentity(pl);
  }

  /** Splitting texts joined by an empty line: the lines of the first, an
      empty line, the lines of the rest. */
  lemma {:induction false} LinesOfSpacedJoin(texts: seq<string>)
    requires |texts| >= 2
    ensures Lines(Join(texts, "\n\n"))
         == (Lines(texts[0]) + [""]) + Lines(Join(texts[1..], "\n\n"))
  {
    var rest := Join(texts[1..], "\n\n");
    JoinTwoOrMore(texts, "\n\n");
    assert texts[0] + "\n\n" + rest == texts[0] + "\n" + ("" + "\n" + rest);
    LinesOfConcat(texts[0], "" + "\n" + rest);
    LinesOfConcat("", rest);
    assert Lines("") == [""];
  }

  /** Texts of two or more lines each, whose first lines are `heads`. */
  predicate HeadedTexts(texts: seq<string>, heads: seq<string>) {
    && |texts| == |heads|
    && forall l :: 0 <= l < |texts| ==>
         |Lines(texts[l])| >= 2 && Lines(texts[l])[0] == heads[l] && !IsWhitespace(heads[l])
  }

  lemma {:induction false} HeadedRest(texts: seq<string>, heads: seq<string>)
    requires |texts| >= 1 && HeadedTexts(texts, heads)
    ensures HeadedTexts(texts[1..], heads[1..])
  {
    forall l | 0 <= l < |texts| - 1
      ensures |Lines(texts[1..][l])| >= 2 && Lines(texts[1..][l])[0] == heads[1..][l]
              && !IsWhitespace(heads[1..][l])
    {
      assert texts[1..][l] == texts[l + 1] && heads[1..][l] == heads[l + 1];
    }
  }

  /** Joined by empty lines, the texts start with the first head and span
      two lines or more. */
  lemma {:induction false} SpacedJoinStart(texts: seq<string>, heads: seq<string>)
    requires |texts| >= 1 && HeadedTexts(texts, heads)
    ensures var ls := Lines(Join(texts, "\n\n")); |ls| >= 2 && ls[0] == heads[0]
  {
    if |texts| >= 2 {
      LinesOfSpacedJoin(texts);
    }
  }

  /** `o` lists, in increasing order, lines of `c` that read `p` followed
      by the matching head, each after the first preceded by `sep`. */
  predicate HeadsAt(c: seq<string>, o: seq<nat>, heads: seq<string>, p: string, sep: string) {
    && |o| == |heads|
    && (forall l :: 0 <= l < |o| ==> o[l] < |c| && c[o[l]] == p + heads[l])
    && (forall l :: 0 < l < |o| ==> o[l - 1] < o[l] < |c| && c[o[l] - 1] == sep)
  }

  /** Lines in front move every head down by their number. */
  lemma {:induction false} ShiftHeads(x: seq<string>, d: seq<string>, o: seq<nat>, h: string,
                                      heads: seq<string>, p: string, sep: string)
    returns (o2: seq<nat>)
    requires |x| > 0 && x[0] == p + h && x[|x| - 1] == sep
    requires |o| > 0 && o[0] == 0 && HeadsAt(d, o, heads, p, sep)
    ensures |o2| == |o| + 1 && o2[0] == 0 && HeadsAt(x + d, o2, [h] + heads, p, sep)
  {
    o2 := [0] + seq(|o|, k requires 0 <= k < |o| => |x| + o[k]);
    var c := x + d;
    forall l | 0 < l < |o2|
      ensures o2[l] < |c| && c[o2[l]] == p + ([h] + heads)[l]
              && o2[l - 1] < o2[l] < |c| && c[o2[l] - 1] == sep
    {
      assert o2[l] == |x| + o[l - 1];
      assert c[o2[l]] == d[o[l - 1]];
      if l > 1 {
        assert o[l - 2] < o[l - 1];
        assert c[o2[l] - 1] == d[o[l - 1] - 1];
      }
    }
  }

  /** The collapsed, prefixed lines of texts joined by empty lines split
      after the empty line that follows the first text; the first part
      starts with the first head and ends with what the empty line became. */
  lemma {:induction false} StackedSplit(texts: seq<string>, heads: seq<string>, p: string)
    returns (x: seq<string>)
    requires |texts| >= 2 && HeadedTexts(texts, heads)
    ensures |x| > 0 && x[0] == p + heads[0] && x[|x| - 1] == RunHead(p)
    ensures CollapseBlankRuns(PrefixLines(Lines(Join(texts, "\n\n")), p))
         == x + CollapseBlankRuns(PrefixLines(Lines(Join(texts[1..], "\n\n")), p))
  {
    HeadedRest(texts, heads);
    var a := Lines(texts[0]) + [""];
    var b := Lines(Join(texts[1..], "\n\n"));
    LinesOfSpacedJoin(texts);
    SpacedJoinStart(texts[1..], heads[1..]);
    PrefixSplit(a, b, p);
    var pa := PrefixEach(a, p);
    var pb := PrefixLines(b, p);
    assert pb[0] == p + heads[1];
    NotBlankAfterPrefix(p, heads[1]);
    CollapseSplit(pa, pb);
    x := CollapseBlankRuns(pa);
    assert pa[|pa| - 1] == p + "" == p;
    CollapseEndsWithRunHead(pa);
    assert pa[0] == p + heads[0];
    NotBlankAfterPrefix(p, heads[0]);
    NonBlankIsNotEmpty(p + heads[0]);
  }

  /** Where each text's head lands among the collapsed, prefixed lines of
      the texts joined by empty lines. */
  lemma {:induction false} StackedHeads(texts: seq<string>, heads: seq<string>, p: string) returns (o: seq<nat>)
    requires |texts| >= 1 && HeadedTexts(texts, heads)
    ensures |o| == |texts| && o[0] == 0
    ensures HeadsAt(CollapseBlankRuns(PrefixLines(Lines(Join(texts, "\n\n")), p)), o, heads, p, RunHead(p))
    decreases |texts|
  {
    if |texts| == 1 {
      o := [0];
      OneHead(texts, heads, p);
    } else {
      HeadedRest(texts, heads);
      var o1 := StackedHeads(texts[1..], heads[1..], p);
      var x := StackedSplit(texts, heads, p);
      var d := CollapseBlankRuns(PrefixLines(Lines(Join(texts[1..], "\n\n")), p));
      o := ShiftHeads(x, d, o1, heads[0], heads[1..], p, RunHead(p));
      assert [heads[0]] + heads[1..] == heads;
    }
  }

  lemma {:induction false} OneHead(texts: seq<string>, heads: seq<string>, p: string)
    requires |texts| == 1 && HeadedTexts(texts, heads)
    ensures HeadsAt(CollapseBlankRuns(PrefixLines(Lines(Join(texts, "\n\n")), p)), [0], heads, p, RunHead(p))
  {
    SpacedJoinStart(texts, heads);
    var pl := PrefixLines(Lines(Join(texts, "\n\n")), p);
    assert pl[0] == p + heads[0];
    NotBlankAfterPrefix(p, heads[0]);
    NonBlankIsNotEmpty(p + heads[0]);
  }

  /** From line `n` on, `L` holds each of `rs` with `p` in front, one per
      line, in order. */
  predicate LinesFrom(L: seq<string>, n: nat, p: string, rs: seq<string>) {
    forall i :: 0 <= i < |rs| ==> n + i < |L| && L[n + i] == p + rs[i]
  }

  /** A block of prefixed lines keeps its place behind the lines in front. */
  lemma {:induction false} LinesFromConcat(x: seq<string>, d: seq<string>, y: seq<string>, p: string, rs: seq<string>)
    requires d == PrefixEach(rs, p)
    ensures LinesFrom(x + d + y, |x|, p, rs)
  {
    var L := x + d + y;
    forall i | 0 <= i < |rs| ensures |x| + i < |L| && L[|x| + i] == p + rs[i] {
      assert L[|x| + i] == d[i];
    }
  }

  /** Lines around a block move its heads down by the number in front. */
  lemma {:induction false} ShiftedHeads(x: seq<string>, d: seq<string>, y: seq<string>, o: seq<nat>,
                                        heads: seq<string>, p: string, sep: string)
    returns (o2: seq<nat>)
    requires HeadsAt(d, o, heads, p, sep)
    ensures |o2| == |o| && (forall l :: 0 <= l < |o| ==> o2[l] == |x| + o[l])
    ensures HeadsAt(x + d + y, o2, heads, p, sep)
  {
    o2 := seq(|o|, k requires 0 <= k < |o| => |x| + o[k]);
    var c := x + d + y;
    forall l | 0 <= l < |o2| ensures o2[l] < |c| && c[o2[l]] == p + heads[l] {
      assert c[o2[l]] == d[o[l]];
    }
    forall l | 0 < l < |o2| ensures o2[l - 1] < o2[l] < |c| && c[o2[l] - 1] == sep {
      assert o[l - 1] < o[l];
      assert c[o2[l] - 1] == d[o[l] - 1];
    }
  }

  /** A whitespace indent unit makes a whitespace prefix. */
  lemma {:induction false} WhitespacePrefix(cfg: Config, depth: nat)
    requires IsWhitespace(cfg.indentChar)
    ensures IsWhitespace(IndentPrefix(cfg, depth)) && RunHead(IndentPrefix(cfg, depth)) == ""
  {
    var p := IndentPrefix(cfg, depth);
    forall i | 0 <= i < |p| ensures IsPcreSpace(p[i]) {
      assert p[i] in cfg.indentChar;
    }
  }

  /** `StackedHeads` through `Indent`: each text's head, indented, in order,
      with the indented empty line between consecutive texts. */
  lemma {:induction false} IndentedHeads(cfg: Config, texts: seq<string>, heads: seq<string>, depth: nat)
    returns (o: seq<nat>)
    requires '\n' !in cfg.indentChar
    requires |texts| >= 1 && HeadedTexts(texts, heads)
    ensures |o| == |texts| && o[0] == 0
    ensures HeadsAt(Lines(Indent(cfg, Join(texts, "\n\n"), depth)), o, heads,
                    IndentPrefix(cfg, depth), RunHead(IndentPrefix(cfg, depth)))
  {
    PrefixedLines(cfg, Join(texts, "\n\n"), depth);
    o := StackedHeads(texts, heads, IndentPrefix(cfg, depth));
  }

  /** `s` is not empty and its last byte is `b`. */
  predicate EndsWithByte(s: string, b: char) {
    |s| > 0 && s[|s| - 1] == b
  }

  /** A code block that ends in a non-blank byte still ends in that byte
      once indented. */
  lemma {:induction false} IndentKeepsLastByte(cfg: Config, code: string, depth: nat)
    requires '\n' !in cfg.indentChar
    requires |code| > 0 && !IsPcreSpace(code[|code| - 1])
    ensures EndsWithByte(Indent(cfg, code, depth), code[|code| - 1])
  {
    JoinedLastByte(code, IndentPrefix(cfg, depth));
    IndentIsJoinOfCollapsed(cfg, code, depth);
  }

  /** `IndentKeepsLastByte` for a block known to end in `b`. */
  lemma {:induction false} IndentEndsWith(cfg: Config, code: string, depth: nat, b: char)
    requires '\n' !in cfg.indentChar
    requires EndsWithByte(code, b) && !IsPcreSpace(b)
    ensures EndsWithByte(Indent(cfg, code, depth), b)
  {
    IndentKeepsLastByte(cfg, code, depth);
  }

  /** A join ends in whatever its last part ends in. */
  lemma {:induction false} JoinEndsWith(parts: seq<string>, separator: string, b: char)
    requires |parts| >= 1 && EndsWithByte(parts[|parts| - 1], b)
    ensures EndsWithByte(Join(parts, separator), b)
  {
    JoinLastByte(parts, separator);
  }

  /** `IndentKeepsLastByte` on the code and the prefix. */
  lemma {:induction false} JoinedLastByte(code: string, p: string)
    requires |code| > 0 && !IsPcreSpace(code[|code| - 1])
    ensures EndsWithByte(Join(CollapseBlankRuns(PrefixLines(Lines(code), p)), "\n"), code[|code| - 1])
  {
    var b := code[|code| - 1];
    LastLineEnds(code);
    CollapsedLastByte(Lines(code), p, b);
  }

  /** `IndentKeepsLastByte` on the line list. */
  lemma {:induction false} CollapsedLastByte(ls: seq<string>, p: string, b: char)
    requires |ls| >= 1 && EndsWithByte(ls[|ls| - 1], b) && !IsPcreSpace(b)
    ensures EndsWithByte(Join(CollapseBlankRuns(PrefixLines(ls, p)), "\n"), b)
  {
    var c := CollapseBlankRuns(PrefixLines(ls, p));
    CollapsedLastLine(ls, p, b);
    JoinOfLast(c, b);
  }

  lemma {:induction false} CollapsedLastLine(ls: seq<string>, p: string, b: char)
    requires |ls| >= 1 && EndsWithByte(ls[|ls| - 1], b) && !IsPcreSpace(b)
    ensures LastEndsWith(CollapseBlankRuns(PrefixLines(ls, p)), b)
  {
    var pl := PrefixLines(ls, p);
    var x := pl[|pl| - 1];
    PrefixedLast(ls, p, b);
    CollapseKeepsLast(pl, x);
    LastLineEndsWith(CollapseBlankRuns(pl), x, b);
  }

  lemma {:induction false} LastLineEndsWith(c: seq<string>, x: string, b: char)
    requires LastLineIs(c, x) && EndsWithByte(x, b)
    ensures LastEndsWith(c, b)
  {
  }

  /** `c` is not empty and its last line ends with `b`. */
  predicate LastEndsWith(c: seq<string>, b: char) {
    |c| > 0 && EndsWithByte(c[|c| - 1], b)
  }

  lemma {:induction false} JoinOfLast(c: seq<string>, b: char)
    requires LastEndsWith(c, b)
    ensures EndsWithByte(Join(c, "\n"), b)
  {
    JoinLastByte(c, "\n");
  }

  /** The last prefixed line is the prefix and the last line, so it ends
      with the same byte and is not blank. */
  lemma {:induction false} PrefixedLast(ls: seq<string>, p: string, b: char)
    requires |ls| >= 1 && EndsWithByte(ls[|ls| - 1], b) && !IsPcreSpace(b)
    ensures var pl := PrefixLines(ls, p); EndsWithByte(pl[|pl| - 1], b) && !IsWhitespace(pl[|pl| - 1])
  {
    var last := ls[|ls| - 1];
    var x := p + last;
    assert PrefixLines(ls, p)[|ls| - 1] == x;
    assert x[|x| - 1] == b;
  }

  /** With a newline-free indent unit, `Indent` joins the collapsed prefixed lines. */
  lemma {:induction false} IndentIsJoinOfCollapsed(cfg: Config, code: string, depth: nat)
    requires '\n' !in cfg.indentChar
    ensures Indent(cfg, code, depth)
         == Join(CollapseBlankRuns(PrefixLines(Lines(code), IndentPrefix(cfg, depth))), "\n")
  {
    PrefixedLines(cfg, code, depth);
  }

  /** A join ends with the last byte of its last part. */
  lemma {:induction false} JoinLastByte(parts: seq<string>, separator: string)
    requires |parts| >= 1 && |parts[|parts| - 1]| > 0
    ensures var j := Join(parts, separator); var last := parts[|parts| - 1];
            |j| > 0 && j[|j| - 1] == last[|last| - 1]
  {
    var n := |parts|;
    if n > 1 {
      assert parts == parts[..n - 1] + [parts[n - 1]];
      JoinAppend(parts[..n - 1], parts[n - 1], separator);
    }
  }

  // ---------------------------------------------------------------------
  // group
  // ---------------------------------------------------------------------

  /** The renders of `items`, in order. */
  function Renders<T>(items: seq<T>, render: T -> string): (r: seq<string>)
    ensures |r| == |items|
    ensures forall i :: 0 <= i < |items| ==> r[i] == render(items[i])
  {
    seq(|items|, i requires 0 <= i < |items| => render(items[i]))
  }

  /** `Util::group($group, $separator)`: the renders joined by the separator. */
  function Group<T>(items: seq<T>, render: T -> string, separator: string): (r: string)
    ensures |items| == 0 ==> r == ""
    ensures |items| == 1 ==> r == render(items[0])
  {
    Join(Renders(items, render), separator)
  }

  /** Adding an item to a group appends one separator and its render. */
  lemma {:induction false} GroupAppend<T>(items: seq<T>, item: T, render: T -> string, separator: string)
    requires |items| > 0
    ensures Group(items + [item], render, separator)
         == Group(items, render, separator) + separator + render(item)
  {
    assert Renders(items + [item], render) == Renders(items, render) + [render(item)];
    JoinAppend(Renders(items, render), render(item), separator);
  }
}
