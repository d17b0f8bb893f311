/**
  The PHP built-ins the generators are written with: `trim`, `rtrim`,
  `implode`, `str_repeat`, `ucfirst`, and the line structure of a string
  that multi-line PCRE patterns (`/m`) see.  A `char` stands for one byte of
  a PHP string, and `PHP_EOL` is "\n".
*/
module Php {

  /** The bytes `trim` and `rtrim` strip when no character list is given. */
  predicate IsTrimChar(c: char) {
    c == ' ' || c == '\t' || c == '\n' || c == '\r' || c == '\0' || c == '\U{0B}'
  }

  /** The bytes matched by `\s` in a PCRE pattern without the `u` modifier. */
  predicate IsPcreSpace(c: char) {
    c == ' ' || '\t' <= c <= '\r'
  }

  predicate AllTrimChars(s: string) {
    forall i :: 0 <= i < |s| ==> IsTrimChar(s[i])
  }

  lemma {:induction false} AllTrimCharsConcat(a: string, b: string)
    requires AllTrimChars(a) && AllTrimChars(b)
    ensures AllTrimChars(a + b)
  {
    forall i | 0 <= i < |a + b| ensures IsTrimChar((a + b)[i]) {
      if i >= |a| {
        assert (a + b)[i] == b[i - |a|];
      }
    }
  }

  lemma {:induction false} ConcatAssoc(a: string, b: string, c: string)
    ensures a + (b + c) == (a + b) + c
  {
  }

  /** The two halves of a concatenation. */
  lemma {:induction false} ConcatParts(a: string, b: string)
    ensures (a + b)[..|a|] == a && (a + b)[|a|..] == b
  {
  }

  // ---------------------------------------------------------------------
  // trim / rtrim
  // ---------------------------------------------------------------------

  /** `rtrim($s)`: the longest prefix of `s` that does not end in a trim byte. */
  function RTrim(s: string): (r: string)
    ensures |r| <= |s| && r == s[..|r|]
    ensures |r| > 0 ==> !IsTrimChar(r[|r| - 1])
    decreases |s|
  {
    if |s| > 0 && IsTrimChar(s[|s| - 1]) then RTrim(s[..|s| - 1]) else s
  }

  /** What `rtrim` cuts off is made of trim bytes only. */
  lemma {:induction false} RTrimCutsTrimBytes(s: string)
    ensures forall i :: |RTrim(s)| <= i < |s| ==> IsTrimChar(s[i])
    decreases |s|
  {
    if |s| > 0 && IsTrimChar(s[|s| - 1]) {
      var s' := s[..|s| - 1];
      RTrimCutsTrimBytes(s');
      forall i | |RTrim(s)| <= i < |s| - 1 ensures IsTrimChar(s[i]) {
        assert s[i] == s'[i];
      }
    }
  }

  /** The part of `trim` that strips the front. */
  function LTrim(s: string): (r: string)
    ensures |r| <= |s| && r == s[|s| - |r|..]
    ensures |r| > 0 ==> !IsTrimChar(r[0])
    decreases |s|
  {
    if |s| > 0 && IsTrimChar(s[0]) then LTrim(s[1..]) else s
  }

  /** What `ltrim` cuts off is made of trim bytes only. */
  lemma {:induction false} LTrimCutsTrimBytes(s: string)
    ensures forall i :: 0 <= i < |s| - |LTrim(s)| ==> IsTrimChar(s[i])
    decreases |s|
  {
    if |s| > 0 && IsTrimChar(s[0]) {
      var s' := s[1..];
      LTrimCutsTrimBytes(s');
      forall i | 1 <= i < |s| - |LTrim(s)| ensures IsTrimChar(s[i]) {
        assert s[i] == s'[i - 1];
      }
    }
  }

  /** `trim($s)`: strips trim bytes from both ends. */
  function Trim(s: string): (r: string)
    ensures |r| > 0 ==> !IsTrimChar(r[0]) && !IsTrimChar(r[|r| - 1])
  {
    var l := LTrim(s);
    var r := RTrim(l);
    assert |r| > 0 ==> r[0] == l[0];
    r
  }

  /** A string with a byte `trim` keeps does not trim to nothing. */
  lemma {:induction false} TrimKeepsKeptByte(s: string, k: nat)
    requires k < |s| && !IsTrimChar(s[k])
    ensures |Trim(s)| > 0
  {
    var l := LTrim(s);
    LTrimCutsTrimBytes(s);
    var cut := |s| - |l|;
    assert l[k - cut] == s[k];
    RTrimKeepsUpTo(l, k - cut);
  }

  /** `rtrim` is determined by its contract: any split of `s` into a part
      that does not end in a trim byte and a tail of trim bytes is the one
      `rtrim` makes. */
  lemma {:induction false} RTrimUnique(s: string, a: string, b: string)
    requires s == a + b
    requires AllTrimChars(b)
    requires |a| > 0 ==> !IsTrimChar(a[|a| - 1])
    ensures RTrim(s) == a
    decreases |b|
  {
    if |b| > 0 {
      assert s[|s| - 1] == b[|b| - 1];
      assert s[..|s| - 1] == a + b[..|b| - 1];
      RTrimUnique(s[..|s| - 1], a, b[..|b| - 1]);
    } else {
      assert s == a;
    }
  }

  /** The mirror image of `RTrimUnique` for the front. */
  lemma {:induction false} LTrimUnique(s: string, a: string, b: string)
    requires s == a + b
    requires AllTrimChars(a)
    requires |b| > 0 ==> !IsTrimChar(b[0])
    ensures LTrim(s) == b
    decreases |a|
  {
    if |a| > 0 {
      assert s[0] == a[0];
      assert s[1..] == a[1..] + b;
      LTrimUnique(s[1..], a[1..], b);
    } else {
      assert s == b;
    }
  }

  /** `rtrim` keeps every byte up to and including a kept byte. */
  lemma {:induction false} RTrimKeepsUpTo(s: string, k: nat)
    requires k < |s| && !IsTrimChar(s[k])
    ensures |RTrim(s)| > k && RTrim(s)[k] == s[k]
  {
    var r := RTrim(s);
    RTrimCutsTrimBytes(s);
  }

  /** A byte that `rtrim` keeps shields everything before it. */
  lemma {:induction false} RTrimAfterKeptByte(a: string, b: string)
    requires |a| > 0 && !IsTrimChar(a[|a| - 1])
    ensures RTrim(a + b) == a + RTrim(b)
  {
    var rb := RTrim(b);
    RTrimCutsTrimBytes(b);
    assert b == rb + b[|rb|..];
    RTrimUnique(a + b, a + rb, b[|rb|..]);
  }

  /** When the tail holds a kept byte, `rtrim` only looks at the tail. */
  lemma {:induction false} RTrimOfContentTail(a: string, b: string)
    requires exists i :: 0 <= i < |b| && !IsTrimChar(b[i])
    ensures RTrim(a + b) == a + RTrim(b)
  {
    var rb := RTrim(b);
    RTrimCutsTrimBytes(b);
    var i :| 0 <= i < |b| && !IsTrimChar(b[i]);
    RTrimKeepsUpTo(b, i);
    assert b == rb + b[|rb|..];
    assert a + b == (a + rb) + b[|rb|..];
    RTrimUnique(a + b, a + rb, b[|rb|..]);
  }

  /** `rtrim` of a string of trim bytes followed by more trim bytes. */
  lemma {:induction false} RTrimOfTrimTail(a: string, b: string)
    requires AllTrimChars(b)
    ensures RTrim(a + b) == RTrim(a)
  {
    var ra := RTrim(a);
    RTrimCutsTrimBytes(a);
    AllTrimCharsConcat(a[|ra|..], b);
    assert a == ra + a[|ra|..];
    assert a + b == ra + (a[|ra|..] + b);
    RTrimUnique(a + b, ra, a[|ra|..] + b);
  }

  /** A front byte that `trim` keeps shields everything after it. */
  lemma {:induction false} LTrimBeforeKeptByte(a: string, b: string)
    requires |a| > 0 && !IsTrimChar(a[0])
    ensures LTrim(a + b) == a + b
  {
    LTrimUnique(a + b, "", a + b);
  }

  /** When the head holds a kept byte, `ltrim` only looks at the head. */
  lemma {:induction false} LTrimOfContentHead(a: string, b: string)
    requires exists i :: 0 <= i < |a| && !IsTrimChar(a[i])
    ensures LTrim(a + b) == LTrim(a) + b
    decreases |a|
  {
    if IsTrimChar(a[0]) {
      var i :| 0 <= i < |a| && !IsTrimChar(a[i]);
      assert a[1..][i - 1] == a[i];
      assert (a + b)[1..] == a[1..] + b;
      LTrimOfContentHead(a[1..], b);
    }
  }

  /** A head made only of trim bytes disappears under `ltrim`. */
  lemma {:induction false} LTrimOfTrimHead(a: string, b: string)
    requires AllTrimChars(a)
    ensures LTrim(a + b) == LTrim(b)
    decreases |a|
  {
    if |a| == 0 {
      assert a + b == b;
    } else {
      assert (a + b)[0] == a[0];
      assert (a + b)[1..] == a[1..] + b;
      LTrimOfTrimHead(a[1..], b);
    }
  }

  /** `ltrim` only removes bytes. */
  lemma {:induction false} LTrimBytes(s: string, c: char)
    requires c in LTrim(s)
    ensures c in s
  {
    var l := LTrim(s);
    var i :| 0 <= i < |l| && l[i] == c;
    assert s[|s| - |l| + i] == c;
  }

  /** `ltrim` of "<t> <rest>" when `rest` starts with a kept byte: a head
      of trim bytes goes away together with the space, any other head
      only loses its leading trim bytes. */
  lemma {:induction false} LTrimPastSpace(t: string, rest: string)
    requires |rest| > 0 && !IsTrimChar(rest[0])
    ensures LTrim(t + (" " + rest)) == (if AllTrimChars(t) then "" else LTrim(t) + " ") + rest
  {
    if AllTrimChars(t) {
      AllTrimCharsConcat(t, " ");
      ConcatAssoc(t, " ", rest);
      LTrimOfTrimHead(t + " ", rest);
      LTrimUnique(rest, "", rest);
      assert "" + rest == rest;
    } else {
      LTrimOfContentHead(t, " " + rest);
      ConcatAssoc(LTrim(t), " ", rest);
    }
  }

  // ---------------------------------------------------------------------
  // implode
  // ---------------------------------------------------------------------

  /** `implode($separator, $parts)`. */
  function Join(parts: seq<string>, separator: string): (r: string)
    ensures |parts| == 0 ==> r == ""
    ensures |parts| == 1 ==> r == parts[0]
    decreases |parts|
  {
    if |parts| == 0 then ""
    else if |parts| == 1 then parts[0]
    else parts[0] + separator + Join(parts[1..], separator)
  }

  /** Appending a part puts exactly one separator before it. */
  lemma {:induction false} JoinAppend(parts: seq<string>, last: string, separator: string)
    requires |parts| > 0
    ensures Join(parts + [last], separator) == Join(parts, separator) + separator + last
    decreases |parts|
  {
    var all := parts + [last];
    if |parts| == 1 {
      assert all[1..] == [last];
    } else {
      assert all[1..] == parts[1..] + [last];
      JoinAppend(parts[1..], last, separator);
    }
  }

  /** Every byte of a join is a byte of a part or of the separator. */
  lemma {:induction false} JoinBytes(parts: seq<string>, separator: string, c: char)
    requires c in Join(parts, separator)
    ensures c in separator || exists i :: 0 <= i < |parts| && c in parts[i]
    decreases |parts|
  {
    if |parts| >= 2 {
      var rest := Join(parts[1..], separator);
      assert Join(parts, separator) == parts[0] + separator + rest;
      if c !in parts[0] && c !in separator {
        JoinBytes(parts[1..], separator, c);
        var i :| 0 <= i < |parts[1..]| && c in parts[1..][i];
        assert c in parts[i + 1];
      }
    }
  }

  // ---------------------------------------------------------------------
  // Lines, as multi-line PCRE patterns see them
  // ---------------------------------------------------------------------

  /** The lines of `s`: the maximal newline-free runs, including the empty
      line after a trailing newline. */
  function Lines(s: string): (ls: seq<string>)
    ensures |ls| >= 1
    ensures forall i :: 0 <= i < |ls| ==> '\n' !in ls[i]
    decreases |s|
  {
    if |s| == 0 then [""]
    else
      var rest := Lines(s[1..]);
      if s[0] == '\n' then [""] + rest
      else [[s[0]] + rest[0]] + rest[1..]
  }

  lemma {:induction false} JoinTwoOrMore(parts: seq<string>, separator: string)
    requires |parts| >= 2
    ensures Join(parts, separator) == parts[0] + separator + Join(parts[1..], separator)
  {
  }

  /** Joining the lines with newlines gives the string back. */
  lemma {:induction false} JoinLines(s: string)
    ensures Join(Lines(s), "\n") == s
    decreases |s|
  {
    if |s| > 0 {
      var rest := Lines(s[1..]);
      JoinLines(s[1..]);
      var ls := Lines(s);
      if s[0] == '\n' {
        assert ls == [""] + rest;
        assert ls[1..] == rest;
        JoinTwoOrMore(ls, "\n");
        assert s == "\n" + s[1..];
      } else if |rest| == 1 {
        assert ls == [[s[0]] + rest[0]];
        assert s == [s[0]] + s[1..];
      } else {
        assert ls[1..] == rest[1..];
        JoinTwoOrMore(ls, "\n");
        JoinTwoOrMore(rest, "\n");
        assert s == [s[0]] + s[1..];
      }
    }
  }

  /** A newline-free string is a single line. */
  lemma {:induction false} LinesOfOneLine(a: string)
    requires '\n' !in a
    ensures Lines(a) == [a]
    decreases |a|
  {
    if |a| > 0 {
      assert '\n' !in a[1..] by {
        forall i | 0 <= i < |a[1..]| ensures a[1..][i] != '\n' {
          assert a[1..][i] == a[i + 1];
        }
      }
      LinesOfOneLine(a[1..]);
      assert a == [a[0]] + a[1..];
    }
  }

  /** A newline ends the first line and the rest splits on its own. */
  lemma {:induction false} LinesAfterNewline(a: string, t: string)
    requires '\n' !in a
    ensures Lines(a + "\n" + t) == [a] + Lines(t)
    decreases |a|
  {
    var s := a + "\n" + t;
    if |a| == 0 {
      assert s[1..] == t;
    } else {
      assert '\n' !in a[1..] by {
        forall i | 0 <= i < |a[1..]| ensures a[1..][i] != '\n' {
          assert a[1..][i] == a[i + 1];
        }
      }
      assert s[1..] == a[1..] + "\n" + t;
      LinesAfterNewline(a[1..], t);
      assert a == [a[0]] + a[1..];
    }
  }

  /** Splitting at a newline splits the line list there. */
  lemma {:induction false} LinesOfConcat(a: string, b: string)
    ensures Lines(a + "\n" + b) == Lines(a) + Lines(b)
  {
    var la := Lines(a);
    var lb := Lines(b);
    var all := la + lb;
    JoinLines(a);
    JoinLines(b);
    JoinConcat(la, lb, "\n");
    forall i | 0 <= i < |all| ensures '\n' !in all[i] {
      if i < |la| {
        assert all[i] == la[i];
      } else {
        assert all[i] == lb[i - |la|];
      }
    }
    LinesOfJoin(all);
  }

  /** Joining two non-empty lists puts one separator between their joins. */
  lemma {:induction false} JoinConcat(x: seq<string>, y: seq<string>, separator: string)
    requires |x| > 0 && |y| > 0
    ensures Join(x + y, separator) == Join(x, separator) + separator + Join(y, separator)
    decreases |x|
  {
    var xy := x + y;
    assert xy[0] == x[0];
    if |x| == 1 {
      assert xy[1..] == y;
    } else {
      assert xy[1..] == x[1..] + y;
      JoinConcat(x[1..], y, separator);
    }
  }

  lemma {:induction false} SeqAssoc<T>(x: seq<T>, y: seq<T>, z: seq<T>)
    ensures x + (y + z) == (x + y) + z
  {
  }

  /** Whatever `rtrim` strips after a block that ends in a byte it keeps
      and is followed by a newline, the lines up to and including the
      block come first once the closing `\n}\n` is appended. */
  lemma {:induction false} TrimmedBlockLines(a: string, b: string, s: string) returns (tail: seq<string>)
    requires |b| > 0 && !IsTrimChar(b[|b| - 1])
    requires |s| > 0 && s[0] == '\n'
    ensures Lines(RTrim(a + "\n" + b + s) + "\n}\n") == Lines(a) + Lines(b) + tail
  {
    var x := a + "\n" + b;
    assert x[|x| - 1] == b[|b| - 1];
    RTrimAfterKeptByte(x, s);
    var t := RTrim(s);
    var r := t + "\n}\n";
    assert r[0] == '\n' by {
      if |t| > 0 {
        assert t[0] == s[0];
      }
    }
    var rest := r[1..];
    assert r == "\n" + rest;
    TrimmedSplit(a, b, t, rest);
    LinesOfConcat(a, b + "\n" + rest);
    LinesOfConcat(b, rest);
    tail := Lines(rest);
    SeqAssoc(Lines(a), Lines(b), tail);
  }

  lemma {:induction false} TrimmedSplit(a: string, b: string, t: string, rest: string)
    requires t + "\n}\n" == "\n" + rest
    ensures (a + "\n" + b) + t + "\n}\n" == a + "\n" + (b + "\n" + rest)
  {
    SeqAssoc(a + "\n" + b, t, "\n}\n");
  }

  /** Splitting newline-joined newline-free lines gives the lines back. */
  lemma {:induction false} LinesOfJoin(ls: seq<string>)
    requires |ls| >= 1
    requires forall i :: 0 <= i < |ls| ==> '\n' !in ls[i]
    ensures Lines(Join(ls, "\n")) == ls
    decreases |ls|
  {
    if |ls| == 1 {
      LinesOfOneLine(ls[0]);
    } else {
      JoinTwoOrMore(ls, "\n");
      LinesAfterNewline(ls[0], Join(ls[1..], "\n"));
      LinesOfJoin(ls[1..]);
      assert ls == [ls[0]] + ls[1..];
    }
  }

  /** The last line of a string that does not end in a newline is not
      empty and ends in the string's last byte. */
  lemma {:induction false} LastLineEnds(s: string)
    requires |s| > 0 && s[|s| - 1] != '\n'
    ensures var ls := Lines(s); |ls[|ls| - 1]| > 0 && ls[|ls| - 1][|ls[|ls| - 1]| - 1] == s[|s| - 1]
    decreases |s|
  {
    if |s| > 1 {
      LastLineEnds(s[1..]);
    }
  }

  // ---------------------------------------------------------------------
  // str_repeat, ucfirst
  // ---------------------------------------------------------------------

  /** `str_repeat($unit, $times)`. */
  function Repeat(unit: string, times: nat): (r: string)
    ensures |r| == |unit| * times
    ensures forall c :: c in r ==> c in unit
  {
    if times == 0 then "" else unit + Repeat(unit, times - 1)
  }

  /** The ASCII upper-case of a byte; other bytes are unchanged. */
  function AsciiUpper(c: char): char {
    if 'a' <= c <= 'z' then (c as int - 32) as char else c
  }

  /** `ucfirst($s)`: upper-cases the first byte (ASCII only), keeping the rest. */
  function UcFirst(s: string): (r: string)
    ensures |r| == |s|
    ensures |s| > 0 ==> r[0] == AsciiUpper(s[0]) && r[1..] == s[1..]
  {
    if |s| == 0 then "" else [AsciiUpper(s[0])] + s[1..]
  }
}
