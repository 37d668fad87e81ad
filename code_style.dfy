/**
 * The style fixers of `fix_code_style.py`, as text transformations behind the file I/O.
 *
 * Each fixer takes the file's content and returns the content it would write, or None when it
 * writes nothing; its boolean result is whether it wrote. The file is read once per fixer, so
 * `process_file` threads the content from one fixer to the next.
 */
module CodeStyle {
  import opened Optional
  import opened Text

  // ---------------------------------------------------------------- add_newline_at_end

  /** `add_newline_at_end`: the content to write, or None when the file is left alone. */
  function AddNewlineAtEnd(content: string): (written: Option<string>)
    ensures written.Some? <==> content != "" && !EndsWith(content, "\n")
    ensures written.Some? ==> written.value == content + "\n"
  {
    if content != "" && !EndsWith(content, "\n") then Some(content + "\n") else None
  }

  /** After the fix, non-empty content ends in a newline and a second run writes nothing. */
  lemma AddNewlineIdempotent(content: string)
    ensures var after := AddNewlineAtEnd(content).GetOr(content);
      AddNewlineAtEnd(after).None? && (after != "" ==> EndsWith(after, "\n"))
  {
    var after := AddNewlineAtEnd(content).GetOr(content);
    if AddNewlineAtEnd(content).Some? {
      assert after[|after| - 1..] == "\n";
    }
  }

  // ---------------------------------------------------------------- readlines

  /** `f.readlines()`: the pieces of `s`, each ending just after a newline, the last possibly not. */
  function ReadLines(s: string): (r: seq<string>)
    ensures forall k :: 0 <= k < |r| ==> LineShaped(r[k])
    ensures forall k :: 0 <= k < |r| - 1 ==> EndsInNewline(r[k])
    decreases |s|
  {
    if s == [] then []
    else match IndexOfChar(s, '\n')
      case None => [s]
      case Some(i) => [s[..i + 1]] + ReadLines(s[i + 1..])
  }

  predicate EndsInNewline(line: string) {
    line != [] && line[|line| - 1] == '\n'
  }

  /** A piece of `readlines`: non-empty, with no newline except possibly as its last character. */
  predicate LineShaped(line: string) {
    line != [] && forall j :: 0 <= j < |line| - 1 ==> line[j] != '\n'
  }

  /** `writelines(readlines())` writes back exactly what was read. */
  lemma {:induction false} ConcatReadLines(s: string)
    ensures Concat(ReadLines(s)) == s
    decreases |s|
  {
    if s != [] {
      match IndexOfChar(s, '\n')
      case None =>
      case Some(i) =>
        ConcatReadLines(s[i + 1..]);
        assert s == s[..i + 1] + s[i + 1..];
    }
  }

  /** A list of line-shaped pieces, all but the last ending in a newline, is read back unchanged. */
  lemma {:induction false} ReadLinesConcat(lines: seq<string>)
    requires forall k :: 0 <= k < |lines| ==> LineShaped(lines[k])
    requires forall k :: 0 <= k < |lines| - 1 ==> EndsInNewline(lines[k])
    ensures ReadLines(Concat(lines)) == lines
  {
    if lines != [] {
      var first, tail := lines[0], lines[1..];
      assert Concat(lines) == first + Concat(tail);
      if EndsInNewline(first) {
        assert forall k :: 0 <= k < |tail| ==> tail[k] == lines[k + 1];
        ReadLinesConcat(tail);
        ReadLinesFirst(first, Concat(tail));
        assert lines == [first] + tail;
      } else {
        assert |lines| == 1 && Concat(tail) == [];
        assert Concat(lines) == first;
        ReadLinesLast(first);
      }
    }
  }

  /** A piece ending in its only newline is the first piece read. */
  lemma ReadLinesFirst(first: string, rest: string)
    requires LineShaped(first) && EndsInNewline(first)
    ensures ReadLines(first + rest) == [first] + ReadLines(rest)
  {
    var s := first + rest;
    forall k | 0 <= k < |first| - 1 ensures s[k] != '\n' {
      assert s[k] == first[k];
    }
    assert s[|first| - 1] == '\n';
    assert IndexOfChar(s, '\n') == Some(|first| - 1);
    assert s[..|first|] == first && s[|first|..] == rest;
  }

  /** A piece with no newline is read as the only piece. */
  lemma ReadLinesLast(last: string)
    requires LineShaped(last) && !EndsInNewline(last)
    ensures ReadLines(last) == [last]
  {
    assert IndexOfChar(last, '\n') == None;
  }

  // ---------------------------------------------------------------- remove_trailing_whitespace

  // ---------------------------------------------------------------- the line loop

  /** Each line replaced by what `rewrite` gives for it, when it gives something. */
  function Rewritten(lines: seq<string>, rewrite: string -> Option<string>): (r: seq<string>)
    ensures |r| == |lines| && forall k :: 0 <= k < |lines| ==> r[k] == rewrite(lines[k]).GetOr(lines[k])
  {
    if lines == [] then [] else [rewrite(lines[0]).GetOr(lines[0])] + Rewritten(lines[1..], rewrite)
  }

  /** `rewrite` fires on some line. */
  ghost predicate Fires(lines: seq<string>, rewrite: string -> Option<string>) {
    exists k :: 0 <= k < |lines| && rewrite(lines[k]).Some?
  }

  /**
   * The loop both line fixers run: `for i, line in enumerate(lines)`, overwriting `lines[i]` when
   * a rule fires on it and setting `modified`.
   */
  method RewriteLines(lines: seq<string>, rewrite: string -> Option<string>) returns (out: seq<string>, modified: bool)
    ensures out == Rewritten(lines, rewrite)
    ensures modified <==> Fires(lines, rewrite)
  {
    out := lines;
    modified := false;
    var i := 0;
    while i < |out|
      invariant 0 <= i <= |out| == |lines|
      invariant forall k :: 0 <= k < i ==> out[k] == rewrite(lines[k]).GetOr(lines[k])
      invariant forall k :: i <= k < |out| ==> out[k] == lines[k]
      invariant modified <==> exists k :: 0 <= k < i && rewrite(lines[k]).Some?
    {
      var fixed := rewrite(out[i]);
      if fixed.Some? {
        out := out[i := fixed.value];
        modified := true;
      }
      i := i + 1;
    }
  }

  // ---------------------------------------------------------------- remove_trailing_whitespace

  /** `line.rstrip() != line`. */
  predicate Trailing(line: string) {
    RStrip(line) != line
  }

  /** The loop body of `remove_trailing_whitespace` for one line: `line.rstrip() + '\n'` when it fires. */
  function TrimLine(line: string): Option<string> {
    if Trailing(line) then Some(RStrip(line) + "\n") else None
  }

  function CleanLine(line: string): string {
    TrimLine(line).GetOr(line)
  }

  function CleanLines(lines: seq<string>): (r: seq<string>)
    ensures |r| == |lines| && forall k :: 0 <= k < |lines| ==> r[k] == CleanLine(lines[k])
  {
    Rewritten(lines, TrimLine)
  }

  /** What the fixer writes when it writes: the cleaned lines, concatenated. */
  function CleanContent(content: string): string {
    Concat(CleanLines(ReadLines(content)))
  }

  /** Some line changes: the condition under which `modified` is set. */
  ghost predicate HasTrailingSpace(content: string) {
    var lines := ReadLines(content);
    exists k :: 0 <= k < |lines| && Trailing(lines[k])
  }

  /**
   * `remove_trailing_whitespace`: rewrites every line whose `rstrip()` differs from it, and
   * writes the file with `writelines` only when some line was rewritten.
   */
  method RemoveTrailingWhitespace(content: string) returns (written: Option<string>)
    ensures written.Some? <==> HasTrailingSpace(content)
    ensures written.Some? ==> written.value == CleanContent(content)
  {
    var lines := ReadLines(content);
    var modified;
    lines, modified := RewriteLines(lines, TrimLine);
    assert modified <==> HasTrailingSpace(content) by {
      var input := ReadLines(content);
      if modified {
        var k :| 0 <= k < |input| && TrimLine(input[k]).Some?;
        assert Trailing(input[k]);
      }
    }
    if modified {
      written := Some(Concat(lines));
    } else {
      written := None;
    }
  }

  lemma RStripSpaceSuffix(x: string, c: char)
    requires IsSpace(c)
    ensures RStrip(x + [c]) == RStrip(x)
  {
    assert (x + [c])[..|x|] == x;
  }

  lemma RStripClean(r: string)
    requires r == [] || !IsSpace(r[|r| - 1])
    ensures RStrip(r) == r
  {
  }

  /**
   * A cleaned line is either free of trailing whitespace, or ends in exactly one newline with no
   * whitespace before it; cleaning it again leaves it as it is.
   */
  lemma CleanLineShape(line: string)
    ensures var c := CleanLine(line);
      c == RStrip(c) || (EndsInNewline(c) && RStrip(c) == c[..|c| - 1])
    ensures CleanLine(CleanLine(line)) == CleanLine(line)
  {
    var r := RStrip(line);
    if r != line {
      RStripSpaceSuffix(r, '\n');
      RStripClean(r);
      assert (r + "\n")[..|r|] == r;
    }
  }

  lemma {:induction false} CleanLinesShaped(lines: seq<string>)
    requires forall k :: 0 <= k < |lines| ==> LineShaped(lines[k])
    requires forall k :: 0 <= k < |lines| - 1 ==> EndsInNewline(lines[k])
    ensures var c := CleanLines(lines);
      (forall k :: 0 <= k < |c| ==> LineShaped(c[k])) && (forall k :: 0 <= k < |c| - 1 ==> EndsInNewline(c[k]))
  {
    var c := CleanLines(lines);
    forall k | 0 <= k < |c| ensures LineShaped(c[k]) && (k < |c| - 1 ==> EndsInNewline(c[k])) {
      var l := lines[k];
      var r := RStrip(l);
      if r != l {
        assert r == l[..|r|] && |r| < |l|;
        forall j | 0 <= j < |r| ensures r[j] != '\n' {
          if j == |l| - 1 { assert false; }
          assert r[j] == l[j];
        }
        assert c[k] == r + "\n";
      }
      if k < |c| - 1 {
        assert IsSpace(l[|l| - 1]);
        assert r != l;
      }
    }
  }

  /** Running the fixer on its own output yields the same content again. */
  lemma CleanContentIdempotent(content: string)
    ensures CleanContent(CleanContent(content)) == CleanContent(content)
  {
    var lines := ReadLines(content);
    var c := CleanLines(lines);
    CleanLinesShaped(lines);
    ReadLinesConcat(c);
    assert ReadLines(Concat(c)) == c;
    forall k | 0 <= k < |c| ensures CleanLines(c)[k] == c[k] {
      CleanLineShape(lines[k]);
    }
    assert CleanLines(c) == c;
  }

  /**
   * `rstrip()` strips the newline as well, so every line that ends in a newline counts as
   * trailing whitespace: any content holding a newline is reported modified.
   */
  lemma NewlineCountsAsTrailingSpace(content: string, i: nat)
    requires i < |content| && content[i] == '\n'
    ensures HasTrailingSpace(content)
  {
    var lines := ReadLines(content);
    ConcatReadLines(content);
    var k := LineHolding(lines, i);
    var l := lines[k];
    assert l[|l| - 1] == '\n';
    assert RStrip(l) != l;
  }

  /** The line of `readlines()` a newline at index `i` ends. */
  lemma {:induction false} LineHolding(lines: seq<string>, i: nat) returns (k: nat)
    requires forall k :: 0 <= k < |lines| ==> LineShaped(lines[k])
    requires i < |Concat(lines)| && Concat(lines)[i] == '\n'
    ensures k < |lines| && EndsInNewline(lines[k])
  {
    var first := lines[0];
    assert Concat(lines) == first + Concat(lines[1..]);
    if i < |first| {
      assert first[i] == '\n';
      k := 0;
    } else {
      assert Concat(lines[1..])[i - |first|] == '\n';
      var k' := LineHolding(lines[1..], i - |first|);
      k := k' + 1;
    }
  }

  /** On content without a line to fix, the fixer would write back exactly what it read. */
  lemma CleanContentUnchanged(content: string)
    requires !HasTrailingSpace(content)
    ensures CleanContent(content) == content
  {
    var lines := ReadLines(content);
    ConcatReadLines(content);
    assert CleanLines(lines) == lines;
  }

  // ---------------------------------------------------------------- fix_long_lines

  const MaxLength: nat := 120

  /**
   * `re.search(r'f"([^"]*)"', line)`: the position of the first `f"` and the text up to the next
   * double quote, when there is one. A later `f"` cannot match if the first has no closing quote.
   */
  function FStringMatch(line: string): (r: Option<(nat, string)>)
    ensures r.Some? ==> MatchAt(line, "f\"", r.value.0)
    ensures r.Some? ==> var (k, text) := r.value;
      k + 3 + |text| <= |line| && line[k + 2..k + 2 + |text|] == text && line[k + 2 + |text|] == '"'
      && forall j :: k + 2 <= j < k + 2 + |text| ==> line[j] != '"'
  {
    match IndexOf(line, "f\"")
    case None => None
    case Some(k) =>
      match IndexOfChar(line[k + 2..], '"')
      case None => None
      case Some(q) => Some((k, line[k + 2..k + 2 + q]))
  }

  /** The literal replacing `f"TEXT"`: `f"FIRST. " f"REST"`. */
  function SplitFString(first: string, rest: string): string {
    "f\"" + first + ". \" f\"" + rest + "\""
  }

  /** The f-string branch of `fix_long_lines` for a long line with a single `f"`. */
  function FixFString(line: string): (r: Option<string>)
    ensures r.Some? ==>
      FStringMatch(line).Some? && |FStringMatch(line).value.1| > 50 && |Split(FStringMatch(line).value.1, ". ")| > 1
  {
    match FStringMatch(line)
    case None => None
    case Some((_, text)) =>
      if |text| <= 50 then None
      else
        var parts := Split(text, ". ");
        if |parts| <= 1 then None
        else Some(Replace(line, "f\"" + text + "\"", SplitFString(parts[0], Join(parts[1..], ". "))))
  }

  /** The two new literals hold, between them, exactly the text of the old one. */
  lemma FStringPartsRejoin(text: string)
    requires |Split(text, ". ")| > 1
    ensures var parts := Split(text, ". "); parts[0] + ". " + Join(parts[1..], ". ") == text
  {
    JoinSplit(text, ". ");
  }

  /**
   * With a single `f"` in the line, `replace` rewrites only the matched literal: the text before
   * and after it is kept.
   */
  lemma FixFStringSplices(line: string)
    requires CountPair(line, 'f', '"') == 1 && FixFString(line).Some?
    ensures var (k, text) := FStringMatch(line).value;
      var parts := Split(text, ". ");
      FixFString(line).value
        == line[..k] + SplitFString(parts[0], Join(parts[1..], ". ")) + line[k + 3 + |text|..]
  {
    var (k, text) := FStringMatch(line).value;
    var parts := Split(text, ". ");
    var pat := "f\"" + text + "\"";
    LiteralOnlyOnce(line, k, text);
    ReplaceOnce(line, pat, SplitFString(parts[0], Join(parts[1..], ". ")), k);
  }

  /** The literal `f"TEXT"` found at `k` occurs nowhere else in a line with a single `f"`. */
  lemma LiteralOnlyOnce(line: string, k: nat, text: string)
    requires CountPair(line, 'f', '"') == 1 && MatchAt(line, "f\"", k)
    requires k + 3 + |text| <= |line| && line[k + 2..k + 2 + |text|] == text && line[k + 2 + |text|] == '"'
    ensures var pat := "f\"" + text + "\"";
      MatchAt(line, pat, k) && forall j: nat :: j != k ==> !MatchAt(line, pat, j)
  {
    var pat := "f\"" + text + "\"";
    LiteralAt(line, k, text);
    forall j: nat | j != k ensures !MatchAt(line, pat, j) {
      if MatchAt(line, pat, j) {
        LiteralOpens(line, j, text);
        if j < k {
          CountPairTwo(line, 'f', '"', j, k);
        } else {
          CountPairTwo(line, 'f', '"', k, j);
        }
      }
    }
  }

  /** The pieces `f"`, `TEXT` and `"` found in a row at `k` make the literal `f"TEXT"` there. */
  lemma LiteralAt(line: string, k: nat, text: string)
    requires MatchAt(line, "f\"", k)
    requires k + 3 + |text| <= |line| && line[k + 2..k + 2 + |text|] == text && line[k + 2 + |text|] == '"'
    ensures MatchAt(line, "f\"" + text + "\"", k)
  {
    var n := 3 + |text|;
    assert line[k..k + n] == line[k..k + 2] + line[k + 2..k + 2 + |text|] + line[k + 2 + |text|..k + n];
  }

  /** Where the literal `f"TEXT"` occurs, so does `f"`. */
  lemma LiteralOpens(line: string, j: nat, text: string)
    requires MatchAt(line, "f\"" + text + "\"", j)
    ensures MatchAt(line, ['f', '"'], j)
  {
    var pat := "f\"" + text + "\"";
    assert line[j..j + 2] == line[j..j + |pat|][..2] == pat[..2] == ['f', '"'];
  }

  /**
   * The logger branch of `fix_long_lines`, entered when the line has no single `f"`: it fires only
   * on a logging call whose text, from `logger.` to the last `)`, is longer than the limit less 20.
   */
  function FixLogger(line: string, maxLength: nat): (r: Option<string>)
    ensures r.Some? ==> Contains(line, "logger.info(") || Contains(line, "logger.warning(") || Contains(line, "logger.error(")
    ensures r.Some? ==> |line| > maxLength - 20
  {
    if !(Contains(line, "logger.") && (Contains(line, "logger.info(") || Contains(line, "logger.warning(") || Contains(line, "logger.error("))) then None
    else
      var start := IndexOf(line, "logger.").value;
      match LastIndexOfChar(line, ')')
      case None => None
      case Some(end) =>
        var logContent := if end + 1 <= start then "" else line[start..end + 1];
        if |logContent| <= maxLength - 20 then None
        else
          var parts := Split(logContent, " + ");
          if |parts| <= 1 then None
          else
            var at := match IndexOf(line, "logger") case Some(a) => a case None => 0;
            var indent := Spaces(if at >= 4 then at - 4 else 0);
            Some(RStrip(indent + parts[0] + "\n" + Continuations(parts[1..], indent)))
  }

  /** The continuation lines the logger branch appends, one per further part. */
  function Continuations(parts: seq<string>, indent: string): string {
    if parts == [] then "" else indent + "    + " + parts[0] + "\n" + Continuations(parts[1..], indent)
  }

  /** The loop body of `fix_long_lines` for one line: the new line when a rewrite fires. */
  function FixLine(line: string, maxLength: nat): (r: Option<string>)
    ensures |line| <= maxLength ==> r.None?
    ensures r.Some? && Contains(line, "f\"") && CountPair(line, 'f', '"') == 1 ==> r == FixFString(line)
  {
    if |line| <= maxLength then None
    else if Contains(line, "f\"") && CountPair(line, 'f', '"') == 1 then FixFString(line)
    else FixLogger(line, maxLength)
  }

  function FixLines(lines: seq<string>, maxLength: nat): (r: seq<string>)
    ensures |r| == |lines|
    ensures forall k :: 0 <= k < |lines| ==> r[k] == FixLine(lines[k], maxLength).GetOr(lines[k])
  {
    Rewritten(lines, line => FixLine(line, maxLength))
  }

  /** Some line of the content has a rewrite that fires. */
  ghost predicate HasLongLineFix(content: string, maxLength: nat) {
    Fires(Split(content, "\n"), line => FixLine(line, maxLength))
  }

  /**
   * `fix_long_lines`: splits the content at newlines, rewrites each line a rule fires on, and
   * writes the lines joined by newlines only when some rule fired.
   */
  method FixLongLines(content: string, maxLength: nat) returns (written: Option<string>)
    ensures written.Some? <==> HasLongLineFix(content, maxLength)
    ensures written.Some? ==> written.value == Join(FixLines(Split(content, "\n"), maxLength), "\n")
  {
    var lines := Split(content, "\n");
    var modified;
    lines, modified := RewriteLines(lines, line => FixLine(line, maxLength));
    if modified {
      written := Some(Join(lines, "\n"));
    } else {
      written := None;
    }
  }

  /** Lines no longer than the limit are never rewritten, so such content is never written. */
  lemma ShortLinesUnchanged(content: string, maxLength: nat)
    requires forall k :: 0 <= k < |Split(content, "\n")| ==> |Split(content, "\n")[k]| <= maxLength
    ensures !HasLongLineFix(content, maxLength)
    ensures Join(FixLines(Split(content, "\n"), maxLength), "\n") == content
  {
    var lines := Split(content, "\n");
    assert FixLines(lines, maxLength) == lines;
    assert !Fires(lines, line => FixLine(line, maxLength));
    JoinSplit(content, "\n");
  }

  // ---------------------------------------------------------------- check_unused_imports

  predicate IsImportLine(line: string) {
    StartsWith(line, "import ") || StartsWith(line, "from ")
  }

  /** A stripped line the scan checks for uses: non-empty, not a comment, not an import. */
  predicate IsCodeLine(line: string) {
    line != "" && !StartsWith(line, "#") && !IsImportLine(line)
  }

  /** The name the scan looks for, for an import statement: None when neither form applies. */
  function ModuleName(imp: string): Option<string> {
    if Contains(imp, "import ") then
      SplitManyIffContains(imp, "import ");
      Some(Strip(Split(Split(imp, "import ")[1], " as ")[0]))
    else if Contains(imp, "from ") && Contains(imp, " import ") then
      SplitManyIffContains(imp, " import ");
      Some(Strip(Split(Split(imp, "from ")[1], " import ")[0]))
    else None
  }

  /**
   * The `from ... import` branch is never taken: a statement holding " import " holds "import ",
   * so the name is always the text after the first "import ".
   */
  lemma FromBranchUnreachable(imp: string)
    requires Contains(imp, " import ")
    ensures Contains(imp, "import ")
  {
    var k := IndexOf(imp, " import ").value;
    assert imp[k + 1..k + 8] == imp[k..k + 8][1..];
    ContainsAt(imp, "import ", k + 1);
  }

  /** The stripped lines the scan works on. */
  function StrippedLines(content: string): (r: seq<string>)
    ensures |r| == |Split(content, "\n")|
    ensures forall k :: 0 <= k < |r| ==> r[k] == Strip(Split(content, "\n")[k])
  {
    StripAll(Split(content, "\n"))
  }

  function StripAll(lines: seq<string>): (r: seq<string>)
    ensures |r| == |lines| && forall k :: 0 <= k < |lines| ==> r[k] == Strip(lines[k])
  {
    seq(|lines|, k requires 0 <= k < |lines| => Strip(lines[k]))
  }

  /** The import statements among `lines`, in order. */
  function Imports(lines: seq<string>): seq<string> {
    if lines == [] then []
    else Imports(lines[..|lines| - 1]) + (if IsImportLine(lines[|lines| - 1]) then [lines[|lines| - 1]] else [])
  }

  /** Module `m` is named by an import at line `q` and occurs in a code line `c` after it, both before `upTo`. */
  ghost predicate UsedBefore(lines: seq<string>, name: string -> Option<string>, m: string, upTo: int) {
    exists q, c :: 0 <= q < c < upTo && c < |lines| && IsImportLine(lines[q]) && name(lines[q]) == Some(m)
      && IsCodeLine(lines[c]) && Contains(lines[c], m)
  }

  /** The imports whose name is not used, in order. */
  ghost function Unused(imports: seq<string>, lines: seq<string>, name: string -> Option<string>): seq<string> {
    if imports == [] then []
    else
      var imp := imports[|imports| - 1];
      Unused(imports[..|imports| - 1], lines, name)
        + (if name(imp).Some? && !UsedBefore(lines, name, name(imp).value, |lines|) then [imp] else [])
  }

  /**
   * `check_unused_imports`: collects the import statements, marks a name used when a later code
   * line contains it, and reports the imports whose name was never marked.
   */
  method CheckUnusedImports(content: string) returns (flagged: seq<string>)
    ensures flagged == Unused(Imports(StrippedLines(content)), StrippedLines(content), ModuleName)
  {
    flagged := ScanImports(StrippedLines(content), ModuleName);
  }

  /** The two loops of the scan over the stripped lines, for the name `name` gives each import. */
  method ScanImports(lines: seq<string>, name: string -> Option<string>) returns (flagged: seq<string>)
    ensures flagged == Unused(Imports(lines), lines, name)
  {
    var imports: seq<string> := [];
    var used: set<string> := {};
    var i := 0;
    while i < |lines|
      invariant 0 <= i <= |lines|
      invariant imports == Imports(lines[..i])
      invariant forall m :: m in used <==> UsedBefore(lines, name, m, i)
    {
      var line := lines[i];
      ImportsStep(lines, i);
      if IsImportLine(line) {
        imports := imports + [line];
        UsedBeforeSkip(lines, name, i);
      } else if line != "" && !StartsWith(line, "#") {
        used := MarkUsed(lines, name, i, imports, used);
      } else {
        UsedBeforeSkip(lines, name, i);
      }
      i := i + 1;
    }
    assert lines[..|lines|] == lines;
    flagged := [];
    var j := 0;
    while j < |imports|
      invariant 0 <= j <= |imports|
      invariant flagged == Unused(imports[..j], lines, name)
    {
      var n := name(imports[j]);
      if n.Some? && n.value !in used {
        flagged := flagged + [imports[j]];
      }
      assert imports[..j + 1][..j] == imports[..j];
      j := j + 1;
    }
    assert imports[..|imports|] == imports;
  }

  lemma ImportsStep(lines: seq<string>, i: nat)
    requires i < |lines|
    ensures Imports(lines[..i + 1]) == Imports(lines[..i]) + (if IsImportLine(lines[i]) then [lines[i]] else [])
  {
    assert lines[..i + 1][..i] == lines[..i];
  }

  /** A line that is not code marks nothing used. */
  lemma UsedBeforeSkip(lines: seq<string>, name: string -> Option<string>, i: nat)
    requires i < |lines| && !IsCodeLine(lines[i])
    ensures forall m :: UsedBefore(lines, name, m, i + 1) <==> UsedBefore(lines, name, m, i)
  {
    forall m | UsedBefore(lines, name, m, i + 1) ensures UsedBefore(lines, name, m, i) {
      var q, c :| 0 <= q < c < i + 1 && c < |lines| && IsImportLine(lines[q]) && name(lines[q]) == Some(m)
        && IsCodeLine(lines[c]) && Contains(lines[c], m);
      assert c != i;
    }
  }

  /** Every import statement in `Imports(lines[..i])` is an import line of `lines` before `i`. */
  lemma {:induction false} ImportsFrom(lines: seq<string>, i: nat, t: nat) returns (q: nat)
    requires i <= |lines| && t < |Imports(lines[..i])|
    ensures q < i && lines[q] == Imports(lines[..i])[t] && IsImportLine(lines[q])
  {
    var pre := lines[..i - 1];
    assert lines[..i][..i - 1] == pre;
    if t < |Imports(pre)| {
      q := ImportsFrom(lines, i - 1, t);
    } else {
      q := i - 1;
    }
  }

  /** Every import line of `lines` before `i` appears in `Imports(lines[..i])`. */
  lemma {:induction false} ImportsHas(lines: seq<string>, i: nat, q: nat) returns (t: nat)
    requires q < i <= |lines| && IsImportLine(lines[q])
    ensures t < |Imports(lines[..i])| && Imports(lines[..i])[t] == lines[q]
  {
    var pre := lines[..i - 1];
    assert lines[..i][..i - 1] == pre;
    if q < i - 1 {
      t := ImportsHas(lines, i - 1, q);
    } else {
      t := |Imports(pre)|;
    }
  }

  /** One of `imports` names `m` and `line` contains it. */
  ghost predicate UsedIn(imports: seq<string>, line: string, name: string -> Option<string>, m: string) {
    exists t :: 0 <= t < |imports| && name(imports[t]) == Some(m) && Contains(line, m)
  }

  /** The inner loop of the scan: marks the names of `imports` that the code line `lines[i]` contains. */
  method MarkUsed(lines: seq<string>, name: string -> Option<string>, i: nat, imports: seq<string>, used: set<string>) returns (used': set<string>)
    requires i < |lines| && IsCodeLine(lines[i]) && imports == Imports(lines[..i])
    requires forall m :: m in used <==> UsedBefore(lines, name, m, i)
    ensures forall m :: m in used' <==> UsedBefore(lines, name, m, i + 1)
  {
    var line := lines[i];
    used' := used;
    var j := 0;
    while j < |imports|
      invariant 0 <= j <= |imports|
      invariant forall m :: m in used' <==> (UsedBefore(lines, name, m, i) || UsedIn(imports[..j], line, name, m))
    {
      var n := name(imports[j]);
      if n.Some? && Contains(line, n.value) && n.value !in used' {
        used' := used' + {n.value};
      }
      UsedInStep(imports, j, line, name);
      j := j + 1;
    }
    assert imports[..|imports|] == imports;
    UsedAfterCodeLine(lines, name, i, imports);
  }

  /** One more import is one more name a line may use. */
  lemma UsedInStep(imports: seq<string>, j: nat, line: string, name: string -> Option<string>)
    requires j < |imports|
    ensures forall m :: (UsedIn(imports[..j + 1], line, name, m)
      <==> (UsedIn(imports[..j], line, name, m) || (name(imports[j]) == Some(m) && Contains(line, m))))
  {
    forall m
      ensures UsedIn(imports[..j + 1], line, name, m)
        <==> (UsedIn(imports[..j], line, name, m) || (name(imports[j]) == Some(m) && Contains(line, m)))
    {
      if UsedIn(imports[..j + 1], line, name, m) {
        var t :| 0 <= t < j + 1 && name(imports[..j + 1][t]) == Some(m) && Contains(line, m);
        if t < j { assert imports[..j + 1][t] == imports[..j][t]; }
      }
      if UsedIn(imports[..j], line, name, m) {
        var t :| 0 <= t < j && name(imports[..j][t]) == Some(m) && Contains(line, m);
        assert imports[..j + 1][t] == imports[..j][t];
      }
      if name(imports[j]) == Some(m) && Contains(line, m) {
        assert imports[..j + 1][j] == imports[j];
      }
    }
  }

  /** A code line uses, besides what was used before it, the names of the imports above it that it contains. */
  lemma UsedAfterCodeLine(lines: seq<string>, name: string -> Option<string>, i: nat, imports: seq<string>)
    requires i < |lines| && IsCodeLine(lines[i]) && imports == Imports(lines[..i])
    ensures forall m :: (UsedBefore(lines, name, m, i + 1)
      <==> (UsedBefore(lines, name, m, i) || UsedIn(imports, lines[i], name, m)))
  {
    var line := lines[i];
    forall m ensures UsedBefore(lines, name, m, i + 1) <==> (UsedBefore(lines, name, m, i) || UsedIn(imports, line, name, m)) {
      if UsedIn(imports, line, name, m) {
        var t :| 0 <= t < |imports| && name(imports[t]) == Some(m) && Contains(line, m);
        var q := ImportsFrom(lines, i, t);
        assert UsedBefore(lines, name, m, i + 1);
      }
      if UsedBefore(lines, name, m, i + 1) && !UsedBefore(lines, name, m, i) {
        var q, c :| 0 <= q < c < i + 1 && c < |lines| && IsImportLine(lines[q]) && name(lines[q]) == Some(m)
          && IsCodeLine(lines[c]) && Contains(lines[c], m);
        assert c == i;
        var t := ImportsHas(lines, i, q);
        assert UsedIn(imports, line, name, m);
      }
      if UsedBefore(lines, name, m, i) {
        var q, c :| 0 <= q < c < i && c < |lines| && IsImportLine(lines[q]) && name(lines[q]) == Some(m)
          && IsCodeLine(lines[c]) && Contains(lines[c], m);
        assert UsedBefore(lines, name, m, i + 1);
      }
    }
  }

  /**
   * A name that only one import statement gives is reported exactly when no code line after that
   * statement contains it.
   */
  lemma UnusedSingle(lines: seq<string>, q: nat, m: string)
    requires q < |lines| && IsImportLine(lines[q]) && ModuleName(lines[q]) == Some(m)
    requires forall q' :: 0 <= q' < |lines| && IsImportLine(lines[q']) && ModuleName(lines[q']) == Some(m) ==> q' == q
    ensures lines[q] in Unused(Imports(lines), lines, ModuleName)
      <==> forall c :: q < c < |lines| && IsCodeLine(lines[c]) ==> !Contains(lines[c], m)
  {
    assert lines[..|lines|] == lines;
    var t := ImportsHas(lines, |lines|, q);
    UnusedMember(Imports(lines), lines, ModuleName, lines[q]);
    UsedBeforeSingle(lines, q, m);
  }

  /** A name only the import at `q` gives is used exactly when a code line after `q` contains it. */
  lemma UsedBeforeSingle(lines: seq<string>, q: nat, m: string)
    requires q < |lines| && IsImportLine(lines[q]) && ModuleName(lines[q]) == Some(m)
    requires forall q' :: 0 <= q' < |lines| && IsImportLine(lines[q']) && ModuleName(lines[q']) == Some(m) ==> q' == q
    ensures UsedBefore(lines, ModuleName, m, |lines|)
      <==> !forall c :: q < c < |lines| && IsCodeLine(lines[c]) ==> !Contains(lines[c], m)
  {
    if UsedBefore(lines, ModuleName, m, |lines|) {
      var q', c :| 0 <= q' < c < |lines| && c < |lines| && IsImportLine(lines[q']) && ModuleName(lines[q']) == Some(m)
        && IsCodeLine(lines[c]) && Contains(lines[c], m);
      assert q' == q;
    }
    if !forall c :: q < c < |lines| && IsCodeLine(lines[c]) ==> !Contains(lines[c], m) {
      var c :| q < c < |lines| && IsCodeLine(lines[c]) && Contains(lines[c], m);
      assert UsedBefore(lines, ModuleName, m, |lines|);
    }
  }

  /** An import is reported exactly when it is one of `imports`, has a name, and that name is unused. */
  lemma {:induction false} UnusedMember(imports: seq<string>, lines: seq<string>, name: string -> Option<string>, imp: string)
    ensures imp in Unused(imports, lines, name)
      <==> imp in imports && name(imp).Some? && !UsedBefore(lines, name, name(imp).value, |lines|)
  {
    if imports != [] {
      var init := imports[..|imports| - 1];
      UnusedMember(init, lines, name, imp);
      assert imports == init + [imports[|imports| - 1]];
    }
  }

  // ---------------------------------------------------------------- process_file

  /**
   * `process_file`: runs the three fixers in turn on the file, each on what the previous one
   * left, then the import scan; returns how many fixers wrote, the final content and the report.
   */
  method ProcessFile(content: string) returns (changes: nat, final: string, flagged: seq<string>)
    ensures changes <= 3
    ensures var c1 := AddNewlineAtEnd(content).GetOr(content);
      var c2 := if HasTrailingSpace(c1) then CleanContent(c1) else c1;
      var c3 := if HasLongLineFix(c2, MaxLength) then Join(FixLines(Split(c2, "\n"), MaxLength), "\n") else c2;
      && final == c3
      && changes == (if AddNewlineAtEnd(content).Some? then 1 else 0) + (if HasTrailingSpace(c1) then 1 else 0)
           + (if HasLongLineFix(c2, MaxLength) then 1 else 0)
      && flagged == Unused(Imports(StrippedLines(c3)), StrippedLines(c3), ModuleName)
  {
    changes := 0;
    var current := content;
    var w1 := AddNewlineAtEnd(current);
    if w1.Some? {
      current := w1.value;
      changes := changes + 1;
    }
    var w2 := RemoveTrailingWhitespace(current);
    if w2.Some? {
      current := w2.value;
      changes := changes + 1;
    }
    var w3 := FixLongLines(current, MaxLength);
    if w3.Some? {
      current := w3.value;
      changes := changes + 1;
    }
    flagged := CheckUnusedImports(current);
    final := current;
  }
}
