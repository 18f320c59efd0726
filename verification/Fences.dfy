/**
 Fenced code blocks as this repository prints them (`markdownCode` in homepage-llms.ts) and scans them (the same fence state in
 `guideExcerpt` and `guideMarkdownLinks` of homepage-guide.ts and in `buildHomepageExport` of homepage-export.ts).
 */
module Fences {
  import opened Wrappers
  import opened Lines

  datatype Fence = Fence(mark: char, length: nat)

  /** How often c stands at the start of s. */
  function RunLength(s: string, c: char): (n: nat)
    ensures n <= |s|
  {
    if s != "" && s[0] == c then 1 + RunLength(s[1..], c) else 0
  }

  /** The first group of `^\s*(`{3,}|~{3,})`: any indentation, then at least three backticks or tildes. */
  function Marker(line: string): Option<Fence> {
    var rest := TrimStart(line);
    if rest != "" && (rest[0] == '`' || rest[0] == '~') && RunLength(rest, rest[0]) >= 3
    then Some(Fence(rest[0], RunLength(rest, rest[0])))
    else None
  }

  /** The fence state after a line: a marker opens, and a marker of the same sort that is no shorter closes. */
  function After(fence: Option<Fence>, line: string): Option<Fence> {
    match Marker(line)
    case None => fence
    case Some(marker) =>
      if fence.None? then Some(marker)
      else if marker.mark == fence.value.mark && marker.length >= fence.value.length then None
      else fence
  }

  function AfterAll(fence: Option<Fence>, lines: seq<string>): Option<Fence>
    decreases lines
  {
    if lines == [] then fence else AfterAll(After(fence, lines[0]), lines[1..])
  }

  lemma {:induction false} AfterAllAppend(fence: Option<Fence>, a: seq<string>, b: seq<string>)
    ensures AfterAll(fence, a + b) == AfterAll(AfterAll(fence, a), b)
    decreases a
  {
    if a == [] {
      assert a + b == b;
    } else {
      assert (a + b)[1..] == a[1..] + b;
      AfterAllAppend(After(fence, a[0]), a[1..], b);
    }
  }

  function Run(mark: char, length: nat): (s: string)
    ensures |s| == length
  {
    seq(length, i => mark)
  }

  predicate IsMark(c: char) {
    c == '`' || c == '~'
  }

  lemma {:induction false} RunIsCounted(mark: char, length: nat, rest: string)
    requires rest == "" || rest[0] != mark
    ensures RunLength(Run(mark, length) + rest, mark) == length
  {
    if length == 0 {
      assert Run(mark, 0) + rest == rest;
    } else {
      assert (Run(mark, length) + rest)[1..] == Run(mark, length - 1) + rest;
      RunIsCounted(mark, length - 1, rest);
    }
  }

  lemma {:induction false} IndentIsTrimmed(indent: string, rest: string)
    requires forall i :: 0 <= i < |indent| ==> IsSpace(indent[i])
    requires rest != "" && !IsSpace(rest[0])
    ensures TrimStart(indent + rest) == rest
  {
    if indent == "" {
      assert indent + rest == rest;
    } else {
      assert (indent + rest)[1..] == indent[1..] + rest;
      IndentIsTrimmed(indent[1..], rest);
    }
  }

  /** A line is a marker of backticks or of tildes exactly if at least three of them stand behind its indentation. */
  lemma MarkerIsExact(indent: string, mark: char, length: nat, rest: string)
    requires (forall i :: 0 <= i < |indent| ==> IsSpace(indent[i])) && IsMark(mark) && length > 0
    requires rest == "" || rest[0] != mark
    ensures Marker(indent + Run(mark, length) + rest) == if length >= 3 then Some(Fence(mark, length)) else None
  {
    var marked := Run(mark, length) + rest;
    assert indent + Run(mark, length) + rest == indent + marked;
    IndentIsTrimmed(indent, marked);
    RunIsCounted(mark, length, rest);
  }

  lemma OtherLinesAreNone(indent: string, rest: string)
    requires forall i :: 0 <= i < |indent| ==> IsSpace(indent[i])
    requires rest != "" && !IsSpace(rest[0]) && !IsMark(rest[0])
    ensures Marker(indent + rest) == None
  {
    IndentIsTrimmed(indent, rest);
  }

  // ----- the line rewriter -----

  /** What is done to a line outside fences; None stands for an exception. */
  type LineRewriter = string -> Option<string>

  /** Two lists of lines one after the other, unless one of them could not be produced. */
  function Both(first: Option<seq<string>>, second: Option<seq<string>>): Option<seq<string>> {
    if first.None? || second.None? then None else Some(first.value + second.value)
  }

  function One(line: Option<string>): Option<seq<string>> {
    if line.None? then None else Some([line.value])
  }

  lemma BothLaws(a: Option<seq<string>>, b: Option<seq<string>>, c: Option<seq<string>>)
    ensures Both(a, Both(b, c)) == Both(Both(a, b), c)
    ensures Both(Some([]), a) == a && Both(a, Some([])) == a
  {
    if a.Some? {
      assert [] + a.value == a.value && a.value + [] == a.value;
      if b.Some? && c.Some? {
        assert a.value + (b.value + c.value) == (a.value + b.value) + c.value;
      }
    }
  }

  function RewriteLine(fence: Option<Fence>, line: string, rewrite: LineRewriter): Option<string> {
    if Marker(line).Some? || fence.Some? then Some(line) else rewrite(line)
  }

  function RewriteLines(fence: Option<Fence>, lines: seq<string>, rewrite: LineRewriter): Option<seq<string>>
    decreases lines
  {
    if lines == [] then Some([])
    else Both(One(RewriteLine(fence, lines[0], rewrite)), RewriteLines(After(fence, lines[0]), lines[1..], rewrite))
  }

  /** The rewriting loop of `guideMarkdownLinks` and of the Markdown branch of `buildHomepageExport`. */
  method RewriteOutsideFences(content: string, rewrite: LineRewriter) returns (result: Option<string>)
    ensures var lines := RewriteLines(None, Split(content), rewrite);
      result == if lines.None? then None else Some(Join(lines.value))
  {
    var lines := Split(content);
    var written: seq<string> := [];
    var fence: Option<Fence> := None;
    ghost var whole := RewriteLines(None, lines, rewrite);
    assert lines[0..] == lines;
    BothLaws(whole, None, None);
    for i := 0 to |lines|
      invariant whole == Both(Some(written), RewriteLines(fence, lines[i..], rewrite))
    {
      var line := lines[i];
      ghost var rest := RewriteLines(After(fence, line), lines[i + 1..], rewrite);
      BothLaws(Some(written), One(RewriteLine(fence, line, rewrite)), rest);
      assert lines[i..][1..] == lines[i + 1..];
      var marker := Marker(line);
      if marker.Some? {
        if fence.None? {
          fence := marker;
        } else if marker.value.mark == fence.value.mark && marker.value.length >= fence.value.length {
          fence := None;
        }
        written := written + [line];
      } else if fence.Some? {
        written := written + [line];
      } else {
        var replaced := rewrite(line);
        if replaced.None? {
          return None;
        }
        written := written + [replaced.value];
      }
    }
    assert lines[|lines|..] == [];
    assert written + [] == written;
    result := Some(Join(written));
  }

  lemma {:induction false} RewriteAppend(fence: Option<Fence>, a: seq<string>, b: seq<string>, rewrite: LineRewriter)
    ensures RewriteLines(fence, a + b, rewrite)
         == Both(RewriteLines(fence, a, rewrite), RewriteLines(AfterAll(fence, a), b, rewrite))
    decreases a
  {
    if a == [] {
      assert a + b == b;
      BothLaws(RewriteLines(fence, b, rewrite), None, None);
    } else {
      assert (a + b)[1..] == a[1..] + b && (a + b)[0] == a[0];
      RewriteAppend(After(fence, a[0]), a[1..], b, rewrite);
      BothLaws(One(RewriteLine(fence, a[0], rewrite)), RewriteLines(After(fence, a[0]), a[1..], rewrite),
               RewriteLines(AfterAll(fence, a), b, rewrite));
    }
  }

  // ----- the printer -----

  /** The length of the longest run of backticks anywhere in s. */
  function LongestRun(s: string): nat {
    if s == "" then 0
    else if RunLength(s, '`') > LongestRun(s[1..]) then RunLength(s, '`')
    else LongestRun(s[1..])
  }

  function Ticks(n: nat): (s: string)
    ensures |s| == n
  {
    seq(n, i => '`')
  }

  function FenceFor(value: string): nat {
    if LongestRun(value) + 1 > 3 then LongestRun(value) + 1 else 3
  }

  lemma {:induction false} LongestRunOccurs(s: string) returns (i: nat)
    requires s != ""
    ensures i < |s| && RunLength(s[i..], '`') == LongestRun(s)
  {
    if |s| == 1 || RunLength(s, '`') > LongestRun(s[1..]) {
      i := 0;
      assert s[0..] == s;
    } else {
      i := LongestRunOccurs(s[1..]);
      i := i + 1;
      assert s[i..] == s[1..][i - 1..];
    }
  }

  /** The fence is no longer than it has to be: one backtick less stands somewhere in the value, unless it is as short as can be. */
  lemma FenceIsShortest(value: string) returns (i: nat)
    requires FenceFor(value) > 3
    ensures i < |value| && RunLength(value[i..], '`') == FenceFor(value) - 1
  {
    i := LongestRunOccurs(value);
  }

  function EndsWithNewline(value: string): bool {
    value != "" && value[|value| - 1] == '\n'
  }

  function MarkdownCode(value: string, language: string): string {
    var fence := Ticks(FenceFor(value));
    fence + language + "\n" + value + (if EndsWithNewline(value) then "" else "\n") + fence
  }

  /** The value without one final newline. */
  function Body(value: string): string {
    if EndsWithNewline(value) then value[..|value| - 1] else value
  }

  function CodeLines(value: string, language: string): seq<string> {
    [Ticks(FenceFor(value)) + language] + Split(Body(value)) + [Ticks(FenceFor(value))]
  }

  lemma TicksArePlain(n: nat)
    ensures '\n' !in Ticks(n)
  {
  }

  lemma CodeSplits(value: string, language: string)
    requires '\n' !in language
    ensures Split(MarkdownCode(value, language)) == CodeLines(value, language)
  {
    var fence := Ticks(FenceFor(value));
    TicksArePlain(FenceFor(value));
    var rest := value + (if EndsWithNewline(value) then "" else "\n") + fence;
    assert rest == Body(value) + "\n" + fence;
    assert MarkdownCode(value, language) == (fence + language) + "\n" + rest;
    SplitFirstLine(fence + language, rest);
    SplitNewline(Body(value), fence);
    SplitPlain(fence);
  }

  lemma {:induction false} RunOfTicks(n: nat, rest: string)
    ensures RunLength(Ticks(n) + rest, '`') == n + RunLength(rest, '`')
  {
    if n == 0 {
      assert Ticks(0) + rest == rest;
    } else {
      assert (Ticks(n) + rest)[1..] == Ticks(n - 1) + rest;
      RunOfTicks(n - 1, rest);
    }
  }

  lemma NoIndent(line: string)
    requires line != "" && !IsSpace(line[0])
    ensures TrimStart(line) == line
  {
  }

  lemma RunMarks(line: string, length: nat)
    requires line != "" && line[0] == '`' && RunLength(line, '`') == length >= 3
    ensures Marker(line) == Some(Fence('`', length))
  {
    NoIndent(line);
  }

  lemma TicksMark(n: nat, rest: string)
    requires n >= 3
    ensures Marker(Ticks(n) + rest) == Some(Fence('`', n + RunLength(rest, '`')))
  {
    RunOfTicks(n, rest);
    RunMarks(Ticks(n) + rest, n + RunLength(rest, '`'));
  }

  lemma {:induction false} SuffixRun(s: string, k: nat)
    requires k <= |s|
    ensures LongestRun(s[k..]) <= LongestRun(s)
  {
    if k == 0 {
      assert s[0..] == s;
    } else {
      SuffixRun(s[1..], k - 1);
      assert s[1..][k - 1..] == s[k..];
    }
  }

  lemma {:induction false} FirstLineRun(text: string)
    ensures RunLength(Split(text)[0], '`') <= RunLength(text, '`')
  {
    if text != "" && text[0] == '`' {
      FirstLineRun(text[1..]);
      assert Split(text)[0][1..] == Split(text[1..])[0];
    }
  }

  lemma {:induction false} LineRun(text: string, k: nat)
    requires k < |Split(text)|
    ensures LongestRun(Split(text)[k]) <= LongestRun(text)
  {
    if text != "" {
      var rest := Split(text[1..]);
      if text[0] == '\n' {
        if k > 0 {
          LineRun(text[1..], k - 1);
        }
      } else {
        LineRun(text[1..], k);
        if k == 0 {
          FirstLineRun(text);
          assert Split(text)[0][1..] == rest[0];
        }
      }
    }
  }

  lemma BodyRun(value: string)
    ensures LongestRun(Body(value)) <= LongestRun(value)
  {
    if EndsWithNewline(value) {
      PrefixRun(Body(value));
      assert value == Body(value) + "\n";
    }
  }

  lemma {:induction false} PrefixRun(s: string)
    ensures LongestRun(s) <= LongestRun(s + "\n")
    ensures RunLength(s, '`') <= RunLength(s + "\n", '`')
  {
    if s != "" {
      assert (s + "\n")[1..] == s[1..] + "\n";
      PrefixRun(s[1..]);
    }
  }

  /** No line of the value can close a fence at least as long as the one chosen for it. */
  lemma BodyLineIsHarmless(value: string, n: nat, line: string)
    requires line in Split(Body(value)) && n >= FenceFor(value)
    ensures After(Some(Fence('`', n)), line) == Some(Fence('`', n))
  {
    var k :| 0 <= k < |Split(Body(value))| && Split(Body(value))[k] == line;
    LineRun(Body(value), k);
    BodyRun(value);
    var rest := TrimStart(line);
    SuffixRun(line, |line| - |rest|);
  }

  lemma {:induction false} HarmlessLines(fence: Fence, lines: seq<string>)
    requires forall line :: line in lines ==> After(Some(fence), line) == Some(fence)
    ensures AfterAll(Some(fence), lines) == Some(fence)
  {
    if lines != [] {
      HarmlessLines(fence, lines[1..]);
    }
  }

  /** A language that adds nothing to the opening run of backticks and stays on its line. */
  predicate Language(language: string) {
    '\n' !in language && (language == "" || language[0] != '`')
  }

  lemma LanguageHasNoTicks(language: string)
    requires '\n' !in language
    ensures Language(language) <==> RunLength(language, '`') == 0
  {
  }

  lemma OpeningLine(n: nat, language: string)
    requires n >= 3
    ensures Marker(Ticks(n) + language).Some?
    ensures After(None, Ticks(n) + language) == Some(Fence('`', n + RunLength(language, '`')))
  {
    TicksMark(n, language);
  }

  lemma NothingBehind(text: string)
    ensures text + "" == text
  {
  }

  lemma ShortMark(n: nat)
    requires n >= 3
    ensures Marker(Ticks(n)) == Some(Fence('`', n))
  {
    RunOfTicks(n, "");
    NothingBehind(Ticks(n));
    RunMarks(Ticks(n), n);
  }

  lemma ClosingLine(n: nat, length: nat)
    requires n >= 3 && n <= length
    ensures Marker(Ticks(n)).Some?
    ensures After(Some(Fence('`', length)), Ticks(n)) == None <==> length == n
  {
    ShortMark(n);
  }

  lemma ScanOne(fence: Option<Fence>, line: string)
    ensures AfterAll(fence, [line]) == After(fence, line)
  {
    assert [line][1..] == [];
  }

  /** The line ends a block that was opened by so many of the marks. */
  predicate Ends(line: string, mark: char, length: nat) {
    Marker(line).Some? && Marker(line).value.mark == mark && Marker(line).value.length >= length
  }

  /**
   A block of either sort: behind its opening line everything is inside, markers of the other sort and shorter ones included, and
   the first marker of its own sort that is no shorter closes it.
   */
  lemma BlockOfEitherSort(mark: char, length: nat, body: seq<string>, close: string)
    requires IsMark(mark) && length >= 3
    requires (forall line :: line in body ==> !Ends(line, mark, length)) && Ends(close, mark, length)
    ensures AfterAll(Some(Fence(mark, length)), body) == Some(Fence(mark, length))
    ensures AfterAll(Some(Fence(mark, length)), body + [close]) == None
  {
    var fence := Fence(mark, length);
    forall line | line in body
      ensures After(Some(fence), line) == Some(fence)
    {
      assert !Ends(line, mark, length);
    }
    HarmlessLines(fence, body);
    AfterAllAppend(Some(fence), body, [close]);
    ScanOne(Some(fence), close);
  }

  /** Any marker opens a block of its sort and length. */
  lemma BlockIsOpened(indent: string, mark: char, length: nat, rest: string)
    requires (forall i :: 0 <= i < |indent| ==> IsSpace(indent[i])) && IsMark(mark) && length >= 3
    requires rest == "" || rest[0] != mark
    ensures After(None, indent + Run(mark, length) + rest) == Some(Fence(mark, length))
  {
    MarkerIsExact(indent, mark, length, rest);
  }

  /** A line that opens, lines that keep the fence open, and any last line. */
  lemma ScanBlock(fence: Fence, open: string, body: seq<string>, close: string)
    requires After(None, open) == Some(fence) && forall line :: line in body ==> After(Some(fence), line) == Some(fence)
    ensures AfterAll(None, [open] + body + [close]) == After(Some(fence), close)
  {
    HarmlessLines(fence, body);
    ScanOne(None, open);
    AfterAllAppend(None, [open], body);
    AfterAllAppend(None, [open] + body, [close]);
    ScanOne(Some(fence), close);
  }

  lemma ScanPart(fence: Fence, open: string, body: seq<string>, close: string, k: nat)
    requires After(None, open) == Some(fence) && forall line :: line in body ==> After(Some(fence), line) == Some(fence)
    requires 1 <= k <= |body| + 1
    ensures AfterAll(None, ([open] + body + [close])[..k]) == Some(fence)
  {
    assert ([open] + body + [close])[..k] == [open] + body[..k - 1];
    HarmlessLines(fence, body[..k - 1]);
    ScanOne(None, open);
    AfterAllAppend(None, [open], body[..k - 1]);
  }

  lemma BodyIsHarmless(value: string, n: nat)
    requires n >= FenceFor(value)
    ensures forall line :: line in Split(Body(value)) ==> After(Some(Fence('`', n)), line) == Some(Fence('`', n))
  {
    forall line | line in Split(Body(value))
      ensures After(Some(Fence('`', n)), line) == Some(Fence('`', n))
    {
      BodyLineIsHarmless(value, n, line);
    }
  }

  lemma Middle(open: string, body: seq<string>, close: string)
    ensures ([open] + body + [close])[1..|body| + 1] == body
  {
  }

  lemma ScanPrinted(value: string, language: string, fence: Fence)
    requires '\n' !in language && fence == Fence('`', FenceFor(value) + RunLength(language, '`'))
    ensures After(None, Ticks(FenceFor(value)) + language) == Some(fence)
    ensures forall line :: line in Split(Body(value)) ==> After(Some(fence), line) == Some(fence)
    ensures After(Some(fence), Ticks(FenceFor(value))) == None <==> Language(language)
  {
    OpeningLine(FenceFor(value), language);
    BodyIsHarmless(value, fence.length);
    ClosingLine(FenceFor(value), fence.length);
    LanguageHasNoTicks(language);
  }

  /**
   Scanning a printed block with the fence state: the first line opens it, it stays open on every line of the value, whatever the
   value contains, and the lines between give back the value up to one final newline. The last line closes the block exactly when
   the language does not begin with a backtick.
   */
  lemma FenceRoundTrip(value: string, language: string, lines: seq<string>)
    requires '\n' !in language && lines == Split(MarkdownCode(value, language))
    ensures |lines| >= 3
    ensures forall k {:trigger lines[..k]} :: 1 <= k < |lines| ==>
      AfterAll(None, lines[..k]) == Some(Fence('`', FenceFor(value) + RunLength(language, '`')))
    ensures AfterAll(None, lines) == None <==> Language(language)
    ensures Join(lines[1..|lines| - 1]) == Body(value)
  {
    var open, body, close := Ticks(FenceFor(value)) + language, Split(Body(value)), Ticks(FenceFor(value));
    var fence := Fence('`', FenceFor(value) + RunLength(language, '`'));
    CodeSplits(value, language);
    ScanPrinted(value, language, fence);
    RoundTripOf(fence, open, body, close, lines);
    JoinSplit(Body(value));
  }

  /** A language that begins with a backtick makes the opening run longer than the closing one, and the block stays open. */
  lemma BacktickLanguageStaysOpen(value: string)
    ensures AfterAll(None, Split(MarkdownCode(value, "`"))).Some?
  {
    FenceRoundTrip(value, "`", Split(MarkdownCode(value, "`")));
  }

  lemma RoundTripOf(fence: Fence, open: string, body: seq<string>, close: string, lines: seq<string>)
    requires After(None, open) == Some(fence) && forall line :: line in body ==> After(Some(fence), line) == Some(fence)
    requires lines == [open] + body + [close]
    ensures forall k {:trigger lines[..k]} :: 1 <= k < |lines| ==> AfterAll(None, lines[..k]) == Some(fence)
    ensures AfterAll(None, lines) == After(Some(fence), close)
    ensures lines[1..|lines| - 1] == body
  {
    ScanBlock(fence, open, body, close);
    Middle(open, body, close);
    forall k {:trigger lines[..k]} | 1 <= k < |lines|
      ensures AfterAll(None, lines[..k]) == Some(fence)
    {
      ScanPart(fence, open, body, close, k);
    }
  }

  // ----- documents -----

  /** A part of a generated document: text without a fence marker, or a printed code block. */
  datatype Part = Prose(text: string) | Code(value: string, language: string)

  predicate WellFormed(part: Part) {
    match part
    case Prose(text) => forall line :: line in Split(text) ==> Marker(line).None?
    case Code(_, language) => Language(language)
  }

  function PrintPart(part: Part): string {
    match part
    case Prose(text) => text
    case Code(value, language) => MarkdownCode(value, language)
  }

  /** `document` of homepage-llms.ts. */
  function Document(parts: seq<string>): string {
    JoinBlank(parts) + "\n"
  }

  function PrintAll(parts: seq<Part>): (texts: seq<string>)
    ensures |texts| == |parts|
  {
    seq(|parts|, i requires 0 <= i < |parts| => PrintPart(parts[i]))
  }

  /** Rewriting every line of a text without looking for fences. */
  function RewriteEach(lines: seq<string>, rewrite: LineRewriter): Option<seq<string>> {
    if lines == [] then Some([]) else Both(One(rewrite(lines[0])), RewriteEach(lines[1..], rewrite))
  }

  /** What has to become of one part, line by line: prose is rewritten, a code block is left alone. */
  function RewritePart(part: Part, rewrite: LineRewriter): Option<seq<string>> {
    match part
    case Prose(text) => RewriteEach(Split(text), rewrite)
    case Code(value, language) => Some(CodeLines(value, language))
  }

  /** The parts one after the other, an empty line between two of them. */
  function RewriteParts(parts: seq<Part>, rewrite: LineRewriter): Option<seq<string>> {
    if parts == [] then Some([])
    else if |parts| == 1 then RewritePart(parts[0], rewrite)
    else Both(RewritePart(parts[0], rewrite), Both(Some([""]), RewriteParts(parts[1..], rewrite)))
  }

  lemma {:induction false} RewriteProse(lines: seq<string>, rewrite: LineRewriter)
    requires forall line :: line in lines ==> Marker(line).None?
    ensures RewriteLines(None, lines, rewrite) == RewriteEach(lines, rewrite)
    ensures AfterAll(None, lines) == None
  {
    if lines != [] {
      RewriteProse(lines[1..], rewrite);
    }
  }

  lemma {:induction false} RewriteInside(fence: Fence, lines: seq<string>, rewrite: LineRewriter)
    requires forall line :: line in lines ==> After(Some(fence), line) == Some(fence)
    ensures RewriteLines(Some(fence), lines, rewrite) == Some(lines)
  {
    if lines != [] {
      RewriteInside(fence, lines[1..], rewrite);
      assert [lines[0]] + lines[1..] == lines;
    }
  }

  lemma RewriteSingle(fence: Option<Fence>, line: string, rewrite: LineRewriter)
    ensures RewriteLines(fence, [line], rewrite) == One(RewriteLine(fence, line, rewrite))
    ensures AfterAll(fence, [line]) == After(fence, line)
  {
    assert [line][1..] == [];
    BothLaws(One(RewriteLine(fence, line, rewrite)), None, None);
  }

  lemma RewriteBody(value: string, rewrite: LineRewriter)
    ensures var fence := Some(Fence('`', FenceFor(value))); var body := Split(Body(value));
      RewriteLines(fence, body, rewrite) == Some(body) && AfterAll(fence, body) == fence
  {
    var fence := Fence('`', FenceFor(value));
    forall line | line in Split(Body(value))
      ensures After(Some(fence), line) == Some(fence)
    {
      BodyLineIsHarmless(value, fence.length, line);
    }
    RewriteInside(fence, Split(Body(value)), rewrite);
    HarmlessLines(fence, Split(Body(value)));
  }

  lemma RewriteOpening(n: nat, language: string, rewrite: LineRewriter)
    requires n >= 3 && Language(language)
    ensures RewriteLines(None, [Ticks(n) + language], rewrite) == Some([Ticks(n) + language])
    ensures AfterAll(None, [Ticks(n) + language]) == Some(Fence('`', n))
  {
    OpeningLine(n, language);
    LanguageHasNoTicks(language);
    RewriteSingle(None, Ticks(n) + language, rewrite);
  }

  lemma RewriteClosing(n: nat, rewrite: LineRewriter)
    requires n >= 3
    ensures RewriteLines(Some(Fence('`', n)), [Ticks(n)], rewrite) == Some([Ticks(n)])
    ensures AfterAll(Some(Fence('`', n)), [Ticks(n)]) == None
  {
    ClosingLine(n, n);
    RewriteSingle(Some(Fence('`', n)), Ticks(n), rewrite);
  }

  lemma RewriteCode(value: string, language: string, rewrite: LineRewriter)
    requires Language(language)
    ensures RewriteLines(None, CodeLines(value, language), rewrite) == Some(CodeLines(value, language))
    ensures AfterAll(None, CodeLines(value, language)) == None
  {
    var n, body := FenceFor(value), Split(Body(value));
    var open, close := [Ticks(n) + language], [Ticks(n)];
    RewriteOpening(n, language, rewrite);
    RewriteClosing(n, rewrite);
    RewriteBody(value, rewrite);
    RewriteAppend(None, open, body, rewrite);
    AfterAllAppend(None, open, body);
    RewriteAppend(None, open + body, close, rewrite);
    AfterAllAppend(None, open + body, close);
  }

  lemma RewriteOnePart(part: Part, rewrite: LineRewriter)
    requires WellFormed(part)
    ensures RewriteLines(None, Split(PrintPart(part)), rewrite) == RewritePart(part, rewrite)
    ensures AfterAll(None, Split(PrintPart(part))) == None
  {
    match part
    case Prose(text) =>
      RewriteProse(Split(text), rewrite);
    case Code(value, language) =>
      CodeSplits(value, language);
      RewriteCode(value, language, rewrite);
  }

  lemma BlankLine(rewrite: LineRewriter)
    requires rewrite("") == Some("")
    ensures RewriteLines(None, [""], rewrite) == Some([""])
    ensures AfterAll(None, [""]) == None
  {
    RewriteSingle(None, "", rewrite);
    assert Marker("").None?;
  }

  lemma BlankBetween(first: string, rest: string, rewrite: LineRewriter)
    requires rewrite("") == Some("") && AfterAll(None, Split(first)) == None
    ensures RewriteLines(None, Split(first + "\n\n" + rest), rewrite) == Both(
      RewriteLines(None, Split(first), rewrite), Both(Some([""]), RewriteLines(None, Split(rest), rewrite)))
    ensures AfterAll(None, Split(first + "\n\n" + rest)) == AfterAll(None, Split(rest))
  {
    assert first + "\n\n" + rest == first + "\n" + ("" + "\n" + rest);
    SplitNewline(first, "" + "\n" + rest);
    SplitFirstLine("", rest);
    BlankLine(rewrite);
    AfterAllAppend(None, [""], Split(rest));
    RewriteAppend(None, [""], Split(rest), rewrite);
    AfterAllAppend(None, Split(first), [""] + Split(rest));
    RewriteAppend(None, Split(first), [""] + Split(rest), rewrite);
  }

  lemma {:induction false} RewriteBlocks(parts: seq<Part>, rewrite: LineRewriter)
    requires parts != [] && forall part :: part in parts ==> WellFormed(part)
    requires rewrite("") == Some("")
    ensures RewriteLines(None, Split(JoinBlank(PrintAll(parts))), rewrite) == RewriteParts(parts, rewrite)
    ensures AfterAll(None, Split(JoinBlank(PrintAll(parts)))) == None
  {
    RewriteOnePart(parts[0], rewrite);
    if |parts| == 1 {
      assert JoinBlank(PrintAll(parts)) == PrintPart(parts[0]);
    } else {
      assert PrintAll(parts)[1..] == PrintAll(parts[1..]);
      RewriteBlocks(parts[1..], rewrite);
      BlankBetween(PrintPart(parts[0]), JoinBlank(PrintAll(parts[1..])), rewrite);
    }
  }

  /**
   Opacity: in any document built from code blocks and fence-free text, the rewriter changes no line of a code block, rewrites
   every line of text, throws exactly when rewriting one of those lines does, and is left with no fence open.
   */
  lemma RewriterKeepsCode(parts: seq<Part>, rewrite: LineRewriter)
    requires parts != [] && forall part :: part in parts ==> WellFormed(part)
    requires rewrite("") == Some("")
    ensures RewriteLines(None, Split(Document(PrintAll(parts))), rewrite) == Both(RewriteParts(parts, rewrite), Some([""]))
    ensures AfterAll(None, Split(Document(PrintAll(parts)))) == None
  {
    RewriteBlocks(parts, rewrite);
    BlankLine(rewrite);
    var text := JoinBlank(PrintAll(parts));
    assert text + "\n" == text + "\n" + "";
    SplitNewline(text, "");
    RewriteAppend(None, Split(text), [""], rewrite);
    AfterAllAppend(None, Split(text), [""]);
  }
}
