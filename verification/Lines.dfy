/** Text as a list of lines: `text.split("\n")` and `lines.join("\n")`. */
module Lines {

  function Split(text: string): (lines: seq<string>)
    ensures |lines| >= 1
    ensures forall line :: line in lines ==> '\n' !in line
  {
    if text == "" then [""]
    else
      var rest := Split(text[1..]);
      if text[0] == '\n' then [""] + rest
      else [[text[0]] + rest[0]] + rest[1..]
  }

  function Join(lines: seq<string>): string {
    if lines == [] then ""
    else if |lines| == 1 then lines[0]
    else lines[0] + "\n" + Join(lines[1..])
  }

  /** `parts.join("\n\n")`. */
  function JoinBlank(parts: seq<string>): string {
    if parts == [] then ""
    else if |parts| == 1 then parts[0]
    else parts[0] + "\n\n" + JoinBlank(parts[1..])
  }

  function Last(lines: seq<string>): string
    requires lines != []
  {
    lines[|lines| - 1]
  }

  function Front(lines: seq<string>): seq<string>
    requires lines != []
  {
    lines[..|lines| - 1]
  }

  predicate Plain(lines: seq<string>) {
    forall line :: line in lines ==> '\n' !in line
  }

  lemma {:induction false} JoinSplit(text: string)
    ensures Join(Split(text)) == text
  {
    if text == "" {
    } else {
      JoinSplit(text[1..]);
      var rest := Split(text[1..]);
      if text[0] == '\n' {
        assert Split(text)[1..] == rest;
        assert Join(Split(text)) == "\n" + text[1..];
      } else {
        var lines := Split(text);
        assert lines[1..] == rest[1..];
        assert Join(lines) == [text[0]] + Join(rest);
      }
    }
  }

  /** Two line lists with the last line of the first and the first line of the second made one. */
  function Glue(a: seq<string>, b: seq<string>): (lines: seq<string>)
    requires a != [] && b != []
    ensures |lines| == |a| + |b| - 1
  {
    Front(a) + [Last(a) + b[0]] + b[1..]
  }

  lemma GlueHead(head: string, a: seq<string>, b: seq<string>)
    requires a != [] && b != []
    ensures Glue([head] + a, b) == [head] + Glue(a, b)
  {
    assert Front([head] + a) == [head] + Front(a);
  }

  lemma GlueChar(c: char, a: seq<string>, b: seq<string>)
    requires a != [] && b != []
    ensures Glue([[c] + a[0]] + a[1..], b) == [[c] + Glue(a, b)[0]] + Glue(a, b)[1..]
  {
    var a' := [[c] + a[0]] + a[1..];
    if |a| == 1 {
      assert Last(a') + b[0] == [c] + (a[0] + b[0]);
      assert Front(a) == [] && Front(a') == [];
    } else {
      assert Front(a') == [[c] + a[0]] + Front(a)[1..];
    }
  }

  /** Splitting a longer text splits its two parts and glues the line at the seam. */
  lemma {:induction false} SplitAppend(a: string, b: string)
    ensures Split(a + b) == Glue(Split(a), Split(b))
  {
    if a == "" {
      assert a + b == b;
      assert "" + Split(b)[0] == Split(b)[0];
    } else {
      SplitAppend(a[1..], b);
      assert (a + b)[1..] == a[1..] + b;
      if a[0] == '\n' {
        GlueHead("", Split(a[1..]), Split(b));
      } else {
        GlueChar(a[0], Split(a[1..]), Split(b));
      }
    }
  }

  lemma {:induction false} SplitPlain(line: string)
    requires '\n' !in line
    ensures Split(line) == [line]
  {
    if line != "" {
      SplitPlain(line[1..]);
      assert line == [line[0]] + line[1..];
    }
  }

  lemma SplitNewline(a: string, b: string)
    ensures Split(a + "\n" + b) == Split(a) + Split(b)
  {
    var rest := "\n" + b;
    assert a + "\n" + b == a + rest;
    SplitAppend(a, rest);
    assert rest[1..] == b;
    assert Split(rest) == [""] + Split(b);
    assert Split(rest)[1..] == Split(b);
    assert Last(Split(a)) + "" == Last(Split(a));
    assert Front(Split(a)) + [Last(Split(a))] == Split(a);
  }

  lemma SplitFirstLine(line: string, rest: string)
    requires '\n' !in line
    ensures Split(line + "\n" + rest) == [line] + Split(rest)
  {
    SplitNewline(line, rest);
    SplitPlain(line);
  }

  lemma {:induction false} SplitJoin(lines: seq<string>)
    requires lines != [] && Plain(lines)
    ensures Split(Join(lines)) == lines
  {
    if |lines| == 1 {
      SplitPlain(lines[0]);
    } else {
      SplitJoin(lines[1..]);
      SplitFirstLine(lines[0], Join(lines[1..]));
    }
  }

  /** The characters `String.prototype.trim` and the class `\s` of a regular expression cover. */
  predicate IsSpace(c: char) {
    var code := c as int;
    || 0x09 <= code <= 0x0D || code == 0x20 || code == 0xA0 || code == 0x1680 || 0x2000 <= code <= 0x200A
    || code == 0x2028 || code == 0x2029 || code == 0x202F || code == 0x205F || code == 0x3000 || code == 0xFEFF
  }

  function TrimStart(text: string): (r: string)
    ensures r != "" ==> !IsSpace(r[0])
    ensures |r| <= |text| && r == text[|text| - |r|..]
    ensures forall i :: 0 <= i < |text| - |r| ==> IsSpace(text[i])
  {
    if text != "" && IsSpace(text[0]) then TrimStart(text[1..]) else text
  }

  function TrimEnd(text: string): (r: string)
    ensures r != "" ==> !IsSpace(r[|r| - 1])
    ensures |r| <= |text| && r == text[..|r|]
    ensures forall i :: |r| <= i < |text| ==> IsSpace(text[i])
  {
    if text != "" && IsSpace(text[|text| - 1]) then TrimEnd(text[..|text| - 1]) else text
  }

  function Trim(text: string): string {
    TrimEnd(TrimStart(text))
  }

  predicate AllSpace(text: string) {
    forall i :: 0 <= i < |text| ==> IsSpace(text[i])
  }

  lemma TrimmedStart(text: string) returns (before: string)
    ensures AllSpace(before) && text == before + TrimStart(text)
  {
    before := text[..|text| - |TrimStart(text)|];
  }

  lemma TrimmedEnd(text: string) returns (after: string)
    ensures AllSpace(after) && text == TrimEnd(text) + after
  {
    after := text[|TrimEnd(text)|..];
  }

  lemma SpaceAround(before: string, inner: string, after: string)
    requires AllSpace(before) && AllSpace(after) && (inner != "" ==> !IsSpace(inner[0]))
    ensures inner == "" <==> AllSpace(before + inner + after)
  {
    var text := before + inner + after;
    if inner != "" {
      assert text[|before|] == inner[0];
    } else {
      assert forall i :: 0 <= i < |text| ==> text[i] == (if i < |before| then before[i] else after[i - |before|]);
    }
  }

  /** A text that is taken apart at both ends. */
  lemma PartsAreExact(text: string, before: string, started: string, inner: string, after: string)
    requires text == before + started && started == inner + after && AllSpace(before) && AllSpace(after)
    requires started != "" ==> !IsSpace(started[0])
    ensures text == before + inner + after
    ensures inner != "" ==> !IsSpace(inner[0])
    ensures inner == "" <==> AllSpace(text)
  {
    assert inner != "" ==> inner[0] == started[0];
    assert before + (inner + after) == before + inner + after;
    SpaceAround(before, inner, after);
  }

  lemma TrimmedApart(text: string, started: string, inner: string) returns (before: string, after: string)
    requires started == TrimStart(text) && inner == TrimEnd(started)
    ensures text == before + inner + after && AllSpace(before) && AllSpace(after)
    ensures inner != "" ==> !IsSpace(inner[0])
    ensures inner == "" <==> AllSpace(text)
  {
    before := TrimmedStart(text);
    after := TrimmedEnd(started);
    PartsAreExact(text, before, started, inner, after);
  }

  lemma TrimmedHasEnd(text: string)
    ensures Trim(text) != "" ==> !IsSpace(Trim(text)[|Trim(text)| - 1])
  {
  }

  /** What is trimmed off is space, and what is left neither begins nor ends with it. */
  lemma TrimIsExact(text: string) returns (before: string, after: string)
    ensures text == before + Trim(text) + after && AllSpace(before) && AllSpace(after)
    ensures Trim(text) != "" ==> !IsSpace(Trim(text)[0])
    ensures Trim(text) != "" ==> !IsSpace(Trim(text)[|Trim(text)| - 1])
    ensures Trim(text) == "" <==> AllSpace(text)
  {
    before, after := TrimmedApart(text, TrimStart(text), Trim(text));
    TrimmedHasEnd(text);
  }

  lemma SameTail(prefix: string, a: string, b: string)
    requires prefix + a == prefix + b
    ensures a == b
  {
    assert a == (prefix + a)[|prefix|..] && b == (prefix + b)[|prefix|..];
  }

  lemma SameHead(a: string, b: string, suffix: string)
    requires a + suffix == b + suffix
    ensures a == b
  {
    assert |a| == |b|;
    assert a == (a + suffix)[..|a|] && b == (b + suffix)[..|b|];
  }
}
