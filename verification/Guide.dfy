/** scripts/homepage/homepage-guide.ts: `guideExcerpt`, which takes the sections of one chapter out of a Markdown document. */
module Guide {
  import opened Wrappers
  import opened Lines
  import opened Fences

  datatype GuideError =
    | Mismatched(name: string)
    | Nested(active: string, name: string)
    | Unknown(name: string)
    | Unclosed(active: string)
    | Empty(id: string)
    | Missing(id: string)
    | NotPublic

  const CHAPTERS: set<string> :=
    {"ideas", "runtime", "getting-started", "clients", "global-apps", "distributed", "functions", "programs", "plugins", "access"}

  const OPENING := "<!-- guide:"
  const CLOSING := "<!-- /guide:"
  const ENDING := " -->"

  datatype SectionMarker = Open(name: string) | Close(name: string)

  predicate Lower(c: char) {
    'a' <= c <= 'z'
  }

  /** `[a-z][a-z-]*`. */
  predicate Name(s: string) {
    s != "" && Lower(s[0]) && forall i :: 0 <= i < |s| ==> Lower(s[i]) || s[i] == '-'
  }

  /** What stands between a prefix and a suffix. */
  function Between(line: string, prefix: string, suffix: string): Option<string> {
    if |line| >= |prefix| + |suffix| && prefix <= line && line[|line| - |suffix|..] == suffix
    then Some(line[|prefix|..|line| - |suffix|])
    else None
  }

  /** `^<!-- (\/?)guide:([a-z][a-z-]*) -->$`. */
  function MarkerOf(line: string): Option<SectionMarker> {
    var begun := Between(line, OPENING, ENDING);
    var ended := Between(line, CLOSING, ENDING);
    if begun.Some? && Name(begun.value) then Some(Open(begun.value))
    else if ended.Some? && Name(ended.value) then Some(Close(ended.value))
    else None
  }

  /** A section marker counts only on a line after which no fence is open. */
  function Boundary(fence: Option<Fence>, line: string): Option<SectionMarker> {
    if After(fence, line).Some? then None else MarkerOf(line)
  }

  // ----- the loop of guideExcerpt -----

  datatype Scan = Scan(fence: Option<Fence>, active: Option<string>, chunk: seq<string>, chunks: seq<string>)

  const START := Scan(None, None, [], [])

  function Step(scan: Scan, line: string, id: string): Result<Scan, GuideError> {
    var next := scan.(fence := After(scan.fence, line));
    match Boundary(scan.fence, line)
    case None => Success(if scan.active == Some(id) then next.(chunk := scan.chunk + [line]) else next)
    case Some(Close(name)) =>
      if scan.active != Some(name) then Failure(Mismatched(name))
      else if name == id && Trim(Join(scan.chunk)) == "" then Failure(Empty(id))
      else Success(next.(active := None, chunk := [],
                         chunks := if name == id then scan.chunks + [Trim(Join(scan.chunk))] else scan.chunks))
    case Some(Open(name)) =>
      if scan.active.Some? then Failure(Nested(scan.active.value, name))
      else if name !in CHAPTERS then Failure(Unknown(name))
      else Success(next.(active := Some(name)))
  }

  function ScanLines(scan: Scan, lines: seq<string>, id: string): Result<Scan, GuideError>
    decreases lines
  {
    if lines == [] then Success(scan)
    else
      var next := Step(scan, lines[0], id);
      if next.Failure? then next else ScanLines(next.value, lines[1..], id)
  }

  function Finish(scan: Scan, id: string): Result<string, GuideError> {
    if scan.active.Some? then Failure(Unclosed(scan.active.value))
    else if scan.chunks == [] then Failure(Missing(id))
    else Success(JoinBlank(scan.chunks) + "\n")
  }

  function Excerpt(lines: seq<string>, id: string): Result<string, GuideError> {
    var end := ScanLines(START, lines, id);
    if end.Failure? then Failure(end.error) else Finish(end.value, id)
  }

  lemma ScanFrom(scan: Scan, lines: seq<string>, i: nat, id: string)
    requires i < |lines|
    ensures var next := Step(scan, lines[i], id);
      ScanLines(scan, lines[i..], id) == if next.Failure? then next else ScanLines(next.value, lines[i + 1..], id)
  {
    assert lines[i..][0] == lines[i] && lines[i..][1..] == lines[i + 1..];
  }

  /** `assertPublicOutput`, given what it lets pass. */
  function Published(excerpt: Result<string, GuideError>, isPublic: string -> bool): Result<string, GuideError> {
    if excerpt.Success? && !isPublic(excerpt.value) then Failure(NotPublic) else excerpt
  }

  method GuideExcerpt(markdown: string, id: string, isPublic: string -> bool) returns (excerpt: Result<string, GuideError>)
    ensures excerpt == Published(Excerpt(Split(markdown), id), isPublic)
    ensures excerpt.Success? <==> Excerpt(Split(markdown), id).Success? && isPublic(Excerpt(Split(markdown), id).value)
    ensures excerpt.Success? ==> excerpt == Excerpt(Split(markdown), id)
    ensures excerpt == Failure(NotPublic) <==> Excerpt(Split(markdown), id).Success? && !isPublic(Excerpt(Split(markdown), id).value)
  {
    var chunks: seq<string> := [];
    var active: Option<string> := None;
    var chunk: seq<string> := [];
    var fence: Option<Fence> := None;
    var lines := Split(markdown);
    assert lines[0..] == lines;
    for i := 0 to |lines|
      invariant ScanLines(START, lines, id) == ScanLines(Scan(fence, active, chunk, chunks), lines[i..], id)
    {
      var line := lines[i];
      ScanFrom(Scan(fence, active, chunk, chunks), lines, i, id);
      var marker := Marker(line);
      if marker.Some? {
        if fence.None? {
          fence := marker;
        } else if marker.value.mark == fence.value.mark && marker.value.length >= fence.value.length {
          fence := None;
        }
      }
      var boundary := if fence.Some? then None else MarkerOf(line);
      if boundary.None? {
        if active == Some(id) {
          chunk := chunk + [line];
        }
        continue;
      }
      var name := boundary.value.name;
      if boundary.value.Close? {
        if active != Some(name) {
          return Failure(Mismatched(name));
        }
        if active == Some(id) {
          if Trim(Join(chunk)) == "" {
            return Failure(Empty(id));
          }
          chunks := chunks + [Trim(Join(chunk))];
        }
        active := None;
        chunk := [];
      } else {
        if active.Some? {
          return Failure(Nested(active.value, name));
        }
        if name !in CHAPTERS {
          return Failure(Unknown(name));
        }
        active := Some(name);
      }
    }
    assert lines[|lines|..] == [];
    if active.Some? {
      return Failure(Unclosed(active.value));
    }
    if chunks == [] {
      return Failure(Missing(id));
    }
    var text := JoinBlank(chunks) + "\n";
    return if isPublic(text) then Success(text) else Failure(NotPublic);
  }

  // ----- documents made of sections -----

  /** No line of these counts as a section marker, fences included, when the scan starts with no fence open. */
  predicate Quiet(fence: Option<Fence>, lines: seq<string>)
    decreases lines
  {
    lines == [] || (Boundary(fence, lines[0]).None? && Quiet(After(fence, lines[0]), lines[1..]))
  }

  predicate Balanced(lines: seq<string>) {
    Quiet(None, lines) && AfterAll(None, lines) == None
  }

  datatype Item = Outside(lines: seq<string>) | Section(name: string, lines: seq<string>)

  predicate Fits(item: Item) {
    Balanced(item.lines) && (item.Section? ==> item.name in CHAPTERS)
  }

  function PrintItem(item: Item): seq<string> {
    match item
    case Outside(lines) => lines
    case Section(name, lines) => [OPENING + name + ENDING] + lines + [CLOSING + name + ENDING]
  }

  function Print(items: seq<Item>): seq<string> {
    if items == [] then [] else PrintItem(items[0]) + Print(items[1..])
  }

  /** The trimmed contents of the sections with this name, in order. */
  function Contents(items: seq<Item>, id: string): seq<string> {
    if items == [] then []
    else if items[0].Section? && items[0].name == id then [Trim(Join(items[0].lines))] + Contents(items[1..], id)
    else Contents(items[1..], id)
  }

  /** What the excerpt of a document has to be, from its sections alone. */
  function Expected(items: seq<Item>, id: string): Result<string, GuideError> {
    var contents := Contents(items, id);
    if "" in contents then Failure(Empty(id))
    else if contents == [] then Failure(Missing(id))
    else Success(JoinBlank(contents) + "\n")
  }

  lemma BetweenOf(prefix: string, middle: string, suffix: string)
    ensures Between(prefix + middle + suffix, prefix, suffix) == Some(middle)
  {
    var line := prefix + middle + suffix;
    assert line[..|prefix|] == prefix;
  }

  lemma ChaptersAreNames(name: string)
    requires name in CHAPTERS
    ensures Name(name)
  {
  }

  lemma MarkersAreRead(name: string)
    requires Name(name)
    ensures MarkerOf(OPENING + name + ENDING) == Some(Open(name)) && Marker(OPENING + name + ENDING).None?
    ensures MarkerOf(CLOSING + name + ENDING) == Some(Close(name)) && Marker(CLOSING + name + ENDING).None?
  {
    BetweenOf(OPENING, name, ENDING);
    BetweenOf(CLOSING, name, ENDING);
    var closing := CLOSING + name + ENDING;
    assert closing[5] == '/' && OPENING[5] == 'g';
    assert (OPENING + name + ENDING)[0] == '<' && closing[0] == '<';
  }

  lemma {:induction false} ScanAppend(scan: Scan, a: seq<string>, b: seq<string>, id: string)
    ensures ScanLines(scan, a + b, id) ==
      var middle := ScanLines(scan, a, id);
      if middle.Failure? then middle else ScanLines(middle.value, b, id)
    decreases a
  {
    if a == [] {
      assert a + b == b;
    } else {
      assert (a + b)[1..] == a[1..] + b && (a + b)[0] == a[0];
      var next := Step(scan, a[0], id);
      if next.Success? {
        ScanAppend(next.value, a[1..], b, id);
      }
    }
  }

  lemma {:induction false} ScanQuiet(scan: Scan, lines: seq<string>, id: string)
    requires Quiet(scan.fence, lines)
    ensures ScanLines(scan, lines, id) == Success(scan.(
      fence := AfterAll(scan.fence, lines),
      chunk := if scan.active == Some(id) then scan.chunk + lines else scan.chunk))
    decreases lines
  {
    if lines == [] {
      assert scan.chunk + [] == scan.chunk;
    } else {
      var next := Step(scan, lines[0], id).value;
      ScanQuiet(next, lines[1..], id);
      assert scan.chunk + [lines[0]] + lines[1..] == scan.chunk + lines;
    }
  }

  lemma ScanMarker(scan: Scan, line: string, id: string)
    ensures ScanLines(scan, [line], id) == Step(scan, line, id)
  {
    assert [line][1..] == [];
  }

  /** Between two items nothing is open and nothing is collected. */
  predicate Idle(scan: Scan) {
    scan.fence == None && scan.active == None && scan.chunk == []
  }

  /** A section up to its closing marker. */
  function InSection(scan: Scan, name: string, lines: seq<string>, id: string): Scan {
    scan.(active := Some(name), chunk := if name == id then lines else [])
  }

  lemma ScanOpened(scan: Scan, name: string, lines: seq<string>, id: string)
    requires Idle(scan) && Fits(Section(name, lines))
    ensures ScanLines(scan, [OPENING + name + ENDING] + lines, id) == Success(InSection(scan, name, lines, id))
  {
    ChaptersAreNames(name);
    MarkersAreRead(name);
    ScanMarker(scan, OPENING + name + ENDING, id);
    ScanQuiet(scan.(active := Some(name)), lines, id);
    assert [] + lines == lines;
    ScanAppend(scan, [OPENING + name + ENDING], lines, id);
  }

  lemma ScanSection(scan: Scan, name: string, lines: seq<string>, id: string)
    requires Idle(scan) && Fits(Section(name, lines))
    ensures ScanLines(scan, PrintItem(Section(name, lines)), id) ==
      if name != id then Success(scan)
      else if Trim(Join(lines)) == "" then Failure(Empty(id))
      else Success(scan.(chunks := scan.chunks + [Trim(Join(lines))]))
  {
    ChaptersAreNames(name);
    MarkersAreRead(name);
    ScanOpened(scan, name, lines, id);
    ScanMarker(InSection(scan, name, lines, id), CLOSING + name + ENDING, id);
    ScanAppend(scan, [OPENING + name + ENDING] + lines, [CLOSING + name + ENDING], id);
  }

  /** Between two sections, with the contents collected so far. */
  function Resting(chunks: seq<string>): Scan {
    Scan(None, None, [], chunks)
  }

  /** What reading some contents leads to: a blank one is an error. */
  function Collected(chunks: seq<string>, contents: seq<string>, id: string): Result<Scan, GuideError> {
    if "" in contents then Failure(Empty(id)) else Success(Resting(chunks + contents))
  }

  lemma CollectedAppend(chunks: seq<string>, a: seq<string>, b: seq<string>, id: string)
    ensures Collected(chunks, a + b, id) ==
      if Collected(chunks, a, id).Failure? then Failure(Empty(id)) else Collected(chunks + a, b, id)
  {
    assert chunks + a + b == chunks + (a + b);
  }

  function ItemContents(item: Item, id: string): seq<string> {
    if item.Section? && item.name == id then [Trim(Join(item.lines))] else []
  }

  lemma ScanItem(chunks: seq<string>, item: Item, id: string)
    requires Fits(item)
    ensures ScanLines(Resting(chunks), PrintItem(item), id) == Collected(chunks, ItemContents(item, id), id)
  {
    assert chunks + [] == chunks;
    match item
    case Outside(lines) => ScanQuiet(Resting(chunks), lines, id);
    case Section(name, lines) => ScanSection(Resting(chunks), name, lines, id);
  }

  lemma ContentsStep(items: seq<Item>, id: string)
    requires items != []
    ensures Contents(items, id) == ItemContents(items[0], id) + Contents(items[1..], id)
  {
    assert [] + Contents(items[1..], id) == Contents(items[1..], id);
  }

  lemma {:induction false} ScanItems(chunks: seq<string>, items: seq<Item>, id: string)
    requires forall item :: item in items ==> Fits(item)
    ensures ScanLines(Resting(chunks), Print(items), id) == Collected(chunks, Contents(items, id), id)
    decreases items
  {
    if items == [] {
      assert chunks + [] == chunks;
    } else {
      var first, rest := ItemContents(items[0], id), Contents(items[1..], id);
      ScanAppend(Resting(chunks), PrintItem(items[0]), Print(items[1..]), id);
      ScanItem(chunks, items[0], id);
      ContentsStep(items, id);
      CollectedAppend(chunks, first, rest, id);
      if "" !in first {
        ScanItems(chunks + first, items[1..], id);
      }
    }
  }

  /** The trailing text adds nothing. */
  lemma ScanTrailing(chunks: seq<string>, trailing: seq<string>, id: string)
    requires Quiet(None, trailing)
    ensures ScanLines(Resting(chunks), trailing, id) == Success(Resting(chunks).(fence := AfterAll(None, trailing)))
  {
    ScanQuiet(Resting(chunks), trailing, id);
  }

  lemma NothingBefore(contents: seq<string>, id: string)
    ensures Collected([], contents, id) == if "" in contents then Failure(Empty(id)) else Success(Resting(contents))
  {
    assert [] + contents == contents;
  }

  /**
   The section parser inverts the printer: from fence-balanced sections and text around them, followed by text whose last fence
   may stay open, the excerpt is exactly the trimmed contents of the sections of that name in order; markers inside fences are
   content. It fails only for a missing section or a blank one.
   */
  lemma ExcerptInvertsPrint(items: seq<Item>, trailing: seq<string>, id: string)
    requires (forall item :: item in items ==> Fits(item)) && Quiet(None, trailing)
    ensures Excerpt(Print(items) + trailing, id) == Expected(items, id)
  {
    ScanItems([], items, id);
    NothingBefore(Contents(items, id), id);
    ScanAppend(START, Print(items), trailing, id);
    ScanTrailing(Contents(items, id), trailing, id);
  }

  /** The same for the document as one text. */
  lemma ExcerptOfDocument(items: seq<Item>, trailing: seq<string>, id: string)
    requires (forall item :: item in items ==> Fits(item)) && Quiet(None, trailing)
    requires Plain(Print(items) + trailing) && Print(items) + trailing != []
    ensures Excerpt(Split(Join(Print(items) + trailing)), id) == Expected(items, id)
  {
    SplitJoin(Print(items) + trailing);
    ExcerptInvertsPrint(items, trailing, id);
  }

  // ----- what success implies -----

  /** The section markers outside fences, in order. */
  function Markers(fence: Option<Fence>, lines: seq<string>): seq<SectionMarker>
    decreases lines
  {
    if lines == [] then []
    else
      var rest := Markers(After(fence, lines[0]), lines[1..]);
      var boundary := Boundary(fence, lines[0]);
      if boundary.Some? then [boundary.value] + rest else rest
  }

  /** Open and close alternate, with equal known names. It does not mention which chapter is asked for. */
  predicate Alternating(markers: seq<SectionMarker>) {
    markers == [] ||
    (&& |markers| >= 2
     && markers[0].Open? && markers[1].Close?
     && markers[0].name == markers[1].name
     && markers[0].name in CHAPTERS
     && Alternating(markers[2..]))
  }

  /** What is still to come when a section is or is not open. */
  predicate Continues(active: Option<string>, markers: seq<SectionMarker>) {
    if active.None? then Alternating(markers)
    else markers != [] && markers[0] == Close(active.value) && Alternating(markers[1..])
  }

  lemma OneMoreMarker(active: Option<string>, marker: SectionMarker, rest: seq<SectionMarker>)
    requires active.Some? ==> active.value in CHAPTERS
    requires marker.Close? ==> active == Some(marker.name) && Alternating(rest)
    requires marker.Open? ==> active.None? && marker.name in CHAPTERS && Continues(Some(marker.name), rest)
    ensures Continues(active, [marker] + rest)
  {
    assert ([marker] + rest)[1..] == rest;
    if marker.Open? {
      assert ([marker] + rest)[2..] == rest[1..];
    }
  }

  lemma StepContinues(scan: Scan, line: string, id: string, rest: seq<SectionMarker>)
    requires Step(scan, line, id).Success? && Continues(Step(scan, line, id).value.active, rest)
    requires scan.active.Some? ==> scan.active.value in CHAPTERS
    ensures Step(scan, line, id).value.fence == After(scan.fence, line)
    ensures var boundary := Boundary(scan.fence, line);
      Continues(scan.active, if boundary.Some? then [boundary.value] + rest else rest)
    ensures Step(scan, line, id).value.active.Some? ==> Step(scan, line, id).value.active.value in CHAPTERS
  {
    if Boundary(scan.fence, line).Some? {
      OneMoreMarker(scan.active, Boundary(scan.fence, line).value, rest);
    }
  }

  lemma {:induction false} SuccessAlternates(scan: Scan, lines: seq<string>, id: string)
    requires ScanLines(scan, lines, id).Success? && ScanLines(scan, lines, id).value.active.None?
    requires scan.active.Some? ==> scan.active.value in CHAPTERS
    ensures Continues(scan.active, Markers(scan.fence, lines))
    decreases lines
  {
    if lines != [] {
      var next := Step(scan, lines[0], id).value;
      SuccessAlternates(next, lines[1..], id);
      StepContinues(scan, lines[0], id, Markers(next.fence, lines[1..]));
    }
  }

  /** The lines before the first section marker, and the others. */
  lemma {:induction false} QuietPart(fence: Option<Fence>, lines: seq<string>) returns (before: seq<string>, others: seq<string>)
    ensures lines == before + others && Quiet(fence, before)
    ensures others == [] || Boundary(AfterAll(fence, before), others[0]).Some?
    ensures Markers(fence, lines) == Markers(AfterAll(fence, before), others)
    decreases lines
  {
    if lines == [] || Boundary(fence, lines[0]).Some? {
      return [], lines;
    }
    var next, more := After(fence, lines[0]), [];
    more, others := QuietPart(next, lines[1..]);
    before := [lines[0]] + more;
    Prepend(fence, lines[0], more);
    HeadAndTail(lines, more, others);
  }

  lemma HeadAndTail(lines: seq<string>, more: seq<string>, others: seq<string>)
    requires lines != [] && lines[1..] == more + others
    ensures lines == [lines[0]] + more + others
  {
  }

  lemma Regroup(a: seq<string>, b: seq<string>, c: seq<string>, d: seq<string>, e: seq<string>)
    ensures a + b + (c + d + e) == a + (b + c + d) + e
  {
  }

  lemma Prepend(fence: Option<Fence>, line: string, more: seq<string>)
    ensures AfterAll(fence, [line] + more) == AfterAll(After(fence, line), more)
    ensures Quiet(fence, [line] + more) == (Boundary(fence, line).None? && Quiet(After(fence, line), more))
  {
    assert ([line] + more)[1..] == more;
  }

  lemma MarkerLine(line: string)
    requires MarkerOf(line).Some?
    ensures match MarkerOf(line).value
            case Open(name) => line == OPENING + name + ENDING
            case Close(name) => line == CLOSING + name + ENDING
    ensures Marker(line).None?
  {
    assert line[0] == '<';
  }

  lemma MarkerAt(fence: Option<Fence>, lines: seq<string>)
    requires lines != [] && Boundary(fence, lines[0]).Some?
    ensures fence == None && Markers(fence, lines) != [] && MarkerOf(lines[0]) == Some(Markers(fence, lines)[0])
    ensures Markers(None, lines[1..]) == Markers(fence, lines)[1..]
  {
    MarkerLine(lines[0]);
    assert After(fence, lines[0]) == fence == None;
  }

  lemma HeadApart(before: seq<string>, others: seq<string>)
    requires others != []
    ensures before + others == before + [others[0]] + others[1..]
  {
  }

  /** The lines before the first section marker, that marker, and the lines after it. */
  lemma ToMarker(lines: seq<string>) returns (before: seq<string>, line: string, after: seq<string>)
    requires Markers(None, lines) != []
    ensures lines == before + [line] + after && Balanced(before)
    ensures MarkerOf(line) == Some(Markers(None, lines)[0])
    ensures Markers(None, after) == Markers(None, lines)[1..]
  {
    var others;
    before, others := QuietPart(None, lines);
    MarkerAt(AfterAll(None, before), others);
    HeadApart(before, others);
    line, after := others[0], others[1..];
  }

  lemma FirstPair(markers: seq<SectionMarker>)
    requires Alternating(markers) && markers != []
    ensures markers[0].Open? && markers[0].name in CHAPTERS
    ensures markers[1..] != [] && markers[1..][0] == Close(markers[0].name) && Alternating(markers[1..][1..])
  {
    assert markers[1..][1..] == markers[2..];
  }

  lemma SectionFits(open: string, content: seq<string>, close: string, name: string)
    requires MarkerOf(open) == Some(Open(name)) && MarkerOf(close) == Some(Close(name))
    requires name in CHAPTERS && Balanced(content)
    ensures Fits(Section(name, content)) && PrintItem(Section(name, content)) == [open] + content + [close]
  {
    MarkerLine(open);
    MarkerLine(close);
  }

  /** The first two section markers enclose a section that fits. */
  lemma FirstSection(lines: seq<string>) returns (before: seq<string>, section: Item, after: seq<string>)
    requires Alternating(Markers(None, lines)) && Markers(None, lines) != []
    ensures lines == before + PrintItem(section) + after
    ensures Fits(Outside(before)) && Fits(section)
    ensures Alternating(Markers(None, after)) && |Markers(None, after)| < |Markers(None, lines)|
  {
    var open, rest, content, close;
    FirstPair(Markers(None, lines));
    var name := Markers(None, lines)[0].name;
    before, open, rest := ToMarker(lines);
    content, close, after := ToMarker(rest);
    SectionFits(open, content, close, name);
    section := Section(name, content);
    Regroup(before, [open], content, [close], after);
  }

  /** Lines whose markers alternate are a printed document: nothing else gets through the parser. */
  lemma {:induction false} AlternatingIsPrinted(lines: seq<string>) returns (items: seq<Item>, trailing: seq<string>)
    requires Alternating(Markers(None, lines))
    ensures forall item :: item in items ==> Fits(item)
    ensures Quiet(None, trailing) && lines == Print(items) + trailing
    decreases |Markers(None, lines)|
  {
    if Markers(None, lines) == [] {
      NoMarkers(lines);
      return [], lines;
    }
    var before, section, after := FirstSection(lines);
    items, trailing := AlternatingIsPrinted(after);
    PrintTwo(before, section, items, trailing);
    items := [Outside(before), section] + items;
  }

  lemma NoMarkers(lines: seq<string>)
    requires Markers(None, lines) == []
    ensures Quiet(None, lines) && lines == Print([]) + lines
  {
    var before, others := QuietPart(None, lines);
    assert before + [] == before;
  }

  lemma PrintTwo(before: seq<string>, section: Item, items: seq<Item>, trailing: seq<string>)
    ensures Print([Outside(before), section] + items) + trailing
         == before + PrintItem(section) + (Print(items) + trailing)
  {
    assert ([Outside(before), section] + items)[1..] == [section] + items;
    assert ([section] + items)[1..] == items;
  }

  /** What an error says about the marker at which the scan stops. */
  predicate IsFaultAt(scan: Scan, line: string, id: string, error: GuideError) {
    var marker := Boundary(scan.fence, line);
    match error
    case Mismatched(name) => marker == Some(Close(name)) && scan.active != Some(name)
    case Nested(active, name) => marker == Some(Open(name)) && scan.active == Some(active)
    case Unknown(name) => marker == Some(Open(name)) && name !in CHAPTERS && scan.active.None?
    case Empty(name) => name == id && marker == Some(Close(id)) && scan.active == Some(id) && Trim(Join(scan.chunk)) == ""
    case _ => false
  }

  lemma StepFault(scan: Scan, line: string, id: string)
    requires Step(scan, line, id).Failure?
    ensures IsFaultAt(scan, line, id, Step(scan, line, id).error)
  {
  }

  /** A scan that fails stops at the first marker that is out of order, and its error says how. */
  lemma {:induction false} FailureNamesMarker(scan: Scan, lines: seq<string>, id: string) returns (k: nat)
    requires ScanLines(scan, lines, id).Failure?
    ensures k < |lines| && ScanLines(scan, lines[..k], id).Success?
    ensures IsFaultAt(ScanLines(scan, lines[..k], id).value, lines[k], id, ScanLines(scan, lines, id).error)
    decreases lines
  {
    var next := Step(scan, lines[0], id);
    if next.Failure? {
      k := 0;
      StepFault(scan, lines[0], id);
      assert lines[..0] == [];
    } else {
      k := FailureNamesMarker(next.value, lines[1..], id);
      k := k + 1;
      assert lines[..k][1..] == lines[1..][..k - 1] && lines[..k][0] == lines[0];
    }
  }

  /**
   Every document without an excerpt has a reason: a marker out of order, a section that is left open, or none that was asked for.
   */
  lemma ExcerptFails(lines: seq<string>, id: string) returns (k: nat)
    requires Excerpt(lines, id).Failure?
    ensures k <= |lines| && ScanLines(START, lines[..k], id).Success?
    ensures var scan, error := ScanLines(START, lines[..k], id).value, Excerpt(lines, id).error;
      if k < |lines| then IsFaultAt(scan, lines[k], id, error)
      else if scan.active.Some? then error == Unclosed(scan.active.value)
      else scan.chunks == [] && error == Missing(id)
  {
    if ScanLines(START, lines, id).Failure? {
      k := FailureNamesMarker(START, lines, id);
    } else {
      k := |lines|;
      assert lines[..k] == lines;
    }
  }

  predicate Structural(error: GuideError) {
    error.Mismatched? || error.Nested? || error.Unknown? || error.Unclosed?
  }

  /**
   The verdict on every document, for every chapter: if the unfenced markers alternate, the document is a printed one and the
   excerpt is the one its sections demand; otherwise no chapter gets an excerpt.
   */
  lemma ExcerptVerdict(lines: seq<string>, id: string)
    ensures Alternating(Markers(None, lines)) ==>
      exists items, trailing :: (forall item :: item in items ==> Fits(item)) && Quiet(None, trailing)
        && lines == Print(items) + trailing && Excerpt(lines, id) == Expected(items, id)
    ensures !Alternating(Markers(None, lines)) ==> Excerpt(lines, id).Failure?
  {
    if Alternating(Markers(None, lines)) {
      var items, trailing := AlternatingIsPrinted(lines);
      ExcerptInvertsPrint(items, trailing, id);
    } else if Excerpt(lines, id).Success? {
      SuccessAlternates(START, lines, id);
    }
  }

  /** Whether the markers are in order does not depend on the requested chapter. */
  lemma VerdictIsShared(lines: seq<string>, id: string, other: string)
    ensures Excerpt(lines, id).Success? && Excerpt(lines, other).Failure? ==> !Structural(Excerpt(lines, other).error)
  {
    ExcerptVerdict(lines, id);
    ExcerptVerdict(lines, other);
  }
}
