/** scripts/agent/journal.ts: reading a growing journal piece by piece, and adding up the usage its events carry. */
module Journal {
  import opened Wrappers
  import opened Lines
  import opened Unique
  import opened Utf8

  datatype JsonValue = Number(amount: real) | Other

  /** `usage` is what `payload.usage` holds when it is truthy; a field of it counts only when it is a number. */
  datatype Payload = Payload(usage: Option<map<string, JsonValue>>)

  datatype RawEvent = RawEvent(sequence: int, kind: string, occurredAt: Option<string>, payload: Option<Payload>)

  datatype JournalRecord = JournalRecord(actorId: Option<string>, occurredAt: Option<string>, events: seq<RawEvent>)

  datatype JournalEvent = JournalEvent(sequence: int, kind: string, actorId: string, occurredAt: string, payload: Payload)

  datatype JournalError = Unreadable | Missing

  type Events = Result<seq<JournalEvent>, JournalError>

  /** `JSON.parse` and the access to `record.events`; None stands for the exception either of them throws. */
  type Parser = string -> Option<JournalRecord>

  // ----- one record -----

  function Or<T>(first: Option<T>, otherwise: T): T {
    if first.Some? then first.value else otherwise
  }

  function EventOf(record: JournalRecord, event: RawEvent): JournalEvent {
    JournalEvent(
      event.sequence,
      if event.kind == "run.paused" then "run.stopped" else if event.kind == "run.resumed" then "run.continued" else event.kind,
      Or(record.actorId, ""),
      Or(event.occurredAt, Or(record.occurredAt, "")),
      Or(event.payload, Payload(None)))
  }

  function EventsOf(line: string, parse: Parser): Events {
    match parse(line)
    case None => Failure(Unreadable)
    case Some(record) => Success(seq(|record.events|, i requires 0 <= i < |record.events| => EventOf(record, record.events[i])))
  }

  predicate Blank(line: string) {
    Trim(line) == ""
  }

  /** `lines.filter((line) => line.trim()).flatMap(eventsOf)`: the first unreadable line throws. */
  function EventsOfLines(lines: seq<string>, parse: Parser): Events {
    if lines == [] then Success([])
    else if Blank(lines[0]) then EventsOfLines(lines[1..], parse)
    else Then(EventsOf(lines[0], parse), EventsOfLines(lines[1..], parse))
  }

  function Then(first: Events, second: Events): Events {
    if first.Failure? then first
    else if second.Failure? then second
    else Success(first.value + second.value)
  }

  // ----- the incremental reader -----

  /** The fields of a JournalReader. */
  datatype Reader = Reader(offset: nat, partial: string)

  /** What the next call sees: None while the file does not exist. */
  type Snapshot = Option<seq<byte>>

  predicate Grown(reader: Reader, file: Snapshot) {
    file.Some? && |file.value| > reader.offset
  }

  function Added(reader: Reader, file: Snapshot): string {
    if Grown(reader, file) then Decode(file.value[reader.offset..]) else ""
  }

  function NextReader(reader: Reader, file: Snapshot): Reader {
    if Grown(reader, file)
    then Reader(|file.value|, Last(Split(reader.partial + Added(reader, file))))
    else reader
  }

  function NextEvents(reader: Reader, file: Snapshot, parse: Parser): Events {
    if Grown(reader, file)
    then EventsOfLines(Front(Split(reader.partial + Added(reader, file))), parse)
    else Success([])
  }

  class JournalReader {
    var offset: nat
    var partial: string

    function State(): Reader
      reads this
    {
      Reader(offset, partial)
    }

    constructor ()
      ensures State() == Reader(0, "")
    {
      offset, partial := 0, "";
    }

    /** The position and the partial line advance even when a line of the chunk turns out unreadable. */
    method Next(file: Snapshot, parse: Parser) returns (events: Events)
      modifies this
      ensures State() == NextReader(old(State()), file)
      ensures events == NextEvents(old(State()), file, parse)
    {
      if file.None? || |file.value| <= offset {
        return Success([]);
      }
      var buffer := file.value[offset..];
      offset := |file.value|;
      var lines := Split(partial + Decode(buffer));
      partial := Last(lines);
      events := EventsOfLines(Front(lines), parse);
    }
  }

  /** `readJournal`: a new reader and one call. */
  method ReadJournal(file: Snapshot, parse: Parser) returns (events: Events)
    ensures events == if file.None? then Failure(Missing) else WholeFile(file.value, parse)
  {
    if file.None? {
      return Failure(Missing);
    }
    var reader := new JournalReader();
    events := reader.Next(file, parse);
    assert file.value[0..] == file.value;
    assert "" + Decode(file.value) == Decode(file.value);
    if |file.value| == 0 {
      assert file.value == [];
    }
  }

  function CompleteLines(text: string): seq<string> {
    Front(Split(text))
  }

  function WholeFile(bytes: seq<byte>, parse: Parser): Events {
    EventsOfLines(CompleteLines(Decode(bytes)), parse)
  }

  // ----- whole runs of one reader -----

  /** The reader after one call per snapshot, the text it has decoded so far, and what the calls returned, put together. */
  datatype Run = Run(reader: Reader, text: string, events: Events)

  function RunOver(files: seq<Snapshot>, parse: Parser): Run {
    if files == [] then Run(Reader(0, ""), "", Success([]))
    else
      var before := RunOver(files[..|files| - 1], parse);
      var file := files[|files| - 1];
      Run(
        NextReader(before.reader, file),
        before.text + Added(before.reader, file),
        Then(before.events, NextEvents(before.reader, file, parse)))
  }

  /** Every existing snapshot is a prefix of the final content: the journal is only ever appended to. */
  predicate AppendOnly(files: seq<Snapshot>, final: seq<byte>) {
    forall i {:trigger files[i]} :: 0 <= i < |files| && files[i].Some? ==> files[i].value <= final
  }

  predicate Ascending(files: seq<Snapshot>) {
    forall i, j :: 0 <= i < j < |files| && files[i].Some? && files[j].Some? ==> |files[i].value| <= |files[j].value|
  }

  /** Every size at which the file was seen falls between two characters of the final content. */
  predicate OnBoundaries(files: seq<Snapshot>, final: seq<byte>) {
    forall i {:trigger files[i]} :: 0 <= i < |files| && files[i].Some? ==>
      |files[i].value| <= |final| && Boundary(final, |files[i].value|)
  }

  lemma ThenAssociates(a: Events, b: Events, c: Events)
    ensures Then(a, Then(b, c)) == Then(Then(a, b), c)
  {
    if a.Success? && b.Success? && c.Success? {
      assert a.value + (b.value + c.value) == (a.value + b.value) + c.value;
    }
  }

  lemma {:induction false} EventsOfLinesAppend(a: seq<string>, b: seq<string>, parse: Parser)
    ensures EventsOfLines(a + b, parse) == Then(EventsOfLines(a, parse), EventsOfLines(b, parse))
  {
    if a == [] {
      assert a + b == b;
      assert forall events: seq<JournalEvent> :: [] + events == events;
    } else {
      var rest := EventsOfLines(a[1..] + b, parse);
      assert (a + b)[1..] == a[1..] + b && (a + b)[0] == a[0];
      assert EventsOfLines(a + b, parse) == if Blank(a[0]) then rest else Then(EventsOf(a[0], parse), rest);
      EventsOfLinesAppend(a[1..], b, parse);
      ThenAssociates(EventsOf(a[0], parse), EventsOfLines(a[1..], parse), EventsOfLines(b, parse));
    }
  }

  lemma GlueLast(a: seq<string>, b: seq<string>)
    requires a != [] && b != []
    ensures Front(Glue(a, b)) == Front(a) + Front(Glue([Last(a)], b))
    ensures Last(Glue(a, b)) == Last(Glue([Last(a)], b))
  {
    assert Front([Last(a)]) == [];
    assert Glue(a, b) == Front(a) + Glue([Last(a)], b);
  }

  lemma LinesAppend(text: string, more: string)
    ensures CompleteLines(text + more) == CompleteLines(text) + Front(Split(Last(Split(text)) + more))
    ensures Last(Split(text + more)) == Last(Split(Last(Split(text)) + more))
  {
    var tail := Last(Split(text));
    SplitAppend(text, more);
    SplitAppend(tail, more);
    SplitPlain(tail);
    GlueLast(Split(text), Split(more));
  }

  /**
   Whatever the bytes are and whenever the calls come: put together, the calls return exactly the events of all complete
   lines decoded so far, they throw exactly when one of those lines is unreadable, and the reader keeps the unfinished line.
   */
  lemma {:induction false} IncrementalEqualsText(files: seq<Snapshot>, parse: Parser)
    ensures var run := RunOver(files, parse);
      && run.events == EventsOfLines(CompleteLines(run.text), parse)
      && run.reader.partial == Last(Split(run.text))
      && '\n' !in run.reader.partial
  {
    if files != [] {
      var before := RunOver(files[..|files| - 1], parse);
      var file := files[|files| - 1];
      IncrementalEqualsText(files[..|files| - 1], parse);
      var more := Added(before.reader, file);
      LinesAppend(before.text, more);
      EventsOfLinesAppend(CompleteLines(before.text), Front(Split(before.reader.partial + more)), parse);
      if !Grown(before.reader, file) {
        assert before.text + "" == before.text;
      }
    }
  }

  lemma RunOneMore(files: seq<Snapshot>, file: Snapshot, parse: Parser)
    ensures RunOver(files + [file], parse).reader == NextReader(RunOver(files, parse).reader, file)
    ensures RunOver(files + [file], parse).text == RunOver(files, parse).text + Added(RunOver(files, parse).reader, file)
  {
    assert (files + [file])[..|files|] == files;
  }

  ghost predicate Largest(files: seq<Snapshot>, n: nat) {
    && (forall i {:trigger files[i]} :: 0 <= i < |files| && files[i].Some? ==> |files[i].value| <= n)
    && (n == 0 || exists i :: 0 <= i < |files| && files[i].Some? && |files[i].value| == n)
  }

  lemma LargestOneMore(files: seq<Snapshot>, file: Snapshot, n: nat)
    requires Largest(files, n)
    ensures Largest(files + [file], if file.Some? && |file.value| > n then |file.value| else n)
  {
    var more := files + [file];
    if file.Some? && |file.value| > n {
      assert more[|files|] == file;
    } else if n > 0 {
      var i :| 0 <= i < |files| && files[i].Some? && |files[i].value| == n;
      assert more[i] == files[i];
    }
  }

  lemma Without(files: seq<Snapshot>, final: seq<byte>)
    requires files != [] && AppendOnly(files, final)
    ensures AppendOnly(files[..|files| - 1], final) && files == files[..|files| - 1] + [files[|files| - 1]]
    ensures Ascending(files) ==> Ascending(files[..|files| - 1])
  {
    var init := files[..|files| - 1];
    assert forall i :: 0 <= i < |init| ==> init[i] == files[i];
  }

  /** The reader stands at the largest size seen. */
  lemma {:induction false} OffsetOfRun(files: seq<Snapshot>, final: seq<byte>, parse: Parser)
    requires AppendOnly(files, final)
    ensures RunOver(files, parse).reader.offset <= |final| && Largest(files, RunOver(files, parse).reader.offset)
  {
    if files != [] {
      var init, file := files[..|files| - 1], files[|files| - 1];
      Without(files, final);
      OffsetOfRun(init, final, parse);
      RunOneMore(init, file, parse);
      LargestOneMore(init, file, RunOver(init, parse).reader.offset);
    }
  }

  predicate CutsBelow(files: seq<Snapshot>, n: nat, final: seq<byte>) {
    forall i {:trigger files[i]} :: 0 <= i < |files| && files[i].Some? && |files[i].value| < n ==>
      |files[i].value| <= |final| && Boundary(final, |files[i].value|)
  }

  /** The text read in pieces is that of the prefix; a cut inside a character only ever lengthens it. */
  predicate TextFits(text: string, prefix: seq<byte>, clean: bool) {
    if clean then text == Decode(prefix) else |text| > |Decode(prefix)|
  }

  lemma {:induction false} TextOfRun(files: seq<Snapshot>, final: seq<byte>, parse: Parser)
    requires AppendOnly(files, final) && Ascending(files)
    ensures var run := RunOver(files, parse); var n := run.reader.offset;
      n <= |final| && TextFits(run.text, final[..n], CutsBelow(files, n, final))
  {
    if files != [] {
      var init, file := files[..|files| - 1], files[|files| - 1];
      Without(files, final);
      OffsetOfRun(init, final, parse);
      TextOfRun(init, final, parse);
      RunOneMore(init, file, parse);
      var before := RunOver(init, parse);
      if Grown(before.reader, file) {
        assert file.value == final[..|file.value|];
        CutsGrow(init, file, before.reader.offset, final);
        TextGrows(before.text, before.reader.offset, |file.value|, final, CutsBelow(init, before.reader.offset, final));
      } else {
        assert before.text + "" == before.text;
        CutsStay(init, file, before.reader.offset, final);
      }
    }
  }

  lemma TextGrows(text: string, m: nat, n: nat, final: seq<byte>, clean: bool)
    requires m < n <= |final| && TextFits(text, final[..m], clean)
    ensures TextFits(text + Decode(final[..n][m..]), final[..n], clean && Boundary(final, m))
  {
    GrowText(m, n, final);
  }

  lemma CutsStay(files: seq<Snapshot>, file: Snapshot, n: nat, final: seq<byte>)
    requires Ascending(files + [file]) && Largest(files, n) && (file.Some? ==> |file.value| <= n)
    ensures CutsBelow(files + [file], n, final) <==> CutsBelow(files, n, final)
  {
    var more := files + [file];
    assert forall i :: 0 <= i < |files| ==> more[i] == files[i];
    if file.Some? && n > 0 {
      var i :| 0 <= i < |files| && files[i].Some? && |files[i].value| == n;
      assert more[i].Some? && more[|files|] == file;
    }
  }

  lemma CutsGrow(files: seq<Snapshot>, file: Snapshot, m: nat, final: seq<byte>)
    requires file.Some? && m < |file.value| && m <= |final| && Largest(files, m)
    ensures CutsBelow(files + [file], |file.value|, final) <==> CutsBelow(files, m, final) && Boundary(final, m)
  {
    var more, n := files + [file], |file.value|;
    assert forall i :: 0 <= i < |files| ==> more[i] == files[i];
    if CutsBelow(more, n, final) && m > 0 {
      var i :| 0 <= i < |files| && files[i].Some? && |files[i].value| == m;
      assert Boundary(final, |more[i].value|);
    }
  }

  lemma GrowText(m: nat, n: nat, final: seq<byte>)
    requires m < n <= |final|
    ensures Boundary(final, m) ==> Decode(final[..m]) + Decode(final[..n][m..]) == Decode(final[..n])
    ensures |Decode(final[..m])| + |Decode(final[..n][m..])| >= |Decode(final[..n])|
    ensures !Boundary(final, m) ==> |Decode(final[..m])| + |Decode(final[..n][m..])| > |Decode(final[..n])|
  {
    CutDecode(final[..n], m);
    BoundaryOfPrefix(final, n, m);
    assert final[..n][..m] == final[..m];
  }

  /**
   A schedule that has seen the final content has decoded the same text as one read of the whole file exactly when
   every size it saw falls on a character boundary.
   */
  lemma TextAgrees(files: seq<Snapshot>, final: seq<byte>, parse: Parser)
    requires AppendOnly(files, final) && Ascending(files) && Some(final) in files
    ensures RunOver(files, parse).reader.offset == |final|
    ensures RunOver(files, parse).text == Decode(final) <==> OnBoundaries(files, final)
  {
    TextOfRun(files, final, parse);
    OffsetOfRun(files, final, parse);
    var run := RunOver(files, parse);
    var k :| 0 <= k < |files| && files[k] == Some(final);
    assert |files[k].value| <= run.reader.offset;
    assert final[..|final|] == final;
    EndIsBoundary(final);
    if run.text == Decode(final) {
      forall i {:trigger files[i]} | 0 <= i < |files| && files[i].Some?
        ensures |files[i].value| <= |final| && Boundary(final, |files[i].value|)
      {
        if |files[i].value| == |final| {
          EndIsBoundary(final);
        }
      }
    }
  }

  /**
   Incremental equals whole: on boundaries, all calls together return what one read of the whole file returns, the same
   exception included, and the reader is left with the whole file's unfinished last line.
   */
  lemma IncrementalEqualsWhole(files: seq<Snapshot>, final: seq<byte>, parse: Parser)
    requires AppendOnly(files, final) && Ascending(files) && Some(final) in files
    requires OnBoundaries(files, final)
    ensures RunOver(files, parse).events == WholeFile(final, parse)
    ensures RunOver(files, parse).reader == Reader(|final|, Last(Split(Decode(final))))
  {
    TextAgrees(files, final, parse);
    IncrementalEqualsText(files, parse);
  }

  const CUT: seq<byte> := [0xC3]
  const WHOLE: seq<byte> := [0xC3, 0xA9]

  lemma CutDecodes()
    ensures Decode(CUT) == [REPLACEMENT] && Decode(WHOLE[1..]) == [REPLACEMENT] && Decode(WHOLE) == "\U{E9}"
    ensures CUT <= WHOLE && !Boundary(WHOLE, 1)
  {
    assert UnitSize(WHOLE) == 2 && WHOLE[2..] == [];
    assert Decode(WHOLE) == [UnitChar(WHOLE)] + Decode([]) == "\U{E9}";
    var second: seq<byte> := [0xA9];
    assert CUT[1..] == [] && second[1..] == [] && WHOLE[1..] == second;
    assert Decode(CUT) == [REPLACEMENT] + Decode([]);
    assert Decode(second) == [REPLACEMENT] + Decode([]);
  }

  lemma GrownIsRead(files: seq<Snapshot>, bytes: seq<byte>, parse: Parser, offset: nat, text: string)
    requires RunOver(files, parse).reader.offset == offset < |bytes| && RunOver(files, parse).text == text
    ensures RunOver(files + [Some(bytes)], parse).reader.offset == |bytes|
    ensures RunOver(files + [Some(bytes)], parse).text == text + Decode(bytes[offset..])
  {
    RunOneMore(files, Some(bytes), parse);
  }

  lemma OneBehind<T>(a: T, b: T)
    ensures [a] + [b] == [a, b]
  {
  }

  lemma NothingInFront<T>(list: seq<T>)
    ensures [] + list == list && list[0..] == list
  {
  }

  lemma FirstRead(files: seq<Snapshot>, bytes: seq<byte>, parse: Parser)
    requires files == [Some(bytes)] && |bytes| > 0
    ensures RunOver(files, parse).reader.offset == |bytes| && RunOver(files, parse).text == Decode(bytes)
  {
    GrownIsRead([], bytes, parse, 0, "");
    NothingInFront(files);
    NothingInFront(bytes);
    NothingInFront(Decode(bytes));
  }

  lemma SecondRead(files: seq<Snapshot>, first: seq<byte>, second: seq<byte>, parse: Parser)
    requires files == [Some(first), Some(second)] && 0 < |first| < |second|
    ensures RunOver(files, parse).text == Decode(first) + Decode(second[|first|..])
  {
    var once: seq<Snapshot> := [Some(first)];
    FirstRead(once, first, parse);
    GrownIsRead(once, second, parse, |first|, Decode(first));
    OneBehind(Some(first), Some(second));
  }

  lemma CutSchedule(files: seq<Snapshot>)
    requires files == [Some(CUT), Some(WHOLE)] && CUT <= WHOLE && !Boundary(WHOLE, 1)
    ensures AppendOnly(files, WHOLE) && Ascending(files) && !OnBoundaries(files, WHOLE)
  {
    assert files[0] == Some(CUT) && |CUT| == 1;
  }

  lemma PartialOf(files: seq<Snapshot>, text: string, parse: Parser)
    requires RunOver(files, parse).text == text && '\n' !in text
    ensures RunOver(files, parse).reader.partial == text
  {
    IncrementalEqualsText(files, parse);
    SplitPlain(text);
  }

  /** A look at a file that ends inside a two-byte character leaves two replacement characters where the file has one character. */
  lemma CutInsideCharacter(files: seq<Snapshot>, parse: Parser)
    requires files == [Some(CUT), Some(WHOLE)]
    ensures AppendOnly(files, WHOLE) && Ascending(files) && !OnBoundaries(files, WHOLE)
    ensures RunOver(files, parse).reader.partial == [REPLACEMENT, REPLACEMENT]
    ensures Decode(WHOLE) == "\U{E9}"
  {
    CutDecodes();
    CutSchedule(files);
    SecondRead(files, CUT, WHOLE, parse);
    PartialOf(files, [REPLACEMENT] + [REPLACEMENT], parse);
  }

  // ----- lines that were written -----

  /** What a writer appends for some lines. */
  function Written(lines: seq<string>): seq<byte> {
    Encode(Join(lines) + "\n")
  }

  /** Lines are read one after the other: what they give is in their order, and one unreadable line spoils all of them. */
  lemma EventsInOrder(a: seq<string>, b: seq<string>, parse: Parser)
    ensures EventsOfLines(a + b, parse).Success? <==> EventsOfLines(a, parse).Success? && EventsOfLines(b, parse).Success?
    ensures EventsOfLines(a + b, parse).Success? ==>
      EventsOfLines(a + b, parse).value == EventsOfLines(a, parse).value + EventsOfLines(b, parse).value
  {
    EventsOfLinesAppend(a, b, parse);
  }

  lemma FirstLineFails(lines: seq<string>, parse: Parser)
    requires lines != []
    ensures EventsOfLines(lines, parse).Failure? <==>
      (!Blank(lines[0]) && parse(lines[0]).None?) || EventsOfLines(lines[1..], parse).Failure?
    ensures !Blank(lines[0]) && parse(lines[0]).None? ==> EventsOfLines(lines, parse).error == Unreadable
    ensures EventsOfLines(lines, parse).Failure? && !(!Blank(lines[0]) && parse(lines[0]).None?) ==>
      EventsOfLines(lines, parse).error == EventsOfLines(lines[1..], parse).error
  {
  }

  lemma FirstOrLater<T>(list: seq<T>)
    requires list != []
    ensures forall x :: x in list <==> x == list[0] || x in list[1..]
  {
  }

  lemma {:induction false} FailsOnUnreadable(lines: seq<string>, parse: Parser)
    ensures EventsOfLines(lines, parse).Failure? <==> exists line :: line in lines && !Blank(line) && parse(line).None?
    ensures EventsOfLines(lines, parse).Failure? ==> EventsOfLines(lines, parse).error == Unreadable
  {
    if lines != [] {
      FailsOnUnreadable(lines[1..], parse);
      FirstLineFails(lines, parse);
      FirstOrLater(lines);
    }
  }

  lemma WrittenSplits(lines: seq<string>)
    requires lines != [] && Plain(lines)
    ensures Split(Join(lines) + "\n") == lines + [""]
  {
    assert Join(lines) + "\n" == Join(lines) + "\n" + "";
    SplitNewline(Join(lines), "");
    SplitJoin(lines);
  }

  lemma EndOfLines(lines: seq<string>)
    ensures Front(lines + [""]) == lines && Last(lines + [""]) == ""
  {
  }

  /**
   Reading inverts writing: a reader at rest whose file grows by some lines, in UTF-8 and each with its newline, returns exactly the
   events of these lines and is at rest again.
   */
  lemma WrittenLinesAreRead(reader: Reader, bytes: seq<byte>, lines: seq<string>, parse: Parser)
    requires reader == Reader(|bytes|, "") && lines != [] && Plain(lines)
    ensures NextEvents(reader, Some(bytes + Written(lines)), parse) == EventsOfLines(lines, parse)
    ensures NextReader(reader, Some(bytes + Written(lines))) == Reader(|bytes + Written(lines)|, "")
  {
    var text, file := Join(lines) + "\n", bytes + Written(lines);
    DecodeInvertsEncode(text);
    assert file[|bytes|..] == Written(lines);
    assert "" + text == text;
    WrittenSplits(lines);
    EndOfLines(lines);
    assert Written(lines) != [] by {
      assert text != "" && |EncodeChar(text[0])| >= 1;
    }
  }

  /** For one line these are the events that the parser makes of it, and nothing if the line is blank. */
  lemma WrittenLineIsRead(reader: Reader, bytes: seq<byte>, line: string, parse: Parser)
    requires reader == Reader(|bytes|, "") && '\n' !in line
    ensures NextEvents(reader, Some(bytes + Encode(line + "\n")), parse) == if Blank(line) then Success([]) else EventsOf(line, parse)
  {
    WrittenLinesAreRead(reader, bytes, [line], parse);
    assert [line][1..] == [];
    var events := EventsOf(line, parse);
    if events.Success? {
      assert events.value + [] == events.value;
    }
  }

  /** The same for a whole file. */
  lemma WrittenFileIsRead(lines: seq<string>, parse: Parser)
    requires lines != [] && Plain(lines)
    ensures WholeFile(Written(lines), parse) == EventsOfLines(lines, parse)
  {
    DecodeInvertsEncode(Join(lines) + "\n");
    WrittenSplits(lines);
    EndOfLines(lines);
  }

  /**
   A readable line gives one event for each event of its record, in order: with the record's actor, the event's own time or else the
   record's, and the name in use today.
   */
  lemma RecordIsTranslated(line: string, parse: Parser, i: nat)
    requires parse(line).Some? && i < |parse(line).value.events|
    ensures EventsOf(line, parse).Success? && |EventsOf(line, parse).value| == |parse(line).value.events|
    ensures var record, raw, event := parse(line).value, parse(line).value.events[i], EventsOf(line, parse).value[i];
      && event.sequence == raw.sequence
      && event.actorId == (if record.actorId.Some? then record.actorId.value else "")
      && (raw.occurredAt.Some? ==> event.occurredAt == raw.occurredAt.value)
      && (raw.occurredAt.None? && record.occurredAt.Some? ==> event.occurredAt == record.occurredAt.value)
      && (raw.occurredAt.None? && record.occurredAt.None? ==> event.occurredAt == "")
      && (raw.payload.Some? ==> event.payload == raw.payload.value)
      && (raw.payload.None? ==> event.payload.usage.None?)
      && (event.kind == "run.stopped" <==> raw.kind == "run.paused" || raw.kind == "run.stopped")
      && (event.kind == "run.continued" <==> raw.kind == "run.resumed" || raw.kind == "run.continued")
      && (event.kind != raw.kind ==> raw.kind == "run.paused" || raw.kind == "run.resumed")
  {
    var raw := parse(line).value.events[i];
    assert EventsOf(line, parse).value[i] == EventOf(parse(line).value, raw);
  }

  // ----- usage -----

  datatype ActorUsage = ActorUsage(calls: nat, inputTokens: real, cacheReadTokens: real, outputTokens: real, costUsd: real)

  const NO_USAGE := ActorUsage(0, 0.0, 0.0, 0.0, 0.0)

  function Plus(a: ActorUsage, b: ActorUsage): ActorUsage {
    ActorUsage(a.calls + b.calls, a.inputTokens + b.inputTokens, a.cacheReadTokens + b.cacheReadTokens,
               a.outputTokens + b.outputTokens, a.costUsd + b.costUsd)
  }

  predicate Counted(event: JournalEvent) {
    event.payload.usage.Some? && event.kind != "model.step.completed"
  }

  function Field(model: map<string, JsonValue>, key: string): real {
    if key in model && model[key].Number? then model[key].amount else 0.0
  }

  function UsageOf(event: JournalEvent): ActorUsage
    requires Counted(event)
  {
    var model := event.payload.usage.value;
    ActorUsage(1, Field(model, "inputTokens"), Field(model, "cacheReadTokens"), Field(model, "outputTokens"), Field(model, "costUsd"))
  }

  /** The usage of all counted events one actor is responsible for. */
  function Total(events: seq<JournalEvent>, actor: string): ActorUsage {
    if events == [] then NO_USAGE
    else
      var before := Total(events[..|events| - 1], actor);
      var event := events[|events| - 1];
      if Counted(event) && event.actorId == actor then Plus(before, UsageOf(event)) else before
  }

  function Actors(events: seq<JournalEvent>): set<string> {
    set event | event in events && Counted(event) :: event.actorId
  }

  lemma TotalOfOneMore(events: seq<JournalEvent>, event: JournalEvent, actor: string)
    ensures Total(events + [event], actor) ==
      if Counted(event) && event.actorId == actor then Plus(Total(events, actor), UsageOf(event)) else Total(events, actor)
  {
    assert (events + [event])[..|events|] == events;
  }

  lemma ActorsOfOneMore(events: seq<JournalEvent>, event: JournalEvent)
    ensures Actors(events + [event]) == Actors(events) + if Counted(event) then {event.actorId} else {}
  {
  }

  /** The record of every actor seen so far, and nothing for the others. */
  ghost predicate Records(result: map<string, ActorUsage>, events: seq<JournalEvent>) {
    && result.Keys == Actors(events)
    && forall actor {:trigger Total(events, actor)} :: Total(events, actor) == if actor in result then result[actor] else NO_USAGE
  }

  lemma RecordsOneMore(before: map<string, ActorUsage>, events: seq<JournalEvent>, event: JournalEvent)
    requires Records(before, events)
    ensures !Counted(event) ==> Records(before, events + [event])
    ensures Counted(event) ==> Records(before[event.actorId :=
      Plus(if event.actorId in before then before[event.actorId] else NO_USAGE, UsageOf(event))], events + [event])
  {
    ActorsOfOneMore(events, event);
    forall actor
      ensures Total(events + [event], actor) ==
        if Counted(event) && event.actorId == actor then Plus(Total(events, actor), UsageOf(event)) else Total(events, actor)
    {
      TotalOfOneMore(events, event, actor);
    }
  }

  method UsageByActor(events: seq<JournalEvent>) returns (result: map<string, ActorUsage>)
    ensures result.Keys == Actors(events)
    ensures forall actor :: actor in result ==> result[actor] == Total(events, actor)
  {
    result := map[];
    for i := 0 to |events|
      invariant Records(result, events[..i])
    {
      var event := events[i];
      assert events[..i + 1] == events[..i] + [event];
      RecordsOneMore(result, events[..i], event);
      if event.payload.usage.None? || event.kind == "model.step.completed" {
        continue;
      }
      var model := event.payload.usage.value;
      var entry := if event.actorId in result then result[event.actorId] else NO_USAGE;
      entry := entry.(calls := entry.calls + 1);
      entry := entry.(inputTokens := entry.inputTokens + Field(model, "inputTokens"));
      entry := entry.(cacheReadTokens := entry.cacheReadTokens + Field(model, "cacheReadTokens"));
      entry := entry.(outputTokens := entry.outputTokens + Field(model, "outputTokens"));
      entry := entry.(costUsd := entry.costUsd + Field(model, "costUsd"));
      result := result[event.actorId := entry];
    }
    assert events[..|events|] == events;
  }

  /** The numbers that the events of one actor carry under a key, added up. */
  function SumOfKey(events: seq<JournalEvent>, actor: string, key: string): real {
    if events == [] then 0.0
    else
      var before, event := SumOfKey(events[..|events| - 1], actor, key), events[|events| - 1];
      var usage := event.payload.usage;
      if event.actorId == actor && event.kind != "model.step.completed" && usage.Some? && key in usage.value && usage.value[key].Number?
      then before + usage.value[key].amount else before
  }

  /** How many events of one actor carry usage of their own. */
  function Calls(events: seq<JournalEvent>, actor: string): nat {
    if events == [] then 0
    else
      var before, event := Calls(events[..|events| - 1], actor), events[|events| - 1];
      if event.actorId == actor && event.kind != "model.step.completed" && event.payload.usage.Some? then before + 1 else before
  }

  /** Each total is the sum of the numbers under its own key. */
  lemma {:induction false} TotalsAreSums(events: seq<JournalEvent>, actor: string)
    ensures Total(events, actor) == ActorUsage(
      Calls(events, actor), SumOfKey(events, actor, "inputTokens"), SumOfKey(events, actor, "cacheReadTokens"),
      SumOfKey(events, actor, "outputTokens"), SumOfKey(events, actor, "costUsd"))
  {
    if events != [] {
      TotalsAreSums(events[..|events| - 1], actor);
    }
  }

  /** Adding up two pieces of a journal separately and then together is adding up the whole, actor by actor. */
  lemma {:induction false} TotalAppend(a: seq<JournalEvent>, b: seq<JournalEvent>, actor: string)
    ensures Total(a + b, actor) == Plus(Total(a, actor), Total(b, actor))
  {
    if b == [] {
      assert a + b == a;
    } else {
      var init, event := b[..|b| - 1], b[|b| - 1];
      assert b == init + [event] && a + b == (a + init) + [event];
      TotalAppend(a, init, actor);
      TotalOfOneMore(a + init, event, actor);
      TotalOfOneMore(init, event, actor);
    }
  }

  /** Usage added up call by call of an incremental reader is the usage of the whole journal. */
  lemma {:induction false} UsageOfPieces(pieces: seq<seq<JournalEvent>>, actor: string)
    ensures SumOfPieces(pieces, actor) == Total(Flatten(pieces), actor)
  {
    if pieces != [] {
      UsageOfPieces(pieces[1..], actor);
      TotalAppend(pieces[0], Flatten(pieces[1..]), actor);
    }
  }

  function Flatten<T>(pieces: seq<seq<T>>): seq<T> {
    if pieces == [] then [] else pieces[0] + Flatten(pieces[1..])
  }

  function SumOfPieces(pieces: seq<seq<JournalEvent>>, actor: string): ActorUsage {
    if pieces == [] then NO_USAGE else Plus(Total(pieces[0], actor), SumOfPieces(pieces[1..], actor))
  }

  /** The usage of all counted events, whoever is responsible for them. */
  function GrandTotal(events: seq<JournalEvent>): ActorUsage {
    if events == [] then NO_USAGE
    else
      var before := GrandTotal(events[..|events| - 1]);
      var event := events[|events| - 1];
      if Counted(event) then Plus(before, UsageOf(event)) else before
  }

  function SumOver(events: seq<JournalEvent>, actors: seq<string>): ActorUsage {
    if actors == [] then NO_USAGE else Plus(Total(events, actors[0]), SumOver(events, actors[1..]))
  }

  /** Nothing is lost or counted twice: listing every responsible actor once, their totals add up to the grand total. */
  lemma {:induction false} UsageConserved(events: seq<JournalEvent>, actors: seq<string>)
    requires NoTwice(actors) && Actors(events) <= set actor | actor in actors
    ensures SumOver(events, actors) == GrandTotal(events)
  {
    if events == [] {
      SumOfNothing(events, actors);
    } else {
      var init, event := events[..|events| - 1], events[|events| - 1];
      assert events == init + [event];
      UsageConserved(init, actors);
      SumWithOneMore(events, actors);
      if Counted(event) {
        assert event.actorId in Actors(events);
      }
    }
  }

  lemma {:induction false} SumOfNothing(events: seq<JournalEvent>, actors: seq<string>)
    requires events == []
    ensures SumOver(events, actors) == NO_USAGE
  {
    if actors != [] {
      SumOfNothing(events, actors[1..]);
      assert Total(events, actors[0]) == NO_USAGE;
    }
  }

  lemma {:induction false} SumWithOneMore(events: seq<JournalEvent>, actors: seq<string>)
    requires events != [] && NoTwice(actors)
    ensures var init := events[..|events| - 1]; var event := events[|events| - 1];
      SumOver(events, actors) ==
        if Counted(event) && event.actorId in actors then Plus(SumOver(init, actors), UsageOf(event)) else SumOver(init, actors)
  {
    if actors != [] {
      SumWithOneMore(events, actors[1..]);
      assert actors[0] !in actors[1..];
    }
  }
}
