/**
 scripts/acp/content.ts 7-41: the message that the blocks of an editor's prompt become. A string is a sequence of UTF-16 units, as
 its length is.
 */
module Prompts {
  import opened Fences
  import opened Lines
  import opened Numbers
  import opened Unique
  import opened Wrappers

  const DISPLAY_TEXT_LIMIT := 16384
  const PROMPT_TEXT_LIMIT := 65536
  const TRUNCATED := "\n[... truncated]"

  /** `text.slice(0, end)`: a negative end counts from the end of the text. */
  function Slice(text: string, end: int): string {
    if end >= |text| then text
    else if end >= 0 then text[..end]
    else if |text| + end >= 0 then text[..|text| + end]
    else ""
  }

  function BoundedText(text: string, limit: nat): string {
    if |text| <= limit then text else Slice(text, limit - 16) + TRUNCATED
  }

  /**
   A bounded text keeps the limit if and only if the text does or the limit leaves room for the mark of what is missing. With such
   a limit the text is unchanged exactly when it fits, and otherwise cut to the limit.
   */
  lemma BoundedTextFits(text: string, limit: nat)
    ensures |BoundedText(text, limit)| <= limit <==> |text| <= limit || limit >= 16
    ensures limit >= 16 ==> (BoundedText(text, limit) == text <==> |text| <= limit)
    ensures limit >= 16 && |text| > limit ==> |BoundedText(text, limit)| == limit && text[..limit - 16] <= BoundedText(text, limit)
  {
    assert |TRUNCATED| == 16;
  }

  /** `uri` of a resource with text is the quoted one; a resource without a media type has an empty one. */
  datatype Block =
    | TextBlock(text: string)
    | Link(title: Option<string>, name: string, uri: string, description: Option<string>)
    | Image(mediaType: string, data: string)
    | TextResource(uri: string, content: string)
    | BlobResource(uri: string, mediaType: string, data: string)
    | Unsupported(kind: string)

  datatype Attachment = Attachment(name: string, mediaType: string, data: string)

  datatype Error = NoMediaType | UnsupportedContent(kind: string) | TooLong | Empty | InvalidAttachments

  datatype Message = Message(text: string, attachments: seq<Attachment>)

  /** One backtick more than the longest run in the text, and at least three. */
  function ResourceText(text: string): string {
    var fence := Ticks(FenceFor(text));
    fence + "\n" + text + "\n" + fence
  }

  function LinkText(title: Option<string>, name: string, uri: string, description: Option<string>): string {
    (if title.Some? then title.value else name) + ": " + uri
    + (if description.Some? && description.value != "" then "\n" + BoundedText(description.value, DISPLAY_TEXT_LIMIT) else "")
  }

  function PartOf(block: Block): (part: Result<string, Error>)
    ensures part.Failure? <==> block.Unsupported? || (block.BlobResource? && block.mediaType == "")
  {
    match block
    case TextBlock(text) => Success(text)
    case Link(title, name, uri, description) => Success(LinkText(title, name, uri, description))
    case Image(_, _) => Success("")
    case TextResource(uri, content) =>
      Success("Resource " + uri + ":\n" + ResourceText(BoundedText(content, DISPLAY_TEXT_LIMIT)))
    case BlobResource(uri, mediaType, _) => if mediaType == "" then Failure(NoMediaType) else Success("Resource: " + uri)
    case Unsupported(kind) => Failure(UnsupportedContent(kind))
  }

  function AttachedBy(block: Block, index: nat): seq<Attachment> {
    match block
    case Image(mediaType, data) => [Attachment("image-" + Decimal(index + 1), mediaType, data)]
    case BlobResource(_, mediaType, data) => [Attachment("resource-" + Decimal(index + 1), mediaType, data)]
    case _ => []
  }

  /** The first error of the blocks from some place on. */
  function FirstError(blocks: seq<Block>, from: nat): Option<Error>
    requires from <= |blocks|
    decreases |blocks| - from
  {
    if from == |blocks| then None
    else if PartOf(blocks[from]).Failure? then Some(PartOf(blocks[from]).error)
    else FirstError(blocks, from + 1)
  }

  /** The parts that are not empty, of the first blocks. */
  function PartsOf(blocks: seq<Block>, count: nat): seq<string>
    requires count <= |blocks| && forall i :: 0 <= i < count ==> PartOf(blocks[i]).Success?
  {
    if count == 0 then []
    else PartsOf(blocks, count - 1) + (if PartOf(blocks[count - 1]).value == "" then [] else [PartOf(blocks[count - 1]).value])
  }

  function AttachmentsOf(blocks: seq<Block>, count: nat): seq<Attachment>
    requires count <= |blocks|
  {
    if count == 0 then [] else AttachmentsOf(blocks, count - 1) + AttachedBy(blocks[count - 1], count - 1)
  }

  function Checked(message: Message, accepts: seq<Attachment> -> bool): Result<Message, Error> {
    if |message.text| > PROMPT_TEXT_LIMIT then Failure(TooLong)
    else if Trim(message.text) == "" && message.attachments == [] then Failure(Empty)
    else if !accepts(message.attachments) then Failure(InvalidAttachments)
    else Success(message)
  }

  /** The parts and the attachments of the blocks, or the first error. */
  method Gather(blocks: seq<Block>) returns (error: Option<Error>, parts: seq<string>, attachments: seq<Attachment>)
    ensures error == FirstError(blocks, 0)
    ensures error.None? ==> forall i :: 0 <= i < |blocks| ==> PartOf(blocks[i]).Success?
    ensures error.None? ==> parts == PartsOf(blocks, |blocks|) && attachments == AttachmentsOf(blocks, |blocks|)
  {
    attachments, parts := [], [];
    for i := 0 to |blocks|
      invariant forall k :: 0 <= k < i ==> PartOf(blocks[k]).Success?
      invariant FirstError(blocks, i) == FirstError(blocks, 0)
      invariant attachments == AttachmentsOf(blocks, i)
      invariant parts == PartsOf(blocks, i)
    {
      var part := PartOf(blocks[i]);
      if part.Failure? {
        return Some(part.error), [], [];
      }
      attachments := attachments + AttachedBy(blocks[i], i);
      parts := parts + if part.value == "" then [] else [part.value];
    }
    error := None;
  }

  /** `accepts` is the check of the attachments themselves. */
  method PromptMessage(blocks: seq<Block>, accepts: seq<Attachment> -> bool) returns (message: Result<Message, Error>)
    ensures FirstError(blocks, 0).Some? ==> message == Failure(FirstError(blocks, 0).value)
    ensures FirstError(blocks, 0).None? ==> forall i :: 0 <= i < |blocks| ==> PartOf(blocks[i]).Success?
    ensures FirstError(blocks, 0).None? ==>
      message == Checked(Message(JoinBlank(PartsOf(blocks, |blocks|)), AttachmentsOf(blocks, |blocks|)), accepts)
  {
    var error, parts, attachments := Gather(blocks);
    if error.Some? {
      return Failure(error.value);
    }
    return Checked(Message(JoinBlank(parts), attachments), accepts);
  }

  // ----- what a message says -----

  /** Text is taken as it is; a link is named by its title if it has one; an image leaves no text, and a resource names itself. */
  lemma PartSaysBlock(block: Block)
    requires PartOf(block).Success?
    ensures var part := PartOf(block).value;
      match block
      case TextBlock(text) => part == text
      case Link(title, name, uri, description) =>
        && (if title.Some? then title.value else name) + ": " + uri <= part
        && (description.None? || description.value == "" ==> part == (if title.Some? then title.value else name) + ": " + uri)
        && (description.Some? && 0 < |description.value| <= DISPLAY_TEXT_LIMIT ==>
              part == (if title.Some? then title.value else name) + ": " + uri + "\n" + description.value)
      case Image(_, _) => part == ""
      case TextResource(uri, content) =>
        && "Resource " + uri + ":\n" <= part
        && (|content| <= DISPLAY_TEXT_LIMIT ==> part == "Resource " + uri + ":\n" + ResourceText(content))
      case BlobResource(uri, _, _) => part == "Resource: " + uri
      case Unsupported(_) => false
  {
  }

  /** A block that no part can be made of, and the error that it is refused with. */
  predicate IsRefused(block: Block, error: Error) {
    || (block.Unsupported? && error == UnsupportedContent(block.kind))
    || (block.BlobResource? && block.mediaType == "" && error == NoMediaType)
  }

  ghost predicate IsFirstRefused(blocks: seq<Block>, from: nat, i: nat, error: Error) {
    from <= i < |blocks| && IsRefused(blocks[i], error) && forall k, other :: from <= k < i ==> !IsRefused(blocks[k], other)
  }

  /** A prompt is refused with the error of its first block that no part can be made of, if there is one. */
  lemma {:induction false} FirstErrorIsFirst(blocks: seq<Block>, from: nat) returns (i: nat)
    requires from <= |blocks|
    ensures FirstError(blocks, from).Some? ==> IsFirstRefused(blocks, from, i, FirstError(blocks, from).value)
    ensures FirstError(blocks, from).None? ==> forall k, error :: from <= k < |blocks| ==> !IsRefused(blocks[k], error)
    decreases |blocks| - from
  {
    i := from;
    if from < |blocks| && PartOf(blocks[from]).Success? {
      i := FirstErrorIsFirst(blocks, from + 1);
    }
  }

  predicate Said(blocks: seq<Block>) {
    forall i :: 0 <= i < |blocks| ==> PartOf(blocks[i]).Success?
  }

  /** The texts that are not empty. */
  function Filled(texts: seq<string>): seq<string> {
    if texts == [] then []
    else Filled(texts[..|texts| - 1]) + (if texts[|texts| - 1] == "" then [] else [texts[|texts| - 1]])
  }

  predicate FilledAt(texts: seq<string>, places: seq<nat>, filled: seq<string>) {
    && Places(places, |texts|) && |filled| == |places|
    && (forall k :: 0 <= k < |places| ==> filled[k] == texts[places[k]])
    && (forall i: nat :: i < |texts| ==> (i in places <==> texts[i] != ""))
  }

  lemma FilledMore(texts: seq<string>, places: seq<nat>, filled: seq<string>, text: string)
    requires FilledAt(texts, places, filled)
    ensures text == "" ==> FilledAt(texts + [text], places, filled)
    ensures text != "" ==> FilledAt(texts + [text], places + [|texts|], filled + [text])
  {
    PlaceBehind(places, |texts|);
  }

  lemma {:induction false} FilledInOrder(texts: seq<string>) returns (places: seq<nat>)
    ensures FilledAt(texts, places, Filled(texts))
  {
    if texts == [] {
      places := [];
    } else {
      var init, text := texts[..|texts| - 1], texts[|texts| - 1];
      assert texts == init + [text];
      places := FilledInOrder(init);
      FilledMore(init, places, Filled(init), text);
      if text != "" {
        places := places + [|init|];
      }
    }
  }

  function TextsOf(blocks: seq<Block>, count: nat): seq<string>
    requires count <= |blocks| && Said(blocks)
  {
    seq(count, i requires 0 <= i < count => PartOf(blocks[i]).value)
  }

  lemma {:induction false} PartsAreFilled(blocks: seq<Block>, count: nat)
    requires count <= |blocks| && Said(blocks)
    ensures PartsOf(blocks, count) == Filled(TextsOf(blocks, count))
  {
    if count > 0 {
      PartsAreFilled(blocks, count - 1);
      assert TextsOf(blocks, count)[..count - 1] == TextsOf(blocks, count - 1);
    }
  }

  /** The parts of a message are those of the blocks that say something, all of them and in the order of the blocks. */
  lemma PartsInOrder(blocks: seq<Block>) returns (places: seq<nat>)
    requires Said(blocks)
    ensures FilledAt(TextsOf(blocks, |blocks|), places, PartsOf(blocks, |blocks|))
  {
    PartsAreFilled(blocks, |blocks|);
    places := FilledInOrder(TextsOf(blocks, |blocks|));
  }

  /**
   A message has at most so many characters, and either a character that is no space or an attachment, and its attachments are accepted.
   What is refused is refused for the first of these that does not hold.
   */
  lemma MessageIsChecked(message: Message, accepts: seq<Attachment> -> bool)
    ensures var blank := AllSpace(message.text);
      && (Checked(message, accepts) == Failure(TooLong) <==> |message.text| > 65536)
      && (Checked(message, accepts) == Failure(Empty) <==> |message.text| <= 65536 && blank && message.attachments == [])
      && (Checked(message, accepts) == Success(message) <==>
            |message.text| <= 65536 && (!blank || message.attachments != []) && accepts(message.attachments))
      && (Checked(message, accepts).Failure? ==>
            Checked(message, accepts).error in {TooLong, Empty, InvalidAttachments})
  {
    var before, after := TrimIsExact(message.text);
  }

  // ----- attachments -----

  lemma {:induction false} NamedByBlock(blocks: seq<Block>, count: nat, k: nat) returns (i: nat)
    requires count <= |blocks| && k < |AttachmentsOf(blocks, count)|
    ensures i < count && AttachedBy(blocks[i], i) == [AttachmentsOf(blocks, count)[k]]
    ensures k == |AttachmentsOf(blocks, i)|
  {
    if k < |AttachmentsOf(blocks, count - 1)| {
      i := NamedByBlock(blocks, count - 1, k);
    } else {
      i := count - 1;
    }
  }

  /** How many of the first blocks are images or binary resources. */
  function Binaries(blocks: seq<Block>, count: nat): nat
    requires count <= |blocks|
  {
    if count == 0 then 0
    else Binaries(blocks, count - 1) + (if blocks[count - 1].Image? || blocks[count - 1].BlobResource? then 1 else 0)
  }

  lemma {:induction false} BinariesAreAttached(blocks: seq<Block>, count: nat)
    requires count <= |blocks|
    ensures |AttachmentsOf(blocks, count)| == Binaries(blocks, count)
  {
    if count > 0 {
      BinariesAreAttached(blocks, count - 1);
    }
  }

  /**
   Every attachment is that of one block, in the order of the blocks and with none left out: it has the media type and the data of the
   block, and the place of the block in its name.
   */
  lemma AttachmentIsOfBlock(blocks: seq<Block>, k: nat) returns (i: nat)
    requires k < |AttachmentsOf(blocks, |blocks|)|
    ensures i < |blocks| && (blocks[i].Image? || blocks[i].BlobResource?) && Binaries(blocks, i) == k
    ensures |AttachmentsOf(blocks, |blocks|)| == Binaries(blocks, |blocks|)
    ensures var attachment := AttachmentsOf(blocks, |blocks|)[k];
      && attachment.mediaType == blocks[i].mediaType && attachment.data == blocks[i].data
      && attachment.name == (if blocks[i].Image? then "image-" else "resource-") + Decimal(i + 1)
  {
    i := NamedByBlock(blocks, |blocks|, k);
    BinariesAreAttached(blocks, i);
    BinariesAreAttached(blocks, |blocks|);
  }

  lemma KindsDiffer(m: nat, n: nat)
    ensures "image-" + Decimal(m) != "resource-" + Decimal(n)
  {
    assert ("image-" + Decimal(m))[0] == 'i';
  }

  lemma NamesDiffer(a: Block, i: nat, b: Block, j: nat)
    requires i != j && |AttachedBy(a, i)| == 1 && |AttachedBy(b, j)| == 1
    ensures AttachedBy(a, i)[0].name != AttachedBy(b, j)[0].name
  {
    if a.Image? == b.Image? {
      NumberedApart(if a.Image? then "image-" else "resource-", i + 1, j + 1);
    } else {
      KindsDiffer(if a.Image? then i + 1 else j + 1, if a.Image? then j + 1 else i + 1);
    }
  }

  /** Every attachment of a message has a name of its own. */
  lemma AttachmentNamesDiffer(blocks: seq<Block>, k: nat, l: nat)
    requires k < l < |AttachmentsOf(blocks, |blocks|)|
    ensures AttachmentsOf(blocks, |blocks|)[k].name != AttachmentsOf(blocks, |blocks|)[l].name
  {
    var i := NamedByBlock(blocks, |blocks|, k);
    var j := NamedByBlock(blocks, |blocks|, l);
    NamesDiffer(blocks[i], i, blocks[j], j);
  }

  // ----- resources -----

  lemma {:induction false} NewlineAddsNoRun(s: string)
    ensures RunLength(s + "\n", '`') == RunLength(s, '`') && LongestRun(s + "\n") == LongestRun(s)
  {
    if s == "" {
      assert s + "\n" == "\n" && "\n"[1..] == "";
    } else {
      assert (s + "\n")[1..] == s[1..] + "\n" && (s + "\n")[0] == s[0];
      NewlineAddsNoRun(s[1..]);
    }
  }

  lemma ResourceIsCode(text: string)
    ensures ResourceText(text) == MarkdownCode(text + "\n", "") && Body(text + "\n") == text
  {
    NewlineAddsNoRun(text);
    assert FenceFor(text + "\n") == FenceFor(text);
    var fence := Ticks(FenceFor(text));
    assert fence + "" + "\n" + (text + "\n") + "" + fence == fence + "\n" + text + "\n" + fence;
  }

  lemma NoLanguage(value: string, lines: seq<string>)
    requires lines == Split(MarkdownCode(value, ""))
    ensures |lines| >= 3 && AfterAll(None, lines) == None && Join(lines[1..|lines| - 1]) == Body(value)
    ensures forall k {:trigger lines[..k]} :: 1 <= k < |lines| ==> AfterAll(None, lines[..k]).Some?
  {
    FenceRoundTrip(value, "", lines);
  }

  /**
   Read by the fence scanner of the repository, the text of a resource is one block: it opens on its first line, closes on its last
   one only, and the lines between are the whole text, whatever backticks and newlines it contains.
   */
  lemma ResourceRoundTrip(text: string, lines: seq<string>)
    requires lines == Split(ResourceText(text))
    ensures |lines| >= 3 && AfterAll(None, lines) == None && Join(lines[1..|lines| - 1]) == text
    ensures forall k {:trigger lines[..k]} :: 1 <= k < |lines| ==> AfterAll(None, lines[..k]).Some?
  {
    ResourceIsCode(text);
    NoLanguage(text + "\n", lines);
  }
}
