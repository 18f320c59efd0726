/** scripts/agent/agent-cli.ts: `progressOf`, the steps of the turn that took up the sent message. */
module Progress {
  import opened Wrappers
  import opened Lines
  import opened Numbers

  // ----- the run view -----

  datatype Status = Running | Completed | Failed | Interrupted

  datatype Lifecycle = Pending | Claimed(turnId: string) | Discarded(reason: string)

  datatype Input = Input(id: string, enqueuedBy: string, subscriptionId: Option<string>, content: string,
                         enqueuedAt: int, sequence: nat, lifecycle: Lifecycle)

  datatype ToolCall = ToolCall(id: string, name: string, startedAt: int, finishedAt: Option<int>, status: Status)

  datatype Output = Output(sequence: nat, occurredAt: int, text: string)

  datatype Turn = Turn(id: string, actorId: string, startedAt: int, finishedAt: Option<int>, status: Status,
                       reason: Option<string>, toolCalls: seq<ToolCall>, outputs: seq<Output>)

  /** `questions` is None when `askPayloadOf` rejects the payload. */
  datatype Action = Action(id: string, owner: string, askedBy: string, proposedAt: int, questions: Option<seq<string>>)

  datatype View = View(id: string, ownerId: string, inputs: seq<Input>, turns: seq<Turn>, actions: seq<Action>)

  const ASK_PLUGIN_ID := "ragents.ask"

  // ----- the steps -----

  /** What a line of standard output says; its layout is not modelled. */
  datatype Line =
    | Begun(name: string)
    | Ended(name: string, startedAt: int, finishedAt: Option<int>, status: Status)
    | Asked(runId: string, questions: seq<string>)
    | Said(text: string)
    | TurnFailed(reason: Option<string>)
    | TurnCancelled(reason: Option<string>)

  /** What --json prints for a step. */
  datatype Data =
    | ToolData(call: ToolCall)
    | ToolEndData(call: ToolCall)
    | QuestionData(id: string, questions: seq<string>)
    | OutputData(output: Output)
    | TurnData(id: string, status: Status, reason: Option<string>)

  datatype Entry = Entry(key: string, at: int, line: Option<Line>, data: Data)

  /** `outcome` is None while the turn has not ended. */
  datatype TurnProgress = TurnProgress(entries: seq<Entry>, outcome: Option<Status>, reason: Option<string>)

  const PENDING := TurnProgress([], None, None)

  datatype ProgressError = InvalidQuestions

  function ToolBegin(call: ToolCall): Entry {
    Entry("tool:" + call.id, call.startedAt, Some(Begun(call.name)), ToolData(call))
  }

  function ToolEnd(call: ToolCall): Entry {
    Entry("tool-end:" + call.id,
          if call.finishedAt.Some? then call.finishedAt.value else call.startedAt,
          Some(Ended(call.name, call.startedAt, call.finishedAt, call.status)),
          ToolEndData(call))
  }

  function ToolEntries(call: ToolCall): seq<Entry> {
    if call.status == Running then [ToolBegin(call)] else [ToolBegin(call), ToolEnd(call)]
  }

  function QuestionEntry(runId: string, action: Action): Entry
    requires action.questions.Some?
  {
    Entry("question:" + action.id, action.proposedAt, Some(Asked(runId, action.questions.value)),
          QuestionData(action.id, action.questions.value))
  }

  function OutputEntry(output: Output): Entry {
    Entry("output:" + Decimal(output.sequence), output.occurredAt, Some(Said(Trim(output.text))), OutputData(output))
  }

  function EndEntry(turn: Turn): Entry {
    Entry("turn:" + turn.id,
          if turn.finishedAt.Some? then turn.finishedAt.value else turn.startedAt,
          if turn.status == Failed then Some(TurnFailed(turn.reason))
          else if turn.status == Interrupted then Some(TurnCancelled(turn.reason))
          else None,
          TurnData(turn.id, turn.status, turn.reason))
  }

  predicate AskedIn(turn: Turn, since: int, action: Action) {
    && action.owner == ASK_PLUGIN_ID
    && action.askedBy == turn.actorId
    && action.proposedAt >= since && action.proposedAt >= turn.startedAt
    && (turn.finishedAt.None? || action.proposedAt <= turn.finishedAt.value)
  }

  function CallEntries(calls: seq<ToolCall>, since: int): seq<Entry> {
    if calls == [] then []
    else (if calls[0].startedAt >= since then ToolEntries(calls[0]) else []) + CallEntries(calls[1..], since)
  }

  function QuestionEntries(runId: string, actions: seq<Action>, turn: Turn, since: int): Result<seq<Entry>, ProgressError> {
    if actions == [] then Success([])
    else
      var rest := QuestionEntries(runId, actions[1..], turn, since);
      if !AskedIn(turn, since, actions[0]) then rest
      else if actions[0].questions.None? || rest.Failure? then Failure(InvalidQuestions)
      else Success([QuestionEntry(runId, actions[0])] + rest.value)
  }

  predicate Spoken(output: Output, after: nat) {
    output.sequence > after && Trim(output.text) != ""
  }

  function OutputEntries(outputs: seq<Output>, after: nat): seq<Entry> {
    if outputs == [] then []
    else (if Spoken(outputs[0], after) then [OutputEntry(outputs[0])] else []) + OutputEntries(outputs[1..], after)
  }

  /** `entries.sort((left, right) => left.at - right.at)`: an entry goes behind all entries that are not later. */
  function Sorted(entries: seq<Entry>): seq<Entry> {
    if entries == [] then [] else Placed(Sorted(entries[..|entries| - 1]), entries[|entries| - 1])
  }

  function Placed(sorted: seq<Entry>, entry: Entry): seq<Entry> {
    if sorted == [] || sorted[|sorted| - 1].at <= entry.at then sorted + [entry]
    else Placed(sorted[..|sorted| - 1], entry) + [sorted[|sorted| - 1]]
  }

  predicate Ordered(entries: seq<Entry>) {
    forall i, j :: 0 <= i < j < |entries| ==> entries[i].at <= entries[j].at
  }

  function AtTime(entries: seq<Entry>, at: int): seq<Entry> {
    if entries == [] then []
    else
      var last := entries[|entries| - 1];
      AtTime(entries[..|entries| - 1], at) + (if last.at == at then [last] else [])
  }

  /** Sorted by time, nothing lost, and entries of the same time in the order they had. */
  lemma {:induction false} SortIsStable(entries: seq<Entry>, at: int)
    ensures multiset(Sorted(entries)) == multiset(entries)
    ensures Ordered(Sorted(entries))
    ensures AtTime(Sorted(entries), at) == AtTime(entries, at)
  {
    if entries != [] {
      var init, last := entries[..|entries| - 1], entries[|entries| - 1];
      assert entries == init + [last];
      SortIsStable(init, at);
      PlacedIsOrdered(Sorted(init), last);
      PlacedAtTime(Sorted(init), last, at);
    }
  }

  lemma {:induction false} PlacedIsOrdered(sorted: seq<Entry>, entry: Entry)
    requires Ordered(sorted)
    ensures multiset(Placed(sorted, entry)) == multiset(sorted) + multiset{entry}
    ensures Ordered(Placed(sorted, entry))
  {
    if sorted != [] && sorted[|sorted| - 1].at > entry.at {
      var init, last := sorted[..|sorted| - 1], sorted[|sorted| - 1];
      assert sorted == init + [last];
      PlacedIsOrdered(init, entry);
      PlacedBefore(init, entry, last);
    }
  }

  lemma AtTimeOfOneMore(entries: seq<Entry>, entry: Entry, at: int)
    ensures AtTime(entries + [entry], at) == AtTime(entries, at) + (if entry.at == at then [entry] else [])
  {
    assert (entries + [entry])[..|entries|] == entries;
  }

  lemma {:induction false} PlacedAtTime(sorted: seq<Entry>, entry: Entry, at: int)
    ensures AtTime(Placed(sorted, entry), at) == AtTime(sorted, at) + (if entry.at == at then [entry] else [])
  {
    if sorted == [] || sorted[|sorted| - 1].at <= entry.at {
      AtTimeOfOneMore(sorted, entry, at);
    } else {
      var init, last := sorted[..|sorted| - 1], sorted[|sorted| - 1];
      PlacedAtTime(init, entry, at);
      AtTimeOfOneMore(Placed(init, entry), last, at);
    }
  }

  lemma PlacedBefore(init: seq<Entry>, entry: Entry, last: Entry)
    requires Ordered(init + [last]) && entry.at <= last.at
    requires multiset(Placed(init, entry)) == multiset(init) + multiset{entry} && Ordered(Placed(init, entry))
    ensures Ordered(Placed(init, entry) + [last])
  {
    forall i | 0 <= i < |Placed(init, entry)|
      ensures Placed(init, entry)[i].at <= last.at
    {
      assert Placed(init, entry)[i] in multiset(Placed(init, entry));
      var e := Placed(init, entry)[i];
      assert e == entry || e in init;
      if e in init {
        var k :| 0 <= k < |init| && init[k] == e;
        assert (init + [last])[k] == e && (init + [last])[|init|] == last;
      }
    }
  }

  /** The owner's new input with this text. */
  predicate IsSent(input: Input, view: View, known: set<string>, text: string) {
    && input.id !in known
    && input.enqueuedBy == view.ownerId
    && input.subscriptionId.None?
    && Trim(input.content) == Trim(text)
  }

  function FindInput(inputs: seq<Input>, view: View, known: set<string>, text: string): Option<Input> {
    if inputs == [] then None
    else if IsSent(inputs[0], view, known, text) then Some(inputs[0])
    else FindInput(inputs[1..], view, known, text)
  }

  function FindTurn(turns: seq<Turn>, id: string): Option<Turn> {
    if turns == [] then None
    else if turns[0].id == id then Some(turns[0])
    else FindTurn(turns[1..], id)
  }

  /** The steps of a turn from the input on, without its end. */
  function Steps(view: View, input: Input, turn: Turn): Result<seq<Entry>, ProgressError> {
    var questions := QuestionEntries(view.id, view.actions, turn, input.enqueuedAt);
    if questions.Failure? then Failure(questions.error)
    else Success(Sorted(CallEntries(turn.toolCalls, input.enqueuedAt) + questions.value + OutputEntries(turn.outputs, input.sequence)))
  }

  function ProgressOf(view: Option<View>, known: set<string>, text: string): Result<TurnProgress, ProgressError> {
    if view.None? then Success(PENDING)
    else
      var input := FindInput(view.value.inputs, view.value, known, text);
      if input.None? then Success(PENDING)
      else match input.value.lifecycle
        case Discarded(reason) => Success(TurnProgress([], Some(Interrupted), Some(reason)))
        case Pending => Success(PENDING)
        case Claimed(turnId) =>
          var turn := FindTurn(view.value.turns, turnId);
          if turn.None? then Success(PENDING)
          else
            var steps := Steps(view.value, input.value, turn.value);
            if steps.Failure? then Failure(steps.error)
            else if turn.value.status == Running then Success(TurnProgress(steps.value, None, None))
            else Success(TurnProgress(
              steps.value + [EndEntry(turn.value)],
              Some(turn.value.status),
              if turn.value.status == Completed then None
              else if turn.value.reason.None? then Some("") else turn.value.reason))
  }
}
