/**
 scripts/agent/agent-cli.ts 300-372: how the view of a run grows, and what that means for the steps `progressOf` makes of it. Steps
 are recognised by their keys.
 */
module Growth {
  import opened Wrappers
  import opened Lines
  import opened Numbers
  import opened Progress

  // ----- how a run view grows -----

  predicate InputGrows(a: Input, b: Input) {
    b.(lifecycle := a.lifecycle) == a && (a.lifecycle == Pending || b.lifecycle == a.lifecycle)
  }

  predicate CallGrows(a: ToolCall, b: ToolCall) {
    a.id == b.id && a.name == b.name && a.startedAt == b.startedAt && (a.status == Running || a == b)
  }

  predicate TurnGrows(a: Turn, b: Turn) {
    && a.id == b.id && a.actorId == b.actorId && a.startedAt == b.startedAt
    && (a.status == Running || a == b)
    && |a.toolCalls| <= |b.toolCalls| && (forall i :: 0 <= i < |a.toolCalls| ==> CallGrows(a.toolCalls[i], b.toolCalls[i]))
    && a.outputs <= b.outputs
  }

  /** Time is monotone: what was proposed while a turn was running was not proposed after its end. */
  predicate EndsAfter(turn: Turn, actions: seq<Action>) {
    turn.finishedAt.Some? ==> forall action :: action in actions ==> action.proposedAt <= turn.finishedAt.value
  }

  /** A later view of the same run: lists are only appended to, and only running things change. */
  predicate Grows(v: View, w: View) {
    && v.id == w.id && v.ownerId == w.ownerId
    && |v.inputs| <= |w.inputs| && (forall i :: 0 <= i < |v.inputs| ==> InputGrows(v.inputs[i], w.inputs[i]))
    && |v.turns| <= |w.turns| && (forall i :: 0 <= i < |v.turns| ==> TurnGrows(v.turns[i], w.turns[i]))
    && (forall i :: 0 <= i < |v.turns| && v.turns[i].status == Running ==> EndsAfter(w.turns[i], v.actions))
    && v.actions <= w.actions
  }

  predicate GrowsTo(v: Option<View>, w: Option<View>) {
    v.Some? ==> w.Some? && Grows(v.value, w.value)
  }

  predicate DistinctIds(view: View) {
    && (forall i, j :: 0 <= i < j < |view.actions| ==> view.actions[i].id != view.actions[j].id)
    && (forall t :: t in view.turns ==>
          && (forall i, j :: 0 <= i < j < |t.toolCalls| ==> t.toolCalls[i].id != t.toolCalls[j].id)
          && (forall i, j :: 0 <= i < j < |t.outputs| ==> t.outputs[i].sequence != t.outputs[j].sequence))
  }

  predicate RunningIsOpen(view: View) {
    forall t :: t in view.turns ==>
      (t.status == Running ==> t.finishedAt == None) && (forall c :: c in t.toolCalls && c.status == Running ==> c.finishedAt == None)
  }

  predicate Sound(view: Option<View>) {
    view.Some? ==> DistinctIds(view.value) && RunningIsOpen(view.value)
  }

  /** The views one run shows over time. */
  predicate History(polls: seq<Option<View>>) {
    && (forall i :: 0 <= i < |polls| ==> Sound(polls[i]))
    && (forall i, j :: 0 <= i < j < |polls| ==> GrowsTo(polls[i], polls[j]))
  }

  // ----- membership -----

  lemma {:induction false} InCallEntries(calls: seq<ToolCall>, since: int, entry: Entry)
    ensures entry in CallEntries(calls, since) <==>
      exists i :: 0 <= i < |calls| && calls[i].startedAt >= since && entry in ToolEntries(calls[i])
  {
    if calls != [] {
      InCallEntries(calls[1..], since, entry);
      if i :| 0 <= i < |calls| && calls[i].startedAt >= since && entry in ToolEntries(calls[i]) {
        if i > 0 {
          assert calls[1..][i - 1] == calls[i];
        }
      }
      if i :| 0 <= i < |calls[1..]| && calls[1..][i].startedAt >= since && entry in ToolEntries(calls[1..][i]) {
        assert calls[i + 1] == calls[1..][i];
      }
    }
  }

  lemma {:induction false} InOutputEntries(outputs: seq<Output>, after: nat, entry: Entry)
    ensures entry in OutputEntries(outputs, after) <==>
      exists output :: output in outputs && Spoken(output, after) && entry == OutputEntry(output)
  {
    if outputs != [] {
      InOutputEntries(outputs[1..], after, entry);
      assert forall output :: output in outputs <==> output == outputs[0] || output in outputs[1..];
    }
  }

  predicate Readable(actions: seq<Action>, turn: Turn, since: int) {
    forall action :: action in actions && AskedIn(turn, since, action) ==> action.questions.Some?
  }

  lemma {:induction false} InQuestionEntries(runId: string, actions: seq<Action>, turn: Turn, since: int, entry: Entry)
    ensures var entries := QuestionEntries(runId, actions, turn, since);
      && (entries.Success? <==> Readable(actions, turn, since))
      && (entries.Success? ==> (entry in entries.value <==>
            exists action :: action in actions && AskedIn(turn, since, action) && entry == QuestionEntry(runId, action)))
  {
    if actions != [] {
      InQuestionEntries(runId, actions[1..], turn, since, entry);
      assert forall action :: action in actions <==> action == actions[0] || action in actions[1..];
    }
  }

  // ----- which steps are shown -----

  predicate IsFirst<T>(list: seq<T>, suits: T -> bool, i: nat) {
    i < |list| && suits(list[i]) && forall k :: 0 <= k < i ==> !suits(list[k])
  }

  lemma FirstBehind<T>(list: seq<T>, suits: T -> bool, i: nat)
    requires list != [] && !suits(list[0]) && IsFirst(list[1..], suits, i)
    ensures IsFirst(list, suits, i + 1)
  {
    forall k | 0 < k < i + 1
      ensures !suits(list[k])
    {
      assert list[k] == list[1..][k - 1];
    }
  }

  lemma NoneBehind<T>(list: seq<T>, suits: T -> bool)
    requires list != [] && !suits(list[0]) && forall x :: x in list[1..] ==> !suits(x)
    ensures forall x :: x in list ==> !suits(x)
  {
    assert list == [list[0]] + list[1..];
  }

  lemma OneFirst<T>(list: seq<T>, suits: T -> bool, i: nat, j: nat)
    requires IsFirst(list, suits, i) && IsFirst(list, suits, j)
    ensures i == j
  {
  }

  /** Whether an input is one that the owner has newly enqueued with this text. */
  function Sending(view: View, known: set<string>, text: string): Input -> bool {
    (input: Input) =>
      && input.id !in known && input.enqueuedBy == view.ownerId && input.subscriptionId.None?
      && Trim(input.content) == Trim(text)
  }

  function Taking(id: string): Turn -> bool {
    (turn: Turn) => turn.id == id
  }

  /** The input that the view is followed for: the first one that was sent. */
  predicate IsFollowed(view: View, known: set<string>, text: string, i: nat) {
    IsFirst(view.inputs, Sending(view, known, text), i)
  }

  function FindFirst<T>(list: seq<T>, suits: T -> bool): Option<T> {
    if list == [] then None else if suits(list[0]) then Some(list[0]) else FindFirst(list[1..], suits)
  }

  lemma {:induction false} FindFirstIsFirst<T>(list: seq<T>, suits: T -> bool) returns (i: nat)
    ensures FindFirst(list, suits).Some? ==> IsFirst(list, suits, i) && FindFirst(list, suits).value == list[i]
    ensures FindFirst(list, suits).None? ==> forall x :: x in list ==> !suits(x)
  {
    i := 0;
    if list != [] && !suits(list[0]) {
      i := FindFirstIsFirst(list[1..], suits);
      if FindFirst(list, suits).Some? {
        FirstBehind(list, suits, i);
      } else {
        NoneBehind(list, suits);
      }
      i := i + 1;
    }
  }

  lemma {:induction false} FindsFirstInput(inputs: seq<Input>, view: View, known: set<string>, text: string)
    ensures FindInput(inputs, view, known, text) == FindFirst(inputs, Sending(view, known, text))
  {
    if inputs != [] {
      FindsFirstInput(inputs[1..], view, known, text);
    }
  }

  /** The turn that is found is the first one with the id. */
  lemma {:induction false} FindsFirstTurn(turns: seq<Turn>, id: string)
    ensures FindTurn(turns, id) == FindFirst(turns, Taking(id))
  {
    if turns != [] {
      FindsFirstTurn(turns[1..], id);
    }
  }

  /** A call of the turn begins, or has ended, after the input was enqueued. */
  predicate IsOfCall(call: ToolCall, since: int, e: Entry) {
    && call.startedAt >= since
    && ((e.key == "tool:" + call.id && e.at == call.startedAt && e.line == Some(Begun(call.name)) && e.data == ToolData(call))
        || (&& call.status != Running && e.key == "tool-end:" + call.id
            && e.at == (if call.finishedAt.Some? then call.finishedAt.value else call.startedAt)
            && e.line == Some(Ended(call.name, call.startedAt, call.finishedAt, call.status)) && e.data == ToolEndData(call)))
  }

  /** The actor of the turn asked during the turn and after the input was enqueued. */
  predicate IsOfAction(view: View, turn: Turn, since: int, action: Action, e: Entry) {
    && action.owner == ASK_PLUGIN_ID && action.askedBy == turn.actorId && action.questions.Some?
    && action.proposedAt >= since && action.proposedAt >= turn.startedAt
    && (turn.finishedAt.None? || action.proposedAt <= turn.finishedAt.value)
    && e == Entry("question:" + action.id, action.proposedAt, Some(Asked(view.id, action.questions.value)),
                  QuestionData(action.id, action.questions.value))
  }

  /** The turn said something after the input. */
  predicate IsOfOutput(output: Output, after: nat, e: Entry) {
    && output.sequence > after && Trim(output.text) != ""
    && e == Entry("output:" + Decimal(output.sequence), output.occurredAt, Some(Said(Trim(output.text))), OutputData(output))
  }

  /** The steps of a turn from an input on are those of its calls, its questions and its outputs, and no others. */
  lemma StepsAreThose(view: View, input: Input, turn: Turn, e: Entry)
    requires Steps(view, input, turn).Success?
    ensures e in Steps(view, input, turn).value <==>
      || (exists i :: 0 <= i < |turn.toolCalls| && IsOfCall(turn.toolCalls[i], input.enqueuedAt, e))
      || (exists action :: action in view.actions && IsOfAction(view, turn, input.enqueuedAt, action, e))
      || (exists output :: output in turn.outputs && IsOfOutput(output, input.sequence, e))
  {
    InSteps(view, input, turn, e);
    InCallEntries(turn.toolCalls, input.enqueuedAt, e);
    InQuestionEntries(view.id, view.actions, turn, input.enqueuedAt, e);
    InOutputEntries(turn.outputs, input.sequence, e);
    forall i | 0 <= i < |turn.toolCalls|
      ensures IsOfCall(turn.toolCalls[i], input.enqueuedAt, e) <==>
        turn.toolCalls[i].startedAt >= input.enqueuedAt && e in ToolEntries(turn.toolCalls[i])
    {
      CallIsShown(turn.toolCalls[i], input.enqueuedAt, e);
    }
  }

  lemma CallIsShown(call: ToolCall, since: int, e: Entry)
    ensures IsOfCall(call, since, e) <==> call.startedAt >= since && e in ToolEntries(call)
  {
    assert e in ToolEntries(call) <==> e == ToolBegin(call) || (call.status != Running && e == ToolEnd(call));
  }

  lemma {:induction false} AtTimeAppend(a: seq<Entry>, b: seq<Entry>, at: int)
    ensures AtTime(a + b, at) == AtTime(a, at) + AtTime(b, at)
  {
    if b == [] {
      assert a + b == a;
    } else {
      var init, last := b[..|b| - 1], b[|b| - 1];
      assert a + b == (a + init) + [last] && b == init + [last];
      AtTimeAppend(a, init, at);
      AtTimeOfOneMore(a + init, last, at);
      AtTimeOfOneMore(init, last, at);
    }
  }

  /** Steps of the same time are shown in the order of the view: calls, then questions, then outputs. */
  lemma TiesInOrder(view: View, input: Input, turn: Turn, at: int)
    requires Steps(view, input, turn).Success?
    ensures QuestionEntries(view.id, view.actions, turn, input.enqueuedAt).Success?
    ensures AtTime(Steps(view, input, turn).value, at)
      == AtTime(CallEntries(turn.toolCalls, input.enqueuedAt), at)
       + AtTime(QuestionEntries(view.id, view.actions, turn, input.enqueuedAt).value, at)
       + AtTime(OutputEntries(turn.outputs, input.sequence), at)
  {
    var calls, outputs := CallEntries(turn.toolCalls, input.enqueuedAt), OutputEntries(turn.outputs, input.sequence);
    var questions := QuestionEntries(view.id, view.actions, turn, input.enqueuedAt).value;
    SortIsStable(calls + questions + outputs, at);
    AtTimeAppend(calls, questions, at);
    AtTimeAppend(calls + questions, outputs, at);
  }

  /** What each element gives, one after the other. */
  function Mapped<T>(list: seq<T>, one: T -> seq<Entry>): seq<Entry> {
    if list == [] then [] else one(list[0]) + Mapped(list[1..], one)
  }

  function Calling(since: int): ToolCall -> seq<Entry> {
    (call: ToolCall) =>
      if call.startedAt < since then [] else if call.status == Running then [ToolBegin(call)] else [ToolBegin(call), ToolEnd(call)]
  }

  function Saying(after: nat): Output -> seq<Entry> {
    (output: Output) => if Spoken(output, after) then [OutputEntry(output)] else []
  }

  /** Calls are shown in their order, each beginning before its end, and outputs in theirs. */
  lemma {:induction false} CallsInOrder(calls: seq<ToolCall>, since: int)
    ensures CallEntries(calls, since) == Mapped(calls, Calling(since))
  {
    if calls != [] {
      CallsInOrder(calls[1..], since);
    }
  }

  lemma {:induction false} OutputsInOrder(outputs: seq<Output>, after: nat)
    ensures OutputEntries(outputs, after) == Mapped(outputs, Saying(after))
  {
    if outputs != [] {
      OutputsInOrder(outputs[1..], after);
    }
  }

  /** The turn that took up the input, if the view shows one. */
  function TurnOf(view: View, input: Input): Option<Turn> {
    if input.lifecycle.Claimed? then FindTurn(view.turns, input.lifecycle.turnId) else None
  }

  /**
   What a view shows for a text: nothing yet while there is no such input or it has not been taken up; its interruption if it was
   discarded; otherwise the steps of the turn, and at the end of the turn also how it ended, with a reason unless it was completed.
   */
  lemma ShownIsThat(view: View, known: set<string>, text: string, i: nat)
    ensures (forall input :: input in view.inputs ==> !Sending(view, known, text)(input)) ==>
      ProgressOf(Some(view), known, text) == Success(PENDING)
    ensures IsFollowed(view, known, text, i) ==> ShownFor(view, view.inputs[i], ProgressOf(Some(view), known, text))
  {
    var k := FindFirstIsFirst(view.inputs, Sending(view, known, text));
    FindsFirstInput(view.inputs, view, known, text);
    if IsFollowed(view, known, text, i) {
      assert Sending(view, known, text)(view.inputs[i]) && view.inputs[i] in view.inputs;
      OneFirst(view.inputs, Sending(view, known, text), i, k);
      ShownForFound(view, known, text, view.inputs[i]);
    }
  }

  lemma ShownForFound(view: View, known: set<string>, text: string, input: Input)
    requires FindInput(view.inputs, view, known, text) == Some(input)
    ensures ShownFor(view, input, ProgressOf(Some(view), known, text))
  {
  }

  predicate ShownFor(view: View, input: Input, progress: Result<TurnProgress, ProgressError>) {
    match input.lifecycle
    case Pending => progress == Success(TurnProgress([], None, None))
    case Discarded(reason) => progress == Success(TurnProgress([], Some(Interrupted), Some(reason)))
    case Claimed(id) =>
      if TurnOf(view, input).None? then progress == Success(TurnProgress([], None, None))
      else
        var turn := TurnOf(view, input).value;
        var steps := Steps(view, input, turn);
        && (progress.Success? <==> steps.Success?)
        && (progress.Success? && turn.status == Running ==> progress.value == TurnProgress(steps.value, None, None))
        && (progress.Success? && turn.status != Running ==>
              && progress.value.outcome == Some(turn.status)
              && |progress.value.entries| == |steps.value| + 1 && progress.value.entries[..|steps.value|] == steps.value
              && IsEndOf(turn, progress.value.entries[|steps.value|])
              && (progress.value.reason.None? <==> turn.status == Completed)
              && (turn.status != Completed && turn.reason.Some? ==> progress.value.reason == turn.reason))
  }

  predicate IsEndOf(turn: Turn, e: Entry) {
    && e.key == "turn:" + turn.id && e.data == TurnData(turn.id, turn.status, turn.reason)
    && (turn.finishedAt.Some? ==> e.at == turn.finishedAt.value)
    && (e.line.None? <==> turn.status == Completed || turn.status == Running)
    && (turn.status == Failed ==> e.line == Some(TurnFailed(turn.reason)))
    && (turn.status == Interrupted ==> e.line == Some(TurnCancelled(turn.reason)))
  }

  // ----- how steps grow -----

  /** A later view shows the same step again; only the call shown with the beginning of a running tool can have moved on. */
  predicate Becomes(e: Entry, f: Entry) {
    e == f
    || (&& e.data.ToolData? && f.data.ToolData? && e.data.call.status == Running && CallGrows(e.data.call, f.data.call)
        && e == ToolBegin(e.data.call) && f == ToolBegin(f.data.call))
  }

  predicate AllBecome(a: seq<Entry>, b: seq<Entry>) {
    forall e :: e in a ==> exists f :: f in b && Becomes(e, f)
  }

  lemma CallBecomes(a: ToolCall, b: ToolCall, e: Entry) returns (f: Entry)
    requires CallGrows(a, b) && e in ToolEntries(a)
    ensures f in ToolEntries(b) && Becomes(e, f) && b.startedAt == a.startedAt
  {
    f := if e == ToolBegin(a) then ToolBegin(b) else e;
  }

  lemma CallsGrow(a: seq<ToolCall>, b: seq<ToolCall>, since: int)
    requires |a| <= |b| && forall i :: 0 <= i < |a| ==> CallGrows(a[i], b[i])
    ensures AllBecome(CallEntries(a, since), CallEntries(b, since))
  {
    forall e | e in CallEntries(a, since)
      ensures exists f :: f in CallEntries(b, since) && Becomes(e, f)
    {
      InCallEntries(a, since, e);
      var i :| 0 <= i < |a| && a[i].startedAt >= since && e in ToolEntries(a[i]);
      var f := CallBecomes(a[i], b[i], e);
      InCallEntries(b, since, f);
    }
  }

  lemma InSteps(view: View, input: Input, turn: Turn, entry: Entry)
    requires Steps(view, input, turn).Success?
    ensures entry in Steps(view, input, turn).value <==>
      || entry in CallEntries(turn.toolCalls, input.enqueuedAt)
      || entry in QuestionEntries(view.id, view.actions, turn, input.enqueuedAt).value
      || entry in OutputEntries(turn.outputs, input.sequence)
  {
    var all := CallEntries(turn.toolCalls, input.enqueuedAt)
      + QuestionEntries(view.id, view.actions, turn, input.enqueuedAt).value + OutputEntries(turn.outputs, input.sequence);
    SortIsStable(all, 0);
    assert entry in Sorted(all) <==> entry in multiset(Sorted(all));
    assert entry in all <==> entry in multiset(all);
  }

  predicate TurnInView(a: Turn, b: Turn, v: View) {
    TurnGrows(a, b) && (a.status == Running ==> EndsAfter(b, v.actions))
  }

  lemma AskedStays(v: View, a: Turn, b: Turn, since: int)
    requires TurnInView(a, b, v)
    ensures forall action :: action in v.actions && AskedIn(a, since, action) ==> AskedIn(b, since, action)
  {
  }

  lemma QuestionsGrow(v: View, w: View, a: Turn, b: Turn, since: int)
    requires Grows(v, w) && TurnInView(a, b, v) && QuestionEntries(w.id, w.actions, b, since).Success?
    ensures QuestionEntries(v.id, v.actions, a, since).Success?
    ensures AllBecome(QuestionEntries(v.id, v.actions, a, since).value, QuestionEntries(w.id, w.actions, b, since).value)
  {
    AskedStays(v, a, b, since);
    var any := EndEntry(a);
    InQuestionEntries(w.id, w.actions, b, since, any);
    InQuestionEntries(v.id, v.actions, a, since, any);
    forall e | e in QuestionEntries(v.id, v.actions, a, since).value
      ensures exists f :: f in QuestionEntries(w.id, w.actions, b, since).value && Becomes(e, f)
    {
      InQuestionEntries(v.id, v.actions, a, since, e);
      InQuestionEntries(w.id, w.actions, b, since, e);
      assert Becomes(e, e);
    }
  }

  lemma OutputsGrow(a: seq<Output>, b: seq<Output>, after: nat)
    requires a <= b
    ensures AllBecome(OutputEntries(a, after), OutputEntries(b, after))
  {
    forall e | e in OutputEntries(a, after)
      ensures exists f :: f in OutputEntries(b, after) && Becomes(e, f)
    {
      InOutputEntries(a, after, e);
      InOutputEntries(b, after, e);
      assert Becomes(e, e);
    }
  }

  lemma StepsGrow(v: View, w: View, i: Input, j: Input, a: Turn, b: Turn)
    requires Grows(v, w) && InputGrows(i, j) && TurnInView(a, b, v)
    ensures Steps(w, j, b).Success? ==> Steps(v, i, a).Success? && AllBecome(Steps(v, i, a).value, Steps(w, j, b).value)
  {
    assert j.enqueuedAt == i.enqueuedAt && j.sequence == i.sequence;
    if Steps(w, j, b).Success? {
      CallsGrow(a.toolCalls, b.toolCalls, i.enqueuedAt);
      QuestionsGrow(v, w, a, b, i.enqueuedAt);
      OutputsGrow(a.outputs, b.outputs, i.sequence);
      forall e | e in Steps(v, i, a).value
        ensures exists f :: f in Steps(w, j, b).value && Becomes(e, f)
      {
        InSteps(v, i, a, e);
        var f := StepBecomes(w, j, b, e,
          CallEntries(a.toolCalls, i.enqueuedAt), QuestionEntries(v.id, v.actions, a, i.enqueuedAt).value,
          OutputEntries(a.outputs, i.sequence));
      }
    }
  }

  lemma StepBecomes(w: View, j: Input, b: Turn, e: Entry, calls: seq<Entry>, questions: seq<Entry>, outputs: seq<Entry>)
    returns (f: Entry)
    requires Steps(w, j, b).Success? && (e in calls || e in questions || e in outputs)
    requires AllBecome(calls, CallEntries(b.toolCalls, j.enqueuedAt))
    requires AllBecome(questions, QuestionEntries(w.id, w.actions, b, j.enqueuedAt).value)
    requires AllBecome(outputs, OutputEntries(b.outputs, j.sequence))
    ensures f in Steps(w, j, b).value && Becomes(e, f)
  {
    if e in calls {
      f :| f in CallEntries(b.toolCalls, j.enqueuedAt) && Becomes(e, f);
    } else if e in questions {
      f :| f in QuestionEntries(w.id, w.actions, b, j.enqueuedAt).value && Becomes(e, f);
    } else {
      f :| f in OutputEntries(b.outputs, j.sequence) && Becomes(e, f);
    }
    InSteps(w, j, b, f);
  }

  lemma {:induction false} FindInputGrows(a: seq<Input>, b: seq<Input>, v: View, w: View, known: set<string>, text: string)
    requires v.ownerId == w.ownerId
    requires |a| <= |b| && forall i :: 0 <= i < |a| ==> InputGrows(a[i], b[i])
    ensures var i, j := FindInput(a, v, known, text), FindInput(b, w, known, text);
      i.Some? ==> j.Some? && InputGrows(i.value, j.value)
  {
    if a != [] {
      assert InputGrows(a[0], b[0]);
      FindInputGrows(a[1..], b[1..], v, w, known, text);
    }
  }

  lemma {:induction false} FindTurnGrows(v: View, a: seq<Turn>, b: seq<Turn>, id: string)
    requires |a| <= |b| && forall i :: 0 <= i < |a| ==> TurnInView(a[i], b[i], v)
    ensures var t, u := FindTurn(a, id), FindTurn(b, id);
      t.Some? ==> u.Some? && TurnInView(t.value, u.value, v)
  {
    if a != [] {
      assert TurnInView(a[0], b[0], v);
      FindTurnGrows(v, a[1..], b[1..], id);
    }
  }

  predicate Keeps(p: Result<TurnProgress, ProgressError>, q: Result<TurnProgress, ProgressError>) {
    && (p.Failure? ==> q.Failure?)
    && (p.Success? && p.value.outcome.None? && q.Success? ==> AllBecome(p.value.entries, q.value.entries))
  }

  /** Every step a following view does not yet end with is still there in a later view, and so is an unreadable question. */
  lemma ProgressGrows(v: Option<View>, w: Option<View>, known: set<string>, text: string)
    requires GrowsTo(v, w)
    ensures Keeps(ProgressOf(v, known, text), ProgressOf(w, known, text))
  {
    if v.Some? {
      FindInputGrows(v.value.inputs, w.value.inputs, v.value, w.value, known, text);
      var i, j := FindInput(v.value.inputs, v.value, known, text), FindInput(w.value.inputs, w.value, known, text);
      if i.Some? && i.value.lifecycle.Claimed? {
        var id := i.value.lifecycle.turnId;
        FindTurnGrows(v.value, v.value.turns, w.value.turns, id);
        var a, b := FindTurn(v.value.turns, id), FindTurn(w.value.turns, id);
        if a.Some? {
          StepsGrow(v.value, w.value, i.value, j.value, a.value, b.value);
        }
      }
    }
  }

  // ----- one key, one step -----

  predicate DistinctKeys(entries: seq<Entry>) {
    forall i, j :: 0 <= i < j < |entries| ==> entries[i].key != entries[j].key
  }

  lemma DistinctAppend(a: seq<Entry>, b: seq<Entry>)
    requires DistinctKeys(a) && DistinctKeys(b)
    requires forall e, f :: e in a && f in b ==> e.key != f.key
    ensures DistinctKeys(a + b)
  {
    forall i, j | 0 <= i < j < |a + b|
      ensures (a + b)[i].key != (a + b)[j].key
    {
      assert i < |a| <= j ==> (a + b)[i] in a && (a + b)[j] in b;
    }
  }

  lemma {:induction false} CountOfDistinct(entries: seq<Entry>, e: Entry)
    requires DistinctKeys(entries)
    ensures multiset(entries)[e] <= 1
  {
    if entries != [] {
      assert entries == [entries[0]] + entries[1..];
      CountOfDistinct(entries[1..], e);
      if e == entries[0] {
        assert e !in entries[1..];
        assert e !in multiset(entries[1..]);
      }
    }
  }

  lemma DistinctPermuted(a: seq<Entry>, b: seq<Entry>)
    requires multiset(a) == multiset(b) && DistinctKeys(a)
    ensures DistinctKeys(b)
  {
    forall i, j | 0 <= i < j < |b|
      ensures b[i].key != b[j].key
    {
      if b[i] == b[j] {
        assert b == b[..j] + b[j..];
        assert b[i] in b[..j] && b[j] in b[j..];
        assert multiset(b)[b[i]] >= 2;
        CountOfDistinct(a, b[i]);
      } else {
        assert b[i] in multiset(a) && b[j] in multiset(a);
        var k :| 0 <= k < |a| && a[k] == b[i];
        var l :| 0 <= l < |a| && a[l] == b[j];
      }
    }
  }

  /** The sort of a step can be read off its key. */
  predicate KeyOf(entry: Entry) {
    match entry.data
    case ToolData(call) => entry.key == "tool:" + call.id
    case ToolEndData(call) => entry.key == "tool-end:" + call.id
    case QuestionData(id, _) => entry.key == "question:" + id
    case OutputData(output) => entry.key == "output:" + Decimal(output.sequence)
    case TurnData(id, _, _) => entry.key == "turn:" + id
  }

  predicate SameKind(a: Data, b: Data) {
    && (a.ToolData? <==> b.ToolData?) && (a.ToolEndData? <==> b.ToolEndData?) && (a.QuestionData? <==> b.QuestionData?)
    && (a.OutputData? <==> b.OutputData?) && (a.TurnData? <==> b.TurnData?)
  }

  lemma KeysTellKinds(e: Entry, f: Entry)
    requires KeyOf(e) && KeyOf(f) && e.key == f.key
    ensures SameKind(e.data, f.data)
  {
    assert |e.key| >= 5;
    assert e.key[0] == f.key[0] && e.key[1] == f.key[1] && e.key[4] == f.key[4];
  }

  lemma {:induction false} CallKeysDistinct(calls: seq<ToolCall>, since: int)
    requires forall i, j :: 0 <= i < j < |calls| ==> calls[i].id != calls[j].id
    ensures DistinctKeys(CallEntries(calls, since))
    ensures forall e :: e in CallEntries(calls, since) ==>
      KeyOf(e) && ((e.data.ToolData? && e == ToolBegin(e.data.call)) || (e.data.ToolEndData? && e == ToolEnd(e.data.call)))
    ensures forall e :: e in CallEntries(calls, since) ==> e.data.call in calls
  {
    if calls != [] {
      var head, tail := if calls[0].startedAt >= since then ToolEntries(calls[0]) else [], CallEntries(calls[1..], since);
      CallKeysDistinct(calls[1..], since);
      forall e, f | e in head && f in tail
        ensures e.key != f.key
      {
        if e.key == f.key {
          KeysTellKinds(e, f);
          SameTail(if e.data.ToolData? then "tool:" else "tool-end:", e.data.call.id, f.data.call.id);
        }
      }
      assert |head| == 2 ==> head[0].key[4] != head[1].key[4];
      DistinctAppend(head, tail);
    }
  }

  lemma {:induction false} QuestionKeysDistinct(runId: string, actions: seq<Action>, turn: Turn, since: int)
    requires forall i, j :: 0 <= i < j < |actions| ==> actions[i].id != actions[j].id
    requires QuestionEntries(runId, actions, turn, since).Success?
    ensures var entries := QuestionEntries(runId, actions, turn, since).value;
      && DistinctKeys(entries)
      && forall e :: e in entries ==> e.data.QuestionData? && KeyOf(e) && exists action :: action in actions && action.id == e.data.id
  {
    if actions != [] {
      QuestionKeysDistinct(runId, actions[1..], turn, since);
      if AskedIn(turn, since, actions[0]) {
        var head, tail := QuestionEntry(runId, actions[0]), QuestionEntries(runId, actions[1..], turn, since).value;
        forall f | f in tail
          ensures head.key != f.key
        {
          if head.key == f.key {
            SameTail("question:", actions[0].id, f.data.id);
          }
        }
        DistinctAppend([head], tail);
      }
    }
  }

  predicate IsOutputOf(e: Entry, outputs: seq<Output>) {
    e.data.OutputData? && KeyOf(e) && e.data.output in outputs
  }

  lemma OtherOutputs(outputs: seq<Output>, o: Output)
    requires outputs != [] && forall i, j :: 0 <= i < j < |outputs| ==> outputs[i].sequence != outputs[j].sequence
    requires o in outputs[1..]
    ensures o in outputs && o.sequence != outputs[0].sequence
  {
    var k :| 0 <= k < |outputs| - 1 && outputs[1..][k] == o;
    assert o == outputs[k + 1];
  }

  lemma OutputCons(outputs: seq<Output>, tail: seq<Entry>)
    requires outputs != [] && forall i, j :: 0 <= i < j < |outputs| ==> outputs[i].sequence != outputs[j].sequence
    requires DistinctKeys(tail) && forall f :: f in tail ==> IsOutputOf(f, outputs[1..])
    ensures DistinctKeys([OutputEntry(outputs[0])] + tail) && forall f :: f in tail ==> IsOutputOf(f, outputs)
  {
    forall f | f in tail
      ensures OutputEntry(outputs[0]).key != f.key && IsOutputOf(f, outputs)
    {
      OtherOutputs(outputs, f.data.output);
      NumberedApart("output:", outputs[0].sequence, f.data.output.sequence);
    }
    DistinctAppend([OutputEntry(outputs[0])], tail);
  }

  lemma FirstOutput(outputs: seq<Output>, after: nat)
    requires outputs != []
    ensures var tail := OutputEntries(outputs[1..], after);
      OutputEntries(outputs, after) == if Spoken(outputs[0], after) then [OutputEntry(outputs[0])] + tail else tail
  {
    var tail := OutputEntries(outputs[1..], after);
    assert [] + tail == tail;
  }

  lemma OutputsOfMore(outputs: seq<Output>, entries: seq<Entry>)
    requires outputs != [] && forall e :: e in entries ==> IsOutputOf(e, outputs[1..])
    ensures forall e :: e in entries ==> IsOutputOf(e, outputs)
  {
  }

  lemma {:induction false} OutputKeysDistinct(outputs: seq<Output>, after: nat)
    requires forall i, j :: 0 <= i < j < |outputs| ==> outputs[i].sequence != outputs[j].sequence
    ensures DistinctKeys(OutputEntries(outputs, after))
    ensures forall e :: e in OutputEntries(outputs, after) ==> IsOutputOf(e, outputs)
  {
    if outputs != [] {
      var tail := OutputEntries(outputs[1..], after);
      OutputKeysDistinct(outputs[1..], after);
      FirstOutput(outputs, after);
      OutputsOfMore(outputs, tail);
      if Spoken(outputs[0], after) {
        OutputCons(outputs, tail);
        assert IsOutputOf(OutputEntry(outputs[0]), outputs);
      }
    }
  }

  lemma StepKeysDistinct(view: View, input: Input, turn: Turn)
    requires DistinctIds(view) && turn in view.turns && Steps(view, input, turn).Success?
    ensures DistinctKeys(Steps(view, input, turn).value)
    ensures forall e :: e in Steps(view, input, turn).value ==>
      KeyOf(e) && !e.data.TurnData? && (e.data.ToolData? ==> e == ToolBegin(e.data.call) && e.data.call in turn.toolCalls)
  {
    var calls := CallEntries(turn.toolCalls, input.enqueuedAt);
    var questions := QuestionEntries(view.id, view.actions, turn, input.enqueuedAt).value;
    var outputs := OutputEntries(turn.outputs, input.sequence);
    CallKeysDistinct(turn.toolCalls, input.enqueuedAt);
    QuestionKeysDistinct(view.id, view.actions, turn, input.enqueuedAt);
    OutputKeysDistinct(turn.outputs, input.sequence);
    KindsApart(calls, questions);
    DistinctAppend(calls, questions);
    KindsApart(calls + questions, outputs);
    DistinctAppend(calls + questions, outputs);
    SortIsStable(calls + questions + outputs, 0);
    DistinctPermuted(calls + questions + outputs, Steps(view, input, turn).value);
    forall e | e in Steps(view, input, turn).value
      ensures KeyOf(e) && !e.data.TurnData? && (e.data.ToolData? ==> e == ToolBegin(e.data.call) && e.data.call in turn.toolCalls)
    {
      InSteps(view, input, turn, e);
    }
  }

  lemma KindsApart(a: seq<Entry>, b: seq<Entry>)
    requires forall e :: e in a ==> KeyOf(e)
    requires forall f :: f in b ==> KeyOf(f)
    requires forall e, f :: e in a && f in b ==> !SameKind(e.data, f.data)
    ensures forall e, f :: e in a && f in b ==> e.key != f.key
  {
    forall e, f | e in a && f in b
      ensures e.key != f.key
    {
      if e.key == f.key {
        KeysTellKinds(e, f);
      }
    }
  }

  lemma {:induction false} FoundTurn(turns: seq<Turn>, id: string)
    ensures FindTurn(turns, id).Some? ==> FindTurn(turns, id).value in turns
  {
    if turns != [] {
      FoundTurn(turns[1..], id);
    }
  }

  predicate Keyed(entries: seq<Entry>) {
    && DistinctKeys(entries)
    && forall e :: e in entries && e.data.ToolData? ==>
         KeyOf(e) && e == ToolBegin(e.data.call) && (e.data.call.status == Running ==> e.data.call.finishedAt == None)
  }

  /** One progress never names a step twice, and a tool's beginning shows a call of its view. */
  lemma ProgressKeysDistinct(view: Option<View>, known: set<string>, text: string)
    requires view.Some? ==> DistinctIds(view.value) && RunningIsOpen(view.value)
    requires ProgressOf(view, known, text).Success?
    ensures Keyed(ProgressOf(view, known, text).value.entries)
  {
    if view.Some? {
      var v := view.value;
      var input := FindInput(v.inputs, v, known, text);
      if input.Some? && input.value.lifecycle.Claimed? {
        var id := input.value.lifecycle.turnId;
        FoundTurn(v.turns, id);
        var turn := FindTurn(v.turns, id);
        if turn.Some? {
          StepKeysDistinct(v, input.value, turn.value);
          var steps := Steps(v, input.value, turn.value).value;
          KindsApart(steps, [EndEntry(turn.value)]);
          DistinctAppend(steps, [EndEntry(turn.value)]);
        }
      }
    }
  }

  // ----- the order of the steps -----

  predicate Ends(e: Entry) {
    e.data.TurnData?
  }

  /** By time, but for the end of the turn, which comes last. */
  predicate Chronological(entries: seq<Entry>) {
    forall i, j :: 0 <= i < j < |entries| ==> !Ends(entries[i]) && (entries[i].at <= entries[j].at || Ends(entries[j]))
  }

  lemma StepsAreOrdered(view: View, input: Input, turn: Turn)
    requires Steps(view, input, turn).Success?
    ensures Ordered(Steps(view, input, turn).value)
  {
    SortIsStable(CallEntries(turn.toolCalls, input.enqueuedAt)
      + QuestionEntries(view.id, view.actions, turn, input.enqueuedAt).value + OutputEntries(turn.outputs, input.sequence), 0);
  }

  /** What a view shows is in the order of time; the end of the turn is there exactly if it has ended, and then comes last. */
  lemma ShownInOrder(view: Option<View>, known: set<string>, text: string)
    requires Sound(view) && ProgressOf(view, known, text).Success?
    ensures var progress := ProgressOf(view, known, text);
      && Chronological(progress.value.entries)
      && (forall e :: e in progress.value.entries ==> KeyOf(e))
      && ((exists e :: e in progress.value.entries && Ends(e)) <==> progress.value.entries != [] && HasEnded(progress))
      && (progress.value.entries != [] && HasEnded(progress) ==> Ends(progress.value.entries[|progress.value.entries| - 1]))
  {
    if view.Some? {
      var v := view.value;
      var input := FindInput(v.inputs, v, known, text);
      if input.Some? && input.value.lifecycle.Claimed? {
        FoundTurn(v.turns, input.value.lifecycle.turnId);
        var turn := FindTurn(v.turns, input.value.lifecycle.turnId);
        if turn.Some? {
          StepKeysDistinct(v, input.value, turn.value);
          StepsAreOrdered(v, input.value, turn.value);
          EndComesLast(Steps(v, input.value, turn.value).value, turn.value);
        }
      }
    }
  }

  lemma EndComesLast(steps: seq<Entry>, turn: Turn)
    requires Ordered(steps) && forall e :: e in steps ==> !Ends(e)
    ensures Chronological(steps) && Chronological(steps + [EndEntry(turn)])
    ensures EndEntry(turn) in steps + [EndEntry(turn)] && Ends(EndEntry(turn)) && KeyOf(EndEntry(turn))
  {
    forall i | 0 <= i < |steps|
      ensures !Ends(steps[i])
    {
      assert steps[i] in steps;
    }
  }

  // ----- views after the end of the turn -----

  predicate HasEnded(progress: Result<TurnProgress, ProgressError>) {
    progress.Success? && progress.value.outcome.Some?
  }

  /** The actions that only the later of two views contains. */
  function LaterActions(v: View, w: View): seq<Action>
    requires |v.actions| <= |w.actions|
  {
    w.actions[|v.actions|..]
  }

  /** The questions that only the later view attributes to the turn that the earlier one shows. */
  function LateQuestions(v: View, w: View, known: set<string>, text: string): Result<seq<Entry>, ProgressError>
    requires |v.actions| <= |w.actions|
  {
    var input := FindInput(v.inputs, v, known, text);
    if input.None? || !input.value.lifecycle.Claimed? then Success([])
    else
      var turn := FindTurn(v.turns, input.value.lifecycle.turnId);
      if turn.None? then Success([]) else QuestionEntries(v.id, LaterActions(v, w), turn.value, input.value.enqueuedAt)
  }

  /** No action that was appended after the view belongs to the turn that the view shows. */
  predicate NoLateQuestion(v: View, w: View, known: set<string>, text: string)
    requires |v.actions| <= |w.actions|
  {
    var input := FindInput(v.inputs, v, known, text);
    input.Some? && input.value.lifecycle.Claimed? ==>
      var turn := FindTurn(v.turns, input.value.lifecycle.turnId);
      turn.Some? ==> forall action :: action in LaterActions(v, w) ==> !AskedIn(turn.value, input.value.enqueuedAt, action)
  }

  lemma {:induction false} NoneAsked(runId: string, actions: seq<Action>, turn: Turn, since: int)
    ensures QuestionEntries(runId, actions, turn, since) == Success([])
      <==> forall action :: action in actions ==> !AskedIn(turn, since, action)
  {
    if actions != [] {
      NoneAsked(runId, actions[1..], turn, since);
      assert forall action :: action in actions <==> action == actions[0] || action in actions[1..];
    }
  }

  lemma NoLateQuestionIsExact(v: View, w: View, known: set<string>, text: string)
    requires |v.actions| <= |w.actions|
    ensures LateQuestions(v, w, known, text) == Success([]) <==> NoLateQuestion(v, w, known, text)
  {
    var input := FindInput(v.inputs, v, known, text);
    if input.Some? && input.value.lifecycle.Claimed? {
      var turn := FindTurn(v.turns, input.value.lifecycle.turnId);
      if turn.Some? {
        NoneAsked(v.id, LaterActions(v, w), turn.value, input.value.enqueuedAt);
      }
    }
  }

  /** Two lists of questions one after the other, unless one of them cannot be read. */
  function BothQuestions(a: Result<seq<Entry>, ProgressError>, b: Result<seq<Entry>, ProgressError>): Result<seq<Entry>, ProgressError> {
    if a.Failure? || b.Failure? then Failure(InvalidQuestions) else Success(a.value + b.value)
  }

  lemma {:induction false} QuestionsAppend(runId: string, a: seq<Action>, b: seq<Action>, turn: Turn, since: int)
    ensures QuestionEntries(runId, a + b, turn, since)
      == BothQuestions(QuestionEntries(runId, a, turn, since), QuestionEntries(runId, b, turn, since))
  {
    var more := QuestionEntries(runId, b, turn, since);
    if a == [] {
      assert a + b == b;
      if more.Success? {
        assert [] + more.value == more.value;
      } else {
        assert more.error == InvalidQuestions;
      }
    } else {
      assert (a + b)[0] == a[0] && (a + b)[1..] == a[1..] + b;
      QuestionsAppend(runId, a[1..], b, turn, since);
      var rest := QuestionEntries(runId, a[1..], turn, since);
      if AskedIn(turn, since, a[0]) && a[0].questions.Some? && rest.Success? && more.Success? {
        assert [QuestionEntry(runId, a[0])] + (rest.value + more.value) == ([QuestionEntry(runId, a[0])] + rest.value) + more.value;
      }
    }
  }

  /** Every question has a line of its own. */
  lemma {:induction false} QuestionsHaveLines(runId: string, actions: seq<Action>, turn: Turn, since: int)
    requires QuestionEntries(runId, actions, turn, since).Success?
    ensures forall e :: e in QuestionEntries(runId, actions, turn, since).value ==> e.line.Some?
  {
    if actions != [] {
      QuestionsHaveLines(runId, actions[1..], turn, since);
    }
  }

  /** The later progress has the steps of the earlier one and some more. */
  predicate AddsSteps(p: Result<TurnProgress, ProgressError>, q: Result<TurnProgress, ProgressError>, more: seq<Entry>) {
    && p.Success? && q.Success? && (forall e :: e in more ==> e.line.Some?)
    && multiset(q.value.entries) == multiset(p.value.entries) + multiset(more)
  }

  lemma SortedWithMore(calls: seq<Entry>, questions: seq<Entry>, more: seq<Entry>, outputs: seq<Entry>)
    ensures multiset(Sorted(calls + (questions + more) + outputs)) == multiset(Sorted(calls + questions + outputs)) + multiset(more)
  {
    SortIsStable(calls + (questions + more) + outputs, 0);
    SortIsStable(calls + questions + outputs, 0);
  }

  lemma StepsWithMore(v: View, w: View, input: Input, turn: Turn)
    requires v.id == w.id && v.actions <= w.actions && Steps(v, input, turn).Success?
    ensures var late := QuestionEntries(v.id, LaterActions(v, w), turn, input.enqueuedAt);
      && (Steps(w, input, turn).Success? <==> late.Success?)
      && (late.Success? ==> multiset(Steps(w, input, turn).value) == multiset(Steps(v, input, turn).value) + multiset(late.value))
      && (late == Success([]) ==> Steps(w, input, turn) == Steps(v, input, turn))
  {
    var since := input.enqueuedAt;
    var first, late := QuestionEntries(v.id, v.actions, turn, since), QuestionEntries(v.id, LaterActions(v, w), turn, since);
    assert w.actions == v.actions + LaterActions(v, w);
    QuestionsAppend(v.id, v.actions, LaterActions(v, w), turn, since);
    if late.Success? {
      SortedWithMore(CallEntries(turn.toolCalls, since), first.value, late.value, OutputEntries(turn.outputs, input.sequence));
      if late.value == [] {
        assert first.value + [] == first.value;
      }
    }
  }

  lemma EndedStays(v: View, w: View, known: set<string>, text: string)
    requires Grows(v, w) && HasEnded(ProgressOf(Some(v), known, text))
    ensures var i, j := FindInput(v.inputs, v, known, text), FindInput(w.inputs, w, known, text);
      && i.Some? && i == j && !i.value.lifecycle.Pending?
      && (i.value.lifecycle.Claimed? ==>
            var a := FindTurn(v.turns, i.value.lifecycle.turnId);
            a.Some? && a.value.status != Running && FindTurn(w.turns, i.value.lifecycle.turnId) == a
              && Steps(v, i.value, a.value).Success?)
  {
    FindInputGrows(v.inputs, w.inputs, v, w, known, text);
    var i := FindInput(v.inputs, v, known, text);
    if i.value.lifecycle.Claimed? {
      FindTurnGrows(v, v.turns, w.turns, i.value.lifecycle.turnId);
    }
  }

  lemma EndedViewExists(view: Option<View>, known: set<string>, text: string)
    requires HasEnded(ProgressOf(view, known, text))
    ensures view.Some?
  {
  }

  /** A poll can find nothing new. */
  lemma GrowsToItself(view: View)
    requires RunningIsOpen(view)
    ensures Grows(view, view)
  {
    forall t | t in view.turns
      ensures TurnGrows(t, t)
    {
    }
  }

  /** What a later view adds to an ended turn are its late questions. */
  lemma LateQuestionsAreAdded(v: View, w: View, known: set<string>, text: string)
    requires Grows(v, w) && HasEnded(ProgressOf(Some(v), known, text))
    ensures var late := LateQuestions(v, w, known, text); var p, q := ProgressOf(Some(v), known, text), ProgressOf(Some(w), known, text);
      && (q.Success? <==> late.Success?)
      && (late.Success? ==> AddsSteps(p, q, late.value))
      && (late == Success([]) ==> q == p)
  {
    EndedStays(v, w, known, text);
    var i := FindInput(v.inputs, v, known, text).value;
    if i.lifecycle.Claimed? {
      var turn := FindTurn(v.turns, i.lifecycle.turnId).value;
      StepsWithMore(v, w, i, turn);
      if LateQuestions(v, w, known, text).Success? {
        QuestionsHaveLines(v.id, LaterActions(v, w), turn, i.enqueuedAt);
      }
    }
  }

  /** The exact condition: a later view shows an ended turn as before if and only if no action appended since is asked in it. */
  lemma EndedProgressStays(v: View, w: View, known: set<string>, text: string)
    requires Grows(v, w) && HasEnded(ProgressOf(Some(v), known, text))
    ensures ProgressOf(Some(w), known, text) == ProgressOf(Some(v), known, text) <==> NoLateQuestion(v, w, known, text)
  {
    LateQuestionsAreAdded(v, w, known, text);
    NoLateQuestionIsExact(v, w, known, text);
    var late := LateQuestions(v, w, known, text);
    if late.Success? && late.value != [] {
      MoreSteps(ProgressOf(Some(v), known, text), ProgressOf(Some(w), known, text), late.value);
    }
  }

  lemma MoreSteps(p: Result<TurnProgress, ProgressError>, q: Result<TurnProgress, ProgressError>, more: seq<Entry>)
    requires AddsSteps(p, q, more) && more != []
    ensures p != q
  {
    assert |multiset(q.value.entries)| == |multiset(p.value.entries)| + |multiset(more)|;
  }

  /** It is enough that whatever is appended is dated after the end of the turn, in a later millisecond. */
  lemma LaterDatesAreNotLate(v: View, w: View, known: set<string>, text: string, turn: Turn)
    requires Grows(v, w) && FindInput(v.inputs, v, known, text).Some?
    requires var input := FindInput(v.inputs, v, known, text).value;
      input.lifecycle.Claimed? ==> FindTurn(v.turns, input.lifecycle.turnId) == Some(turn)
    requires turn.finishedAt.Some?
    requires forall action :: action in LaterActions(v, w) ==> action.proposedAt > turn.finishedAt.value
    ensures NoLateQuestion(v, w, known, text)
  {
  }

  // ----- a projection of views -----

  type Projection = Option<View> -> Result<TurnProgress, ProgressError>

  function Projecting(known: set<string>, text: string): Projection {
    (poll: Option<View>) => ProgressOf(poll, known, text)
  }

  /** What the polling loop relies on: steps have keys of their own, and later views keep what earlier ones show. */
  ghost predicate Lawful(project: Projection) {
    && (forall v: Option<View>, w: Option<View> {:trigger GrowsTo(v, w)} :: GrowsTo(v, w) ==> Keeps(project(v), project(w)))
    && (forall v: Option<View> {:trigger Sound(v)} :: Sound(v) && project(v).Success? ==> Keyed(project(v).value.entries))
  }

  lemma ProgressIsLawful(known: set<string>, text: string)
    ensures Lawful(Projecting(known, text))
  {
    var project := Projecting(known, text);
    forall v: Option<View>, w: Option<View> {:trigger GrowsTo(v, w)} | GrowsTo(v, w)
      ensures Keeps(project(v), project(w))
    {
      ProgressGrows(v, w, known, text);
    }
    forall v: Option<View> {:trigger Sound(v)} | Sound(v) && project(v).Success?
      ensures Keyed(project(v).value.entries)
    {
      ProgressKeysDistinct(v, known, text);
    }
  }
}
