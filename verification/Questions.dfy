/**
 scripts/acp/questions.ts and plugins/ragents.ask/ask-payload.ts 47-48 and 99-125: the form an editor shows for some questions, and
 whether the answers read from it are acceptable.
 */
module Questions {
  import opened Lines
  import opened Numbers
  import opened Unique
  import opened Wrappers

  datatype AskOption = AskOption(choice: string, description: string)

  datatype Question = Question(question: string, header: string, options: seq<AskOption>, multiSelect: bool)

  datatype Answer = Selected(labels: seq<string>) | FreeText(text: string)

  function Labels(question: Question): seq<string> {
    seq(|question.options|, i requires 0 <= i < |question.options| => question.options[i].choice)
  }

  // ----- the form -----

  /** What a field of the form takes: some of the labels, one of them, or any text. */
  datatype Schema = SomeOf(labels: seq<string>) | OneOf(labels: seq<string>) | AnyText

  /** What the content of the form holds for a field. */
  datatype Value = Text(text: string) | List(items: seq<Value>) | OtherValue

  function Field(index: nat): string {
    "answer_" + Decimal(index + 1)
  }

  function TextField(index: nat): string {
    Field(index) + "_text"
  }

  function Selection(question: Question): Schema {
    if question.multiSelect then SomeOf(Labels(question)) else OneOf(Labels(question))
  }

  /** `Object.fromEntries`: of two entries of one name the later one stays. */
  function FormOf(questions: seq<Question>): map<string, Schema> {
    if questions == [] then map[]
    else
      var last := |questions| - 1;
      FormOf(questions[..last])[Field(last) := Selection(questions[last])][TextField(last) := AnyText]
  }

  predicate Fits(value: Value, schema: Schema) {
    match schema
    case SomeOf(labels) =>
      value.List? && value.items != [] && forall i :: 0 <= i < |value.items| ==> value.items[i].Text? && value.items[i].text in labels
    case OneOf(labels) => value.Text? && value.text in labels
    case AnyText => value.Text?
  }

  /** Every field is optional; the ones that are there follow the form. */
  predicate Conforms(content: map<string, Value>, form: map<string, Schema>) {
    forall field :: field in content && field in form ==> Fits(content[field], form[field])
  }

  // ----- the answers -----

  function Get(content: map<string, Value>, field: string): Option<Value> {
    if field in content then Some(content[field]) else None
  }

  /** A text that is not blank. */
  predicate IsFree(text: Option<Value>) {
    text.Some? && text.value.Text? && Trim(text.value.text) != ""
  }

  predicate AllTexts(items: seq<Value>) {
    forall i :: 0 <= i < |items| ==> items[i].Text?
  }

  function Texts(items: seq<Value>): seq<string>
    requires AllTexts(items)
  {
    seq(|items|, i requires 0 <= i < |items| => items[i].text)
  }

  /** What the content holds in the two fields of a question. */
  datatype Slot = Slot(text: Option<Value>, selected: Option<Value>)

  function SlotAt(content: map<string, Value>, index: nat): Slot {
    Slot(Get(content, TextField(index)), Get(content, Field(index)))
  }

  function Slots(content: map<string, Value>, count: nat): seq<Slot> {
    seq(count, i requires 0 <= i < count => SlotAt(content, i))
  }

  /** A free text, or else the selection. */
  function AnswerOf(slot: Slot): Option<Answer> {
    if IsFree(slot.text) then Some(FreeText(slot.text.value.text))
    else match slot.selected
      case Some(Text(choice)) => Some(Selected([choice]))
      case Some(List(items)) => if AllTexts(items) then Some(Selected(Texts(items))) else None
      case _ => None
  }

  datatype Error = NeedsAnswer(index: nat)

  /** All answers, or the first question without one. */
  function Collect(answers: seq<Option<Answer>>): Result<seq<Answer>, Error> {
    if answers == [] then Success([])
    else
      var last := |answers| - 1;
      var before := Collect(answers[..last]);
      if before.Failure? then before
      else if answers[last].None? then Failure(NeedsAnswer(last))
      else Success(before.value + [answers[last].value])
  }

  function AnswersOf(slots: seq<Slot>): Result<seq<Answer>, Error> {
    Collect(seq(|slots|, i requires 0 <= i < |slots| => AnswerOf(slots[i])))
  }

  function Answers(questions: seq<Question>, content: map<string, Value>): Result<seq<Answer>, Error> {
    AnswersOf(Slots(content, |questions|))
  }

  // ----- complaints -----

  datatype Complaint =
    | WrongCount
    | BlankText(index: nat)
    | NothingSelected(index: nat)
    | TooMany(index: nat)
    | UnknownLabel(index: nat, place: nat)
    | Twice(index: nat, choice: string)

  /** The values that have stood before, each once. */
  function DuplicatesOf(values: seq<string>): seq<string> {
    Distinct(Again(values))
  }

  function Again(values: seq<string>): seq<string> {
    if values == [] then []
    else
      var front, last := values[..|values| - 1], values[|values| - 1];
      Again(front) + (if last in front then [last] else [])
  }

  function UnknownFrom(index: nat, labels: seq<string>, selected: seq<string>, from: nat): seq<Complaint>
    requires from <= |selected|
    decreases |selected| - from
  {
    if from == |selected| then []
    else (if selected[from] in labels then [] else [UnknownLabel(index, from)]) + UnknownFrom(index, labels, selected, from + 1)
  }

  function AnswerComplaints(question: Question, answer: Answer, index: nat): seq<Complaint> {
    match answer
    case FreeText(text) => if Trim(text) == "" then [BlankText(index)] else []
    case Selected(selected) =>
      (if selected == [] then [NothingSelected(index)] else [])
      + (if !question.multiSelect && |selected| > 1 then [TooMany(index)] else [])
      + UnknownFrom(index, Labels(question), selected, 0)
      + TwiceIn(index, DuplicatesOf(selected))
  }

  function TwiceIn(index: nat, labels: seq<string>): seq<Complaint> {
    seq(|labels|, i requires 0 <= i < |labels| => Twice(index, labels[i]))
  }

  /** `flatMap` over the questions; a question without an answer has no complaint of its own. */
  function AllComplaints(questions: seq<Question>, answers: seq<Answer>): seq<Complaint> {
    (if |answers| == |questions| then [] else [WrongCount])
    + Flat(seq(|questions|, i requires 0 <= i < |questions| =>
        if i < |answers| then AnswerComplaints(questions[i], answers[i], i) else []))
  }

  function Flat(lists: seq<seq<Complaint>>): seq<Complaint> {
    if lists == [] then [] else lists[0] + Flat(lists[1..])
  }

  // ----- the names of the fields -----

  /** No two fields of a form have the same name. */
  lemma FieldNamesDiffer(i: nat, j: nat)
    ensures Field(i) == Field(j) ==> i == j
    ensures TextField(i) == TextField(j) ==> i == j
    ensures Field(i) != TextField(j)
  {
    if TextField(i) == TextField(j) {
      SameHead(Field(i), Field(j), "_text");
    }
    NumberedApart("answer_", i + 1, j + 1);
    var digits, field := Decimal(i + 1), Field(i);
    assert field[|field| - 1] == digits[|digits| - 1];
    assert TextField(j)[|TextField(j)| - 1] == "_text"[4];
  }

  /** Nothing in the form replaces the fields of a question. */
  lemma {:induction false} FormHasFields(questions: seq<Question>, index: nat)
    requires index < |questions|
    ensures Field(index) in FormOf(questions) && FormOf(questions)[Field(index)] == Selection(questions[index])
    ensures TextField(index) in FormOf(questions) && FormOf(questions)[TextField(index)] == AnyText
  {
    var last := |questions| - 1;
    FieldNamesDiffer(index, last);
    FieldNamesDiffer(last, index);
    if index < last {
      FormHasFields(questions[..last], index);
    }
  }

  // ----- acceptable answers -----

  lemma {:induction false} AgainIsEmpty(values: seq<string>)
    ensures Again(values) == [] <==> NoTwice(values)
  {
    if values != [] {
      var front, last := values[..|values| - 1], values[|values| - 1];
      assert values == front + [last];
      AgainIsEmpty(front);
    }
  }

  lemma NoDuplicates(values: seq<string>)
    ensures DuplicatesOf(values) == [] <==> NoTwice(values)
  {
    AgainIsEmpty(values);
    DistinctHasAll(Again(values));
    if Again(values) != [] {
      assert Again(values)[0] in DuplicatesOf(values);
    }
  }

  lemma {:induction false} NoneUnknown(index: nat, labels: seq<string>, selected: seq<string>, from: nat)
    requires from <= |selected|
    ensures UnknownFrom(index, labels, selected, from) == [] <==> forall i :: from <= i < |selected| ==> selected[i] in labels
    decreases |selected| - from
  {
    if from < |selected| {
      NoneUnknown(index, labels, selected, from + 1);
    }
  }

  /** An answer that follows the question: a text that is not blank, or some of the labels, one only where only one is allowed. */
  predicate Acceptable(question: Question, answer: Answer) {
    match answer
    case FreeText(text) => Trim(text) != ""
    case Selected(selected) =>
      && selected != [] && (question.multiSelect || |selected| == 1)
      && (forall i :: 0 <= i < |selected| ==> selected[i] in Labels(question))
      && NoTwice(selected)
  }

  lemma NoComplaint(question: Question, answer: Answer, index: nat)
    ensures AnswerComplaints(question, answer, index) == [] <==> Acceptable(question, answer)
  {
    if answer.Selected? {
      NoneUnknown(index, Labels(question), answer.labels, 0);
      NoDuplicates(answer.labels);
    }
  }

  lemma {:induction false} FlatIsEmpty(lists: seq<seq<Complaint>>)
    ensures Flat(lists) == [] <==> forall i :: 0 <= i < |lists| ==> lists[i] == []
  {
    if lists != [] {
      FlatIsEmpty(lists[1..]);
      assert lists == [lists[0]] + lists[1..];
    }
  }

  /** The complaints are exact: there are none if and only if there is one acceptable answer for each question. */
  lemma ComplaintsAreExact(questions: seq<Question>, answers: seq<Answer>)
    ensures AllComplaints(questions, answers) == [] <==>
      |answers| == |questions| && forall i :: 0 <= i < |questions| ==> Acceptable(questions[i], answers[i])
  {
    if |answers| == |questions| {
      var lists := seq(|questions|, i requires 0 <= i < |questions| =>
        if i < |answers| then AnswerComplaints(questions[i], answers[i], i) else []);
      FlatIsEmpty(lists);
      forall i | 0 <= i < |questions|
        ensures lists[i] == [] <==> Acceptable(questions[i], answers[i])
      {
        NoComplaint(questions[i], answers[i], i);
      }
    }
  }

  /** What is wrong with one answer. */
  predicate IsFaultOf(question: Question, answer: Answer, complaint: Complaint) {
    match complaint
    case WrongCount => false
    case BlankText(_) => answer.FreeText? && Trim(answer.text) == ""
    case NothingSelected(_) => answer == Selected([])
    case TooMany(_) => answer.Selected? && !question.multiSelect && |answer.labels| > 1
    case UnknownLabel(_, place) => answer.Selected? && place < |answer.labels| && answer.labels[place] !in Labels(question)
    case Twice(_, choice) =>
      answer.Selected? && exists j, k :: 0 <= j < k < |answer.labels| && answer.labels[j] == answer.labels[k] == choice
  }

  /** What each complaint complains about. */
  predicate IsFault(questions: seq<Question>, answers: seq<Answer>, complaint: Complaint) {
    if complaint.WrongCount? then |answers| != |questions|
    else
      && complaint.index < |questions| && complaint.index < |answers|
      && IsFaultOf(questions[complaint.index], answers[complaint.index], complaint)
  }

  lemma InEither<T>(a: seq<T>, b: seq<T>, x: T)
    ensures x in a + b <==> x in a || x in b
  {
  }

  lemma UnknownOneMore(index: nat, labels: seq<string>, selected: seq<string>, from: nat, complaint: Complaint)
    requires from < |selected|
    ensures complaint in UnknownFrom(index, labels, selected, from) <==>
      || (complaint == UnknownLabel(index, from) && selected[from] !in labels)
      || complaint in UnknownFrom(index, labels, selected, from + 1)
  {
    InEither(if selected[from] in labels then [] else [UnknownLabel(index, from)],
             UnknownFrom(index, labels, selected, from + 1), complaint);
  }

  lemma {:induction false} UnknownAreListed(index: nat, labels: seq<string>, selected: seq<string>, from: nat, complaint: Complaint)
    requires from <= |selected|
    ensures complaint in UnknownFrom(index, labels, selected, from) <==>
      complaint.UnknownLabel? && complaint.index == index && from <= complaint.place < |selected| && selected[complaint.place] !in labels
    decreases |selected| - from
  {
    if from < |selected| {
      UnknownAreListed(index, labels, selected, from + 1, complaint);
      UnknownOneMore(index, labels, selected, from, complaint);
    }
  }

  lemma {:induction false} AgainAreListed(values: seq<string>, choice: string)
    ensures choice in Again(values) <==> exists j, k :: 0 <= j < k < |values| && values[j] == values[k] == choice
  {
    if values != [] {
      var front, last := values[..|values| - 1], values[|values| - 1];
      assert values == front + [last];
      AgainAreListed(front, choice);
      if last == choice && choice in front {
        var j :| 0 <= j < |front| && front[j] == choice;
        assert values[j] == values[|values| - 1] == choice;
      }
    }
  }

  lemma TwiceAreListed(index: nat, selected: seq<string>, complaint: Complaint)
    ensures complaint in TwiceIn(index, DuplicatesOf(selected)) <==>
      && complaint.Twice? && complaint.index == index
      && exists j, k :: 0 <= j < k < |selected| && selected[j] == selected[k] == complaint.choice
  {
    if complaint.Twice? {
      AgainAreListed(selected, complaint.choice);
      DistinctHasAll(Again(selected));
    }
    var labels := DuplicatesOf(selected);
    if complaint.Twice? && complaint.index == index && complaint.choice in labels {
      var i :| 0 <= i < |labels| && labels[i] == complaint.choice;
      assert TwiceIn(index, labels)[i] == complaint;
    }
  }

  lemma InParts<T>(a: seq<T>, b: seq<T>, c: seq<T>, d: seq<T>, x: T)
    ensures x in a + b + c + d <==> x in a || x in b || x in c || x in d
  {
  }

  lemma FaultsOfSelection(question: Question, selected: seq<string>, index: nat, complaint: Complaint)
    ensures complaint in AnswerComplaints(question, Selected(selected), index) <==>
      || (complaint == NothingSelected(index) && selected == [])
      || (complaint == TooMany(index) && !question.multiSelect && |selected| > 1)
      || complaint in UnknownFrom(index, Labels(question), selected, 0)
      || complaint in TwiceIn(index, DuplicatesOf(selected))
  {
    InParts(if selected == [] then [NothingSelected(index)] else [],
            if !question.multiSelect && |selected| > 1 then [TooMany(index)] else [],
            UnknownFrom(index, Labels(question), selected, 0), TwiceIn(index, DuplicatesOf(selected)), complaint);
  }

  lemma SelectionComplaints(question: Question, selected: seq<string>, index: nat, complaint: Complaint)
    ensures complaint in AnswerComplaints(question, Selected(selected), index) <==>
      !complaint.WrongCount? && complaint.index == index && IsFaultOf(question, Selected(selected), complaint)
  {
    FaultsOfSelection(question, selected, index, complaint);
    UnknownAreListed(index, Labels(question), selected, 0, complaint);
    TwiceAreListed(index, selected, complaint);
  }

  lemma FaultsOfAnswer(questions: seq<Question>, answers: seq<Answer>, index: nat, complaint: Complaint)
    requires index < |questions| && index < |answers|
    ensures complaint in AnswerComplaints(questions[index], answers[index], index) <==>
      !complaint.WrongCount? && complaint.index == index && IsFault(questions, answers, complaint)
  {
    match answers[index]
    case FreeText(_) =>
    case Selected(selected) => SelectionComplaints(questions[index], selected, index, complaint);
  }

  lemma {:induction false} FlatHasAll(lists: seq<seq<Complaint>>, complaint: Complaint)
    ensures complaint in Flat(lists) <==> exists i :: 0 <= i < |lists| && complaint in lists[i]
  {
    if lists != [] {
      FlatHasAll(lists[1..], complaint);
      if i :| 0 <= i < |lists[1..]| && complaint in lists[1..][i] {
        assert complaint in lists[i + 1];
      }
      if i :| 0 <= i < |lists| && complaint in lists[i] {
        assert i > 0 ==> complaint in lists[1..][i - 1];
      }
    }
  }

  /** Every fault is complained about, at its place, and nothing else is. */
  lemma ComplaintsAreFaults(questions: seq<Question>, answers: seq<Answer>, complaint: Complaint)
    ensures complaint in AllComplaints(questions, answers) <==> IsFault(questions, answers, complaint)
  {
    var lists := seq(|questions|, i requires 0 <= i < |questions| =>
      if i < |answers| then AnswerComplaints(questions[i], answers[i], i) else []);
    FlatHasAll(lists, complaint);
    forall i | 0 <= i < |lists|
      ensures complaint in lists[i] <==>
        i < |answers| && !complaint.WrongCount? && complaint.index == i && IsFault(questions, answers, complaint)
    {
      if i < |answers| {
        FaultsOfAnswer(questions, answers, i, complaint);
      }
    }
    if !complaint.WrongCount? && IsFault(questions, answers, complaint) {
      assert complaint in lists[complaint.index];
    }
  }

  // ----- answers from a form -----

  lemma {:induction false} CollectsAll(answers: seq<Option<Answer>>)
    ensures Collect(answers).Success? <==> forall i :: 0 <= i < |answers| ==> answers[i].Some?
    ensures Collect(answers).Success? ==> |Collect(answers).value| == |answers|
    ensures Collect(answers).Success? ==> forall i :: 0 <= i < |answers| ==> answers[i] == Some(Collect(answers).value[i])
    ensures Collect(answers).Failure? ==> Collect(answers).error.index < |answers| && answers[Collect(answers).error.index].None?
    ensures Collect(answers).Failure? ==> forall i :: 0 <= i < Collect(answers).error.index ==> answers[i].Some?
  {
    if answers != [] {
      var front, last := answers[..|answers| - 1], answers[|answers| - 1];
      assert answers == front + [last];
      CollectsAll(front);
    }
  }

  /** A list that is read as the selection contains a choice twice. */
  predicate RepeatsChoice(slot: Slot) {
    !IsFree(slot.text) && slot.selected.Some? && slot.selected.value.List? && !NoTwice(slot.selected.value.items)
  }

  predicate IsGiven(slot: Slot) {
    IsFree(slot.text) || slot.selected.Some?
  }

  predicate Follows(slot: Slot, question: Question) {
    && (slot.text.Some? ==> Fits(slot.text.value, AnyText))
    && (slot.selected.Some? ==> Fits(slot.selected.value, Selection(question)))
  }

  lemma TextsRepeat(items: seq<Value>)
    requires AllTexts(items)
    ensures NoTwice(Texts(items)) <==> NoTwice(items)
  {
    if !NoTwice(items) {
      var i, j :| 0 <= i < j < |items| && items[i] == items[j];
      assert Texts(items)[i] == Texts(items)[j];
    }
    if !NoTwice(Texts(items)) {
      var i, j :| 0 <= i < j < |items| && Texts(items)[i] == Texts(items)[j];
      assert items[i] == items[j];
    }
  }

  lemma FittingAnswer(question: Question, slot: Slot)
    requires Follows(slot, question)
    ensures AnswerOf(slot).Some? <==> IsGiven(slot)
    ensures AnswerOf(slot).Some? ==> (Acceptable(question, AnswerOf(slot).value) <==> !RepeatsChoice(slot))
  {
    if !IsFree(slot.text) && slot.selected.Some? && slot.selected.value.List? {
      TextsRepeat(slot.selected.value.items);
    }
  }

  /**
   Answers are sent exactly when each question has a free answer or a selection, otherwise the first one without is named; and
   nothing is wrong with the answers sent exactly when no list repeats a choice.
   */
  ghost predicate ReadsWell(questions: seq<Question>, slots: seq<Slot>, answers: Result<seq<Answer>, Error>) {
    && (answers.Success? <==> forall i :: 0 <= i < |slots| ==> IsGiven(slots[i]))
    && (answers.Failure? ==> answers.error.index < |slots| && !IsGiven(slots[answers.error.index]))
    && (answers.Failure? ==> forall i :: 0 <= i < answers.error.index < |slots| ==> IsGiven(slots[i]))
    && (answers.Success? ==>
          (AllComplaints(questions, answers.value) == [] <==> forall i :: 0 <= i < |slots| ==> !RepeatsChoice(slots[i])))
  }

  lemma SlotsReadWell(questions: seq<Question>, slots: seq<Slot>)
    requires |questions| == |slots| && forall i :: 0 <= i < |slots| ==> Follows(slots[i], questions[i])
    ensures ReadsWell(questions, slots, AnswersOf(slots))
  {
    var answers := seq(|slots|, i requires 0 <= i < |slots| => AnswerOf(slots[i]));
    CollectsAll(answers);
    forall i | 0 <= i < |slots|
      ensures answers[i].Some? <==> IsGiven(slots[i])
      ensures answers[i].Some? ==> (Acceptable(questions[i], answers[i].value) <==> !RepeatsChoice(slots[i]))
    {
      FittingAnswer(questions[i], slots[i]);
    }
    if Collect(answers).Success? {
      ComplaintsAreExact(questions, Collect(answers).value);
    }
  }

  /** A free answer is the text as it was typed; otherwise the answer is the choice or the choices, in their order. */
  lemma AnswersSayContent(questions: seq<Question>, content: map<string, Value>, index: nat)
    requires index < |questions| && Answers(questions, content).Success?
    ensures index < |Answers(questions, content).value|
    ensures var answer, text, selected :=
        Answers(questions, content).value[index], Get(content, TextField(index)), Get(content, Field(index));
      && (IsFree(text) ==> answer == FreeText(text.value.text))
      && (!IsFree(text) ==>
            && selected.Some? && answer.Selected?
            && (selected.value.Text? ==> answer.labels == [selected.value.text])
            && (selected.value.List? ==>
                  && |answer.labels| == |selected.value.items|
                  && forall k :: 0 <= k < |answer.labels| ==> selected.value.items[k] == Text(answer.labels[k])))
  {
    var slots := Slots(content, |questions|);
    CollectsAll(seq(|slots|, i requires 0 <= i < |slots| => AnswerOf(slots[i])));
    var answers := seq(|slots|, i requires 0 <= i < |slots| => AnswerOf(slots[i]));
    assert answers[index] == AnswerOf(slots[index]) && slots[index] == SlotAt(content, index);
  }

  lemma SlotFollows(questions: seq<Question>, content: map<string, Value>, index: nat)
    requires index < |questions| && Conforms(content, FormOf(questions))
    ensures Follows(SlotAt(content, index), questions[index])
  {
    FormHasFields(questions, index);
  }

  /** For every list of questions and every content that follows their form. */
  lemma FormAnswersAreAcceptable(questions: seq<Question>, content: map<string, Value>)
    requires Conforms(content, FormOf(questions))
    ensures ReadsWell(questions, Slots(content, |questions|), Answers(questions, content))
  {
    var slots := Slots(content, |questions|);
    forall i | 0 <= i < |slots|
      ensures Follows(slots[i], questions[i])
    {
      SlotFollows(questions, content, i);
    }
    SlotsReadWell(questions, slots);
  }

  // ----- a repeated choice -----

  const CHOOSE := Question("Which?", "Which", [AskOption("a", ""), AskOption("b", "")], true)

  function RepeatedContent(): map<string, Value> {
    map[Field(0) := List([Text("a"), Text("a")])]
  }

  lemma RepeatedContentConforms()
    ensures Conforms(RepeatedContent(), FormOf([CHOOSE]))
    ensures Slots(RepeatedContent(), 1) == [Slot(None, Some(List([Text("a"), Text("a")])))]
  {
    FormHasFields([CHOOSE], 0);
    FieldNamesDiffer(0, 0);
    assert Labels(CHOOSE)[0] == "a";
  }

  lemma RepeatIsComplained(questions: seq<Question>, slots: seq<Slot>, answers: Result<seq<Answer>, Error>)
    requires ReadsWell(questions, slots, answers) && |slots| == 1 && IsGiven(slots[0]) && RepeatsChoice(slots[0])
    ensures answers.Success? && AllComplaints(questions, answers.value) != []
  {
  }

  /** The form lets a choice be named twice, and the answer read from it is sent and then complained about. */
  lemma RepeatedChoiceIsSent()
    ensures Conforms(RepeatedContent(), FormOf([CHOOSE])) && Answers([CHOOSE], RepeatedContent()).Success?
    ensures AllComplaints([CHOOSE], Answers([CHOOSE], RepeatedContent()).value) != []
  {
    RepeatedContentConforms();
    FormAnswersAreAcceptable([CHOOSE], RepeatedContent());
    RepeatIsComplained([CHOOSE], Slots(RepeatedContent(), 1), Answers([CHOOSE], RepeatedContent()));
  }
}
