/**
 scripts/acp/agent.ts 161-210 and 271-284: prompts, cancels and closes of one editor connection. Between two awaits a call runs
 without interruption; every such piece is one step, and the steps of all calls, of the host and of the chat streams interleave.
 */
module EditorAgent {
  import opened Wrappers

  import Chat = ChatStream

  type Session = string

  datatype Sent = NotSent | SentOk | SentFailed

  datatype Result = Replied(reason: Chat.StopReason) | Thrown

  /** Where a prompt waits: for the replay, for `chat.send`, for the end of the turn. */
  datatype Stage = AwaitReady | AwaitSend | AwaitDone | Exited(result: Result)

  /** The abort signal of the prompt's controller is the one its stream listens to. */
  datatype Prompt = Prompt(session: Session, stream: Chat.Stream, stage: Stage, sent: Sent, finished: bool, sendCalled: bool)

  /** Where a cancel waits, from its lookup on with the prompt that it found and aborted. */
  datatype Waiting =
    | Called
    | AwaitSent(prompt: nat)
    | Polling(prompt: nat)
    | Interrupting(prompt: nat)     // a view showed the primary actor running, the interrupt is on its way
    | Interrupted(prompt: nat)      // the turn that runs in the session was interrupted
    | Returned
    | Failing

  predicate HasPrompt(waiting: Waiting) {
    waiting.AwaitSent? || waiting.Polling? || waiting.Interrupting? || waiting.Interrupted?
  }

  datatype Cancel = Cancel(session: Session, waiting: Waiting)

  /** A close waits first for the cancels it called, then for the prompts that were active when it was called. */
  datatype Close = AwaitCancels(first: nat, last: nat, prompts: set<nat>) | AwaitFinished(prompts: set<nat>) | Closed(ok: bool)

  datatype Agent = Agent(
    sessions: set<Session>, active: map<Session, nat>, prompts: seq<Prompt>, cancels: seq<Cancel>, closes: seq<Close>)

  // ----- prompts -----

  function NewPrompt(session: Session, elicit: bool): Prompt {
    Prompt(session, Chat.New(Chat.Options(false, elicit)), AwaitReady, NotSent, false, false)
  }

  function MarkSent(sent: Sent, outcome: Sent): Sent {
    if sent.NotSent? then outcome else sent
  }

  /** `catch` and `finally`, in one go: settle `sent`, abort, close the stream, settle `finished`. */
  function Left(p: Prompt, result: Result): Prompt {
    Prompt(p.session, Chat.Close(Chat.Abort(p.stream)), Exited(result),
           MarkSent(p.sent, if result.Thrown? then SentFailed else SentOk), true, p.sendCalled)
  }

  function SetPrompt(s: Agent, p: nat, prompt: Prompt): Agent
    requires p < |s.prompts|
  {
    s.(prompts := s.prompts[p := prompt])
  }

  function Exit(s: Agent, p: nat, result: Result): Agent
    requires p < |s.prompts|
  {
    s.(prompts := s.prompts[p := Left(s.prompts[p], result)], active := s.active - {s.prompts[p].session})
  }

  function Accept(s: Agent, session: Session, elicit: bool): Agent {
    if session !in s.sessions || session in s.active then s
    else s.(prompts := s.prompts + [NewPrompt(session, elicit)], active := s.active[session := |s.prompts|])
  }

  function Submitted(p: Prompt): Prompt {
    p.(stream := Chat.Submit(p.stream))
  }

  /** `composed`: the text of a command could be made. Otherwise the prompt is submitted and throws before it calls `chat.send`. */
  function ResumeReady(s: Agent, p: nat, composed: bool): Agent
    requires p < |s.prompts|
  {
    var prompt := s.prompts[p];
    if prompt.stream.outcome.ready.ReadyFailed? then Exit(s, p, Thrown)
    else if prompt.stream.hooks.aborted then Exit(s, p, Replied(Chat.Cancelled))
    else if !composed then Exit(SetPrompt(s, p, Submitted(prompt)), p, Thrown)
    else SetPrompt(s, p, Submitted(prompt).(stage := AwaitSend, sendCalled := true))
  }

  function SendReturns(s: Agent, p: nat, ok: bool): Agent
    requires p < |s.prompts|
  {
    if ok then SetPrompt(s, p, s.prompts[p].(sent := MarkSent(s.prompts[p].sent, SentOk), stage := AwaitDone))
    else Exit(s, p, Thrown)
  }

  function ResultOf(p: Prompt): Result {
    if p.stream.outcome.done.Stopped? then Replied(p.stream.outcome.done.reason) else Thrown
  }

  function ResumeDone(s: Agent, p: nat): Agent
    requires p < |s.prompts|
  {
    Exit(s, p, ResultOf(s.prompts[p]))
  }

  function AbortPrompt(s: Agent, p: nat): Agent
    requires p < |s.prompts|
  {
    SetPrompt(s, p, s.prompts[p].(stream := Chat.Abort(s.prompts[p].stream)))
  }

  // ----- cancels and closes -----

  function SetWaiting(s: Agent, c: nat, waiting: Waiting): Agent
    requires c < |s.cancels|
  {
    s.(cancels := s.cancels[c := s.cancels[c].(waiting := waiting)])
  }

  /** The cancel finds the active prompt of its session and aborts it. */
  function Look(s: Agent, c: nat): Agent
    requires c < |s.cancels|
    requires forall k :: k in s.active ==> s.active[k] < |s.prompts|
  {
    var session := s.cancels[c].session;
    if session !in s.sessions then SetWaiting(s, c, Failing)
    else if session !in s.active then SetWaiting(s, c, Returned)
    else SetWaiting(AbortPrompt(s, s.active[session]), c, AwaitSent(s.active[session]))
  }

  function ResumeCancel(s: Agent, c: nat): Agent
    requires c < |s.cancels| && s.cancels[c].waiting.AwaitSent? && s.cancels[c].waiting.prompt < |s.prompts|
  {
    if s.prompts[s.cancels[c].waiting.prompt].sent.SentFailed? then SetWaiting(s, c, Failing)
    else SetWaiting(s, c, if s.cancels[c].session in s.active then Polling(s.cancels[c].waiting.prompt) else Returned)
  }

  /** One view of the run: is the primary actor running, is an input for it queued, is the deadline over? */
  function Poll(s: Agent, c: nat, running: bool, queued: bool, late: bool): Agent
    requires c < |s.cancels| && s.cancels[c].waiting.Polling?
  {
    var p := s.cancels[c].waiting.prompt;
    SetWaiting(s, c, if running then Interrupting(p) else if !queued then Returned else if late then Failing else Polling(p))
  }

  /** The interrupt of the running turn goes out, unless another view shows nothing to interrupt. */
  function Interrupt(s: Agent, c: nat, ok: bool): Agent
    requires c < |s.cancels| && s.cancels[c].waiting.Interrupting?
  {
    SetWaiting(s, c, if ok then Interrupted(s.cancels[c].waiting.prompt) else Failing)
  }

  predicate Ended(cancel: Cancel) {
    cancel.waiting.Returned? || cancel.waiting.Interrupted? || cancel.waiting.Failing?
  }

  predicate SomeFailed(s: Agent, first: nat, last: nat) {
    exists c :: first <= c < last && c < |s.cancels| && s.cancels[c].waiting.Failing?
  }

  predicate AllEnded(s: Agent, first: nat, last: nat) {
    last <= |s.cancels| && forall c :: first <= c < last ==> Ended(s.cancels[c])
  }

  /** A close calls one cancel for every active session. */
  function CallClose(s: Agent, order: seq<Session>): Agent {
    s.(cancels := s.cancels + seq(|order|, i requires 0 <= i < |order| => Cancel(order[i], Called)),
       closes := s.closes + [AwaitCancels(|s.cancels|, |s.cancels| + |order|, s.active.Values)])
  }

  function ResumeClose(s: Agent, k: nat): Agent
    requires k < |s.closes|
  {
    var close := s.closes[k];
    s.(closes := s.closes[k :=
      if close.AwaitCancels? && !SomeFailed(s, close.first, close.last)
      then AwaitFinished(close.prompts) else Closed(!close.AwaitCancels?)])
  }

  // ----- the connection object -----

  class EditorConnection {
    var sessions: set<Session>
    var active: map<Session, nat>
    var prompts: seq<Prompt>
    var cancels: seq<Cancel>
    var closes: seq<Close>

    function State(): Agent
      reads this
    {
      Agent(sessions, active, prompts, cancels, closes)
    }

    constructor ()
      ensures State() == Agent({}, map[], [], [], [])
    {
      sessions, active, prompts, cancels, closes := {}, map[], [], [], [];
    }

    /** `prompt` up to its first await on the stream; a prompt of an unknown or busy session is refused. */
    method Prompt(session: Session, elicit: bool) returns (accepted: bool)
      modifies this`active, this`prompts
      ensures State() == Accept(old(State()), session, elicit)
      ensures accepted <==> session in sessions && session !in old(active)
    {
      if session !in sessions || session in active {
        return false;
      }
      active := active[session := |prompts|];
      prompts := prompts + [NewPrompt(session, elicit)];
      return true;
    }

    method AfterReady(p: nat, composed: bool)
      requires p < |prompts|
      modifies this`active, this`prompts
      ensures State() == ResumeReady(old(State()), p, composed)
    {
      var prompt := prompts[p];
      if prompt.stream.outcome.ready.ReadyFailed? {
        Leave(p, Thrown);
      } else if prompt.stream.hooks.aborted {
        Leave(p, Replied(Chat.Cancelled));
      } else {
        prompts := prompts[p := prompt.(stream := Chat.Submit(prompt.stream))];
        if !composed {
          Leave(p, Thrown);
          return;
        }
        prompts := prompts[p := prompts[p].(stage := AwaitSend, sendCalled := true)];
      }
    }

    method AfterSend(p: nat, ok: bool)
      requires p < |prompts|
      modifies this`active, this`prompts
      ensures State() == SendReturns(old(State()), p, ok)
    {
      if ok {
        prompts := prompts[p := prompts[p].(sent := MarkSent(prompts[p].sent, SentOk), stage := AwaitDone)];
      } else {
        Leave(p, Thrown);
      }
    }

    method AfterDone(p: nat)
      requires p < |prompts|
      modifies this`active, this`prompts
      ensures State() == ResumeDone(old(State()), p)
    {
      Leave(p, ResultOf(prompts[p]));
    }

    /** The handlers around the body of `prompt`, in their order. */
    method Leave(p: nat, result: Result)
      requires p < |prompts|
      modifies this`active, this`prompts
      ensures State() == Exit(old(State()), p, result)
    {
      var sent := prompts[p].sent;
      if result.Thrown? {
        sent := MarkSent(sent, SentFailed);
      }
      sent := MarkSent(sent, SentOk);
      var stream := Chat.Abort(prompts[p].stream);
      stream := Chat.Close(stream);
      active := active - {prompts[p].session};
      prompts := prompts[p := prompts[p].(stream := stream, stage := Exited(result), sent := sent, finished := true)];
    }

    /** `cancel` up to its wait for `sent`. */
    method CancelLook(c: nat)
      requires c < |cancels|
      requires forall k :: k in active ==> active[k] < |prompts|
      modifies this`prompts, this`cancels
      ensures State() == Look(old(State()), c)
    {
      var session := cancels[c].session;
      if session !in sessions {
        Wait(c, Failing);
        return;
      }
      if session !in active {
        Wait(c, Returned);
        return;
      }
      var p := active[session];
      prompts := prompts[p := prompts[p].(stream := Chat.Abort(prompts[p].stream))];
      Wait(c, AwaitSent(p));
    }

    method Wait(c: nat, waiting: Waiting)
      requires c < |cancels|
      modifies this`cancels
      ensures State() == SetWaiting(old(State()), c, waiting)
    {
      cancels := cancels[c := cancels[c].(waiting := waiting)];
    }

    /** `cancel` after its wait for `sent`: it is the session that is looked up again. */
    method AfterSent(c: nat)
      requires c < |cancels| && cancels[c].waiting.AwaitSent? && cancels[c].waiting.prompt < |prompts|
      modifies this`cancels
      ensures State() == ResumeCancel(old(State()), c)
    {
      var p := cancels[c].waiting.prompt;
      if prompts[p].sent.SentFailed? {
        Wait(c, Failing);
        return;
      }
      if cancels[c].session !in active {
        Wait(c, Returned);
        return;
      }
      Wait(c, Polling(p));
    }

    /** One round of the polling loop. */
    method PollOnce(c: nat, running: bool, queued: bool, late: bool)
      requires c < |cancels| && cancels[c].waiting.Polling?
      modifies this`cancels
      ensures State() == Poll(old(State()), c, running, queued, late)
    {
      var p := cancels[c].waiting.prompt;
      if running {
        Wait(c, Interrupting(p));
        return;
      }
      if !queued {
        Wait(c, Returned);
        return;
      }
      if late {
        Wait(c, Failing);
        return;
      }
      Wait(c, Polling(p));
    }
  }

  // ----- all interleavings -----

  datatype Step =
    | Register(session: Session)
    | PromptCall(session: Session, elicit: bool)
    | OnStream(prompt: nat, step: Chat.Step)
    | ReadyResumes(prompt: nat, composed: bool)
    | HostReplies(prompt: nat, ok: bool)
    | DoneResumes(prompt: nat)
    | CancelCall(session: Session)
    | CancelLooks(cancel: nat)
    | CancelResumes(cancel: nat)
    | CancelPolls(cancel: nat, running: bool, queued: bool, late: bool)
    | CancelInterrupts(cancel: nat, ok: bool)
    | CloseCall(order: seq<Session>)
    | CloseResumes(close: nat)

  /** The steps of a prompt, after it was called. */
  predicate IsPromptStep(step: Step) {
    step.OnStream? || step.ReadyResumes? || step.HostReplies? || step.DoneResumes?
  }

  predicate At(s: Agent, p: nat, stage: Stage) {
    p < |s.prompts| && s.prompts[p].stage == stage
  }

  predicate CanResumeReady(s: Agent, p: nat) {
    At(s, p, AwaitReady) && !s.prompts[p].stream.outcome.ready.Unready?
  }

  predicate CanResumeDone(s: Agent, p: nat) {
    At(s, p, AwaitDone) && !s.prompts[p].stream.outcome.done.Undone?
  }

  predicate CanResumeCancel(s: Agent, c: nat) {
    && c < |s.cancels| && s.cancels[c].waiting.AwaitSent?
    && s.cancels[c].waiting.prompt < |s.prompts| && !s.prompts[s.cancels[c].waiting.prompt].sent.NotSent?
  }

  predicate CanResumeClose(s: Agent, k: nat) {
    && k < |s.closes|
    && match s.closes[k]
       case AwaitCancels(first, last, _) => AllEnded(s, first, last) || SomeFailed(s, first, last)
       case AwaitFinished(prompts) => forall p :: p in prompts ==> p < |s.prompts| && s.prompts[p].finished
       case Closed(_) => false
  }

  predicate Enabled(s: Agent, step: Step) {
    match step
    case Register(_) => true
    case PromptCall(_, _) => true
    case OnStream(p, inner) =>
      p < |s.prompts| && !Chat.IsOwners(inner) && Chat.Enabled(s.prompts[p].stream, inner)
    case ReadyResumes(p, _) => CanResumeReady(s, p)
    case HostReplies(p, _) => At(s, p, AwaitSend)
    case DoneResumes(p) => CanResumeDone(s, p)
    case CancelCall(_) => true
    case CancelLooks(c) => c < |s.cancels| && s.cancels[c].waiting.Called?
    case CancelResumes(c) => CanResumeCancel(s, c)
    case CancelPolls(c, _, _, _) => c < |s.cancels| && s.cancels[c].waiting.Polling?
    case CancelInterrupts(c, _) => c < |s.cancels| && s.cancels[c].waiting.Interrupting?
    case CloseCall(order) =>
      (forall k :: k in order ==> k in s.active) && (forall k :: k in s.active ==> k in order) && |order| == |s.active|
    case CloseResumes(k) => CanResumeClose(s, k)
  }

  function Next(s: Agent, step: Step): Agent
    requires ActiveInRange(s) && Enabled(s, step)
  {
    match step
    case Register(session) => s.(sessions := s.sessions + {session})
    case PromptCall(session, elicit) => Accept(s, session, elicit)
    case OnStream(p, inner) => SetPrompt(s, p, s.prompts[p].(stream := Chat.Next(s.prompts[p].stream, inner)))
    case ReadyResumes(p, composed) => ResumeReady(s, p, composed)
    case HostReplies(p, ok) => SendReturns(s, p, ok)
    case DoneResumes(p) => ResumeDone(s, p)
    case CancelCall(session) => s.(cancels := s.cancels + [Cancel(session, Called)])
    case CancelLooks(c) => Look(s, c)
    case CancelResumes(c) => ResumeCancel(s, c)
    case CancelPolls(c, running, queued, late) => Poll(s, c, running, queued, late)
    case CancelInterrupts(c, ok) => Interrupt(s, c, ok)
    case CloseCall(order) => CallClose(s, order)
    case CloseResumes(k) => ResumeClose(s, k)
  }

  /** The editor calls whenever it likes, and the host replies, polls and interrupts with any result. */
  lemma OthersAreFree(s: Agent, session: Session, p: nat, c: nat, inner: Chat.Step, flags: (bool, bool, bool))
    ensures Enabled(s, Register(session)) && Enabled(s, PromptCall(session, flags.0)) && Enabled(s, CancelCall(session))
    ensures p < |s.prompts| && !Chat.IsOwners(inner) && Chat.Enabled(s.prompts[p].stream, inner) ==> Enabled(s, OnStream(p, inner))
    ensures p < |s.prompts| && s.prompts[p].stage.AwaitSend? ==> Enabled(s, HostReplies(p, flags.0))
    ensures c < |s.cancels| && s.cancels[c].waiting.Called? ==> Enabled(s, CancelLooks(c))
    ensures c < |s.cancels| && s.cancels[c].waiting.Polling? ==> Enabled(s, CancelPolls(c, flags.0, flags.1, flags.2))
    ensures c < |s.cancels| && s.cancels[c].waiting.Interrupting? ==> Enabled(s, CancelInterrupts(c, flags.0))
  {
  }

  // ----- what every step keeps -----

  predicate ActiveInRange(s: Agent) {
    forall k :: k in s.active ==> s.active[k] < |s.prompts|
  }

  /** `active` holds exactly the prompts that have not returned yet, each under its session. */
  predicate ActiveIsExact(s: Agent) {
    && ActiveInRange(s)
    && (forall k :: k in s.active ==> !s.prompts[s.active[k]].stage.Exited? && s.prompts[s.active[k]].session == k)
    && (forall p :: 0 <= p < |s.prompts| && !s.prompts[p].stage.Exited? ==>
          s.prompts[p].session in s.active && s.active[s.prompts[p].session] == p)
  }

  predicate StreamFits(p: Prompt) {
    && Chat.Inv(p.stream)
    && !p.stream.options.replay
    && (p.sendCalled ==> p.stream.phase.submitted)
    && (p.stream.hooks.aborted && !p.stream.phase.submitted ==> p.stream.outcome.finished)
    && (p.stream.hooks.listening <==> !p.stream.hooks.aborted)
  }

  function BeforeSubmit(ready: Chat.Ready): Result {
    if ready.ReadyFailed? then Thrown else Replied(Chat.Cancelled)
  }

  predicate StageFits(p: Prompt) {
    match p.stage
    case AwaitReady => !p.stream.phase.submitted && p.sent.NotSent? && !p.finished
    case AwaitSend => p.sendCalled && p.sent.NotSent? && !p.finished
    case AwaitDone => p.sendCalled && p.sent.SentOk? && !p.finished
    case Exited(result) =>
      && !p.sent.NotSent? && p.finished && p.stream.hooks == Chat.Hooks(true, false, false)
      && (!p.stream.phase.submitted ==> result == BeforeSubmit(p.stream.outcome.ready))
      && (p.stream.phase.submitted ==> ResultFits(p, result))
  }

  /** The prompt returns the reason with which its stream has stopped. */
  predicate IsResultOf(done: Chat.Done, result: Result) {
    match done
    case Undone => false
    case Stopped(reason) => result == Replied(reason)
    case DoneFailed => result == Thrown
  }

  /** What a submitted prompt returns: the end of its stream if the host has taken it, and an exception otherwise. */
  predicate ResultFits(p: Prompt, result: Result) {
    if p.sendCalled && p.sent.SentOk? then IsResultOf(p.stream.outcome.done, result) else result == Thrown && p.sent.SentFailed?
  }

  predicate PromptInv(p: Prompt) {
    StreamFits(p) && StageFits(p) && (p.stage.AwaitReady? || !p.stream.outcome.ready.Unready?)
  }

  predicate CancelsFit(s: Agent) {
    forall c :: 0 <= c < |s.cancels| && HasPrompt(s.cancels[c].waiting) ==>
      WaitingFits(s, s.cancels[c].session, s.cancels[c].waiting)
  }

  /** The prompt of a cancel belongs to its session and is aborted, and past the first wait its `sent` is settled. */
  predicate WaitingFits(s: Agent, session: Session, waiting: Waiting)
    requires HasPrompt(waiting)
  {
    && waiting.prompt < |s.prompts| && s.prompts[waiting.prompt].session == session
    && s.prompts[waiting.prompt].stream.hooks.aborted
    && (waiting.AwaitSent? || !s.prompts[waiting.prompt].sent.NotSent?)
  }

  predicate ClosesFit(s: Agent) {
    forall k :: 0 <= k < |s.closes| ==> CloseFits(s, s.closes[k])
  }

  predicate CloseFits(s: Agent, close: Close) {
    match close
    case AwaitCancels(_, last, prompts) => last <= |s.cancels| && forall p :: p in prompts ==> p < |s.prompts|
    case AwaitFinished(prompts) => forall p :: p in prompts ==> p < |s.prompts|
    case Closed(_) => true
  }

  predicate PromptsFit(s: Agent) {
    forall p :: 0 <= p < |s.prompts| ==> PromptInv(s.prompts[p])
  }

  predicate Inv(s: Agent) {
    ActiveIsExact(s) && PromptsFit(s) && CancelsFit(s) && ClosesFit(s)
  }

  /** A prompt is replaced by one that is further along but has not returned. */
  lemma ReplacedKeepsInv(s: Agent, p: nat, prompt: Prompt)
    requires Inv(s) && p < |s.prompts| && PromptInv(prompt) && prompt.session == s.prompts[p].session
    requires prompt.stage.Exited? <==> s.prompts[p].stage.Exited?
    requires s.prompts[p].stream.hooks.aborted ==> prompt.stream.hooks.aborted
    requires prompt.sent.NotSent? ==> s.prompts[p].sent.NotSent?
    ensures Inv(SetPrompt(s, p, prompt))
  {
  }

  lemma LeftFits(p: Prompt, result: Result)
    requires PromptInv(p) && !p.stage.Exited?
    requires !p.stream.phase.submitted ==> result == BeforeSubmit(p.stream.outcome.ready)
    requires !p.stream.outcome.ready.Unready?
    requires p.stream.phase.submitted ==> if p.stage.AwaitDone? then IsResultOf(p.stream.outcome.done, result) else result == Thrown
    ensures PromptInv(Left(p, result))
  {
    Chat.StepKeepsInv(p.stream, Chat.AbortNow);
    Chat.StepKeepsInv(Chat.Abort(p.stream), Chat.CloseNow);
  }

  function Without(s: Agent, p: nat, left: Prompt): Agent
    requires p < |s.prompts|
  {
    s.(prompts := s.prompts[p := left], active := s.active - {left.session})
  }

  lemma WithoutIsExact(s: Agent, p: nat, left: Prompt)
    requires ActiveIsExact(s) && p < |s.prompts| && !s.prompts[p].stage.Exited?
    requires left.stage.Exited? && left.session == s.prompts[p].session
    ensures ActiveIsExact(Without(s, p, left))
  {
  }

  lemma WithoutKeepsInv(s: Agent, p: nat, left: Prompt)
    requires Inv(s) && p < |s.prompts| && !s.prompts[p].stage.Exited? && PromptInv(left)
    requires left.stage.Exited? && left.session == s.prompts[p].session && left.stream.hooks.aborted && !left.sent.NotSent?
    ensures Inv(Without(s, p, left))
  {
    WithoutIsExact(s, p, left);
  }

  /** A prompt returns, as it is or after a last change of its own. */
  lemma ExitKeepsInv(s: Agent, p: nat, last: Prompt, result: Result)
    requires Inv(s) && p < |s.prompts| && !s.prompts[p].stage.Exited? && PromptInv(Left(last, result))
    requires last.session == s.prompts[p].session
    ensures Inv(Exit(SetPrompt(s, p, last), p, result))
    ensures last == s.prompts[p] ==> SetPrompt(s, p, last) == s
  {
    WithoutKeepsInv(s, p, Left(last, result));
    assert s.prompts[p := last][p := Left(last, result)] == s.prompts[p := Left(last, result)];
  }

  lemma AbortedFits(p: Prompt)
    requires PromptInv(p) && !p.stage.Exited?
    ensures PromptInv(p.(stream := Chat.Abort(p.stream)))
  {
    Chat.StepKeepsInv(p.stream, Chat.AbortNow);
  }

  lemma SubmittedFits(p: Prompt)
    requires PromptInv(p) && p.stage.AwaitReady? && !p.stream.hooks.aborted && !p.stream.outcome.ready.Unready?
    ensures PromptInv(Submitted(p).(stage := AwaitSend, sendCalled := true))
    ensures PromptInv(Left(Submitted(p), Thrown))
  {
    Chat.StepKeepsInv(p.stream, Chat.SubmitNow);
    var submitted := Chat.Submit(p.stream);
    Chat.StepKeepsInv(submitted, Chat.AbortNow);
    Chat.StepKeepsInv(Chat.Abort(submitted), Chat.CloseNow);
  }

  lemma StreamedFits(p: Prompt, step: Chat.Step)
    requires PromptInv(p) && Chat.Enabled(p.stream, step) && !Chat.IsOwners(step)
    ensures PromptInv(p.(stream := Chat.Next(p.stream, step)))
    ensures Chat.Next(p.stream, step).hooks == p.stream.hooks
  {
    Chat.StepKeepsInv(p.stream, step);
    Chat.OthersOnlySettle(p.stream, step);
    Chat.StepKeepsSettled(p.stream, step);
  }

  lemma AcceptKeepsInv(s: Agent, session: Session, elicit: bool)
    requires Inv(s)
    ensures Inv(Accept(s, session, elicit))
  {
  }

  lemma ResumeReadyKeepsInv(s: Agent, p: nat, composed: bool)
    requires Inv(s) && CanResumeReady(s, p)
    ensures Inv(ResumeReady(s, p, composed))
  {
    var prompt := s.prompts[p];
    if prompt.stream.outcome.ready.ReadyFailed? {
      LeftFits(prompt, Thrown);
      ExitKeepsInv(s, p, prompt, Thrown);
    } else if prompt.stream.hooks.aborted {
      LeftFits(prompt, Replied(Chat.Cancelled));
      ExitKeepsInv(s, p, prompt, Replied(Chat.Cancelled));
    } else {
      SubmittedFits(prompt);
      if composed {
        ReplacedKeepsInv(s, p, Submitted(prompt).(stage := AwaitSend, sendCalled := true));
      } else {
        ExitKeepsInv(s, p, Submitted(prompt), Thrown);
      }
    }
  }

  lemma SendReturnsKeepsInv(s: Agent, p: nat, ok: bool)
    requires Inv(s) && At(s, p, AwaitSend)
    ensures Inv(SendReturns(s, p, ok))
  {
    if ok {
      ReplacedKeepsInv(s, p, s.prompts[p].(sent := MarkSent(s.prompts[p].sent, SentOk), stage := AwaitDone));
    } else {
      LeftFits(s.prompts[p], Thrown);
      ExitKeepsInv(s, p, s.prompts[p], Thrown);
    }
  }

  lemma ResumeDoneKeepsInv(s: Agent, p: nat)
    requires Inv(s) && CanResumeDone(s, p)
    ensures Inv(ResumeDone(s, p))
  {
    LeftFits(s.prompts[p], ResultOf(s.prompts[p]));
    ExitKeepsInv(s, p, s.prompts[p], ResultOf(s.prompts[p]));
  }

  lemma OnStreamKeepsInv(s: Agent, p: nat, step: Chat.Step)
    requires Inv(s) && p < |s.prompts| && !Chat.IsOwners(step) && Chat.Enabled(s.prompts[p].stream, step)
    ensures Inv(SetPrompt(s, p, s.prompts[p].(stream := Chat.Next(s.prompts[p].stream, step))))
  {
    StreamedFits(s.prompts[p], step);
    ReplacedKeepsInv(s, p, s.prompts[p].(stream := Chat.Next(s.prompts[p].stream, step)));
  }

  lemma SetWaitingKeepsInv(s: Agent, c: nat, waiting: Waiting)
    requires Inv(s) && c < |s.cancels|
    requires HasPrompt(waiting) ==> WaitingFits(s, s.cancels[c].session, waiting)
    ensures Inv(SetWaiting(s, c, waiting))
  {
  }

  lemma LookKeepsInv(s: Agent, c: nat)
    requires Inv(s) && c < |s.cancels|
    ensures Inv(Look(s, c))
  {
    var session := s.cancels[c].session;
    if session !in s.sessions {
      SetWaitingKeepsInv(s, c, Failing);
    } else if session !in s.active {
      SetWaitingKeepsInv(s, c, Returned);
    } else {
      var p := s.active[session];
      AbortedFits(s.prompts[p]);
      ReplacedKeepsInv(s, p, s.prompts[p].(stream := Chat.Abort(s.prompts[p].stream)));
      SetWaitingKeepsInv(AbortPrompt(s, p), c, AwaitSent(p));
    }
  }

  lemma ClosesKeepInv(s: Agent, closes: seq<Close>)
    requires Inv(s) && forall k :: 0 <= k < |closes| ==> CloseFits(s, closes[k])
    ensures Inv(s.(closes := closes))
  {
  }

  lemma CancelsKeepInv(s: Agent, more: seq<Cancel>)
    requires Inv(s) && forall k :: 0 <= k < |more| ==> more[k].waiting.Called?
    ensures Inv(s.(cancels := s.cancels + more))
  {
    var t := s.(cancels := s.cancels + more);
    assert forall c :: |s.cancels| <= c < |t.cancels| ==> t.cancels[c] == more[c - |s.cancels|];
  }

  lemma CallCloseKeepsInv(s: Agent, order: seq<Session>)
    requires Inv(s)
    ensures Inv(CallClose(s, order))
  {
    var more := seq(|order|, i requires 0 <= i < |order| => Cancel(order[i], Called));
    CancelsKeepInv(s, more);
    var t := s.(cancels := s.cancels + more);
    ClosesKeepInv(t, t.closes + [AwaitCancels(|s.cancels|, |s.cancels| + |order|, s.active.Values)]);
  }

  lemma ResumeCloseKeepsInv(s: Agent, k: nat)
    requires Inv(s) && CanResumeClose(s, k)
    ensures Inv(ResumeClose(s, k))
  {
  }

  lemma StepKeepsInv(s: Agent, step: Step)
    requires Inv(s) && Enabled(s, step)
    ensures Inv(Next(s, step))
  {
    match step
    case Register(session) =>
    case PromptCall(session, elicit) => AcceptKeepsInv(s, session, elicit);
    case OnStream(p, inner) => OnStreamKeepsInv(s, p, inner);
    case ReadyResumes(p, composed) => ResumeReadyKeepsInv(s, p, composed);
    case HostReplies(p, ok) => SendReturnsKeepsInv(s, p, ok);
    case DoneResumes(p) => ResumeDoneKeepsInv(s, p);
    case CancelCall(session) => CancelsKeepInv(s, [Cancel(session, Called)]);
    case CancelLooks(c) => LookKeepsInv(s, c);
    case CancelResumes(c) => SetWaitingKeepsInv(s, c, Next(s, step).cancels[c].waiting);
    case CancelPolls(c, running, queued, late) => SetWaitingKeepsInv(s, c, Next(s, step).cancels[c].waiting);
    case CancelInterrupts(c, ok) => SetWaitingKeepsInv(s, c, Next(s, step).cancels[c].waiting);
    case CloseCall(order) => CallCloseKeepsInv(s, order);
    case CloseResumes(k) => ResumeCloseKeepsInv(s, k);
  }

  // ----- runs of the connection -----

  const START := Agent({}, map[], [], [], [])

  predicate Behaviour(states: seq<Agent>, steps: seq<Step>) {
    && |states| == |steps| + 1
    && states[0] == START
    && forall i {:trigger steps[i]} :: 0 <= i < |steps| ==> Moves(states[i], steps[i], states[i + 1])
  }

  predicate Moves(s: Agent, step: Step, t: Agent) {
    ActiveInRange(s) && Enabled(s, step) && t == Next(s, step)
  }

  lemma StartKeepsInv()
    ensures Inv(START)
  {
  }

  lemma MoveKeepsInv(s: Agent, step: Step, t: Agent)
    requires Inv(s) && Moves(s, step, t)
    ensures Inv(t)
  {
    StepKeepsInv(s, step);
  }

  lemma {:induction false} BehaviourKeepsInv(states: seq<Agent>, steps: seq<Step>, n: nat)
    requires Behaviour(states, steps) && n < |states|
    ensures Inv(states[n])
  {
    if n == 0 {
      StartKeepsInv();
    } else {
      BehaviourKeepsInv(states, steps, n - 1);
      MoveKeepsInv(states[n - 1], steps[n - 1], states[n]);
    }
  }

  /** Whatever the interleaving, two prompts of one session are never active together, and `active` holds the one that is. */
  lemma OneActivePrompt(states: seq<Agent>, steps: seq<Step>, n: nat, p: nat, q: nat)
    requires Behaviour(states, steps) && n < |states| && p < |states[n].prompts| && q < |states[n].prompts|
    requires states[n].prompts[p].session == states[n].prompts[q].session
    requires !states[n].prompts[p].stage.Exited? && !states[n].prompts[q].stage.Exited?
    ensures p == q && states[n].prompts[p].session in states[n].active && states[n].active[states[n].prompts[p].session] == p
  {
    BehaviourKeepsInv(states, steps, n);
  }

  /** Of the prompts of a session the active one was called last. */
  predicate ActiveIsLatest(s: Agent) {
    forall p :: 0 <= p < |s.prompts| && s.prompts[p].session in s.active ==> p <= s.active[s.prompts[p].session]
  }

  /** No prompt is added, and nothing is entered into the map. */
  predicate OnlyLeaves(s: Agent, t: Agent) {
    && |t.prompts| == |s.prompts| && (forall p :: 0 <= p < |s.prompts| ==> t.prompts[p].session == s.prompts[p].session)
    && (forall k :: k in t.active ==> k in s.active && t.active[k] == s.active[k])
  }

  lemma SetOnlyLeaves(s: Agent, p: nat, prompt: Prompt)
    requires p < |s.prompts| && prompt.session == s.prompts[p].session
    ensures OnlyLeaves(s, SetPrompt(s, p, prompt))
  {
  }

  lemma ExitOnlyLeaves(s: Agent, p: nat, result: Result)
    requires p < |s.prompts|
    ensures OnlyLeaves(s, Exit(s, p, result))
  {
  }

  lemma ResumeReadyOnlyLeaves(s: Agent, p: nat, composed: bool)
    requires p < |s.prompts|
    ensures OnlyLeaves(s, ResumeReady(s, p, composed))
  {
    SetOnlyLeaves(s, p, Submitted(s.prompts[p]).(stage := AwaitSend, sendCalled := true));
    SetOnlyLeaves(s, p, Submitted(s.prompts[p]));
    ExitOnlyLeaves(SetPrompt(s, p, Submitted(s.prompts[p])), p, Thrown);
  }

  lemma StreamOnlyLeaves(s: Agent, p: nat, stream: Chat.Stream)
    requires p < |s.prompts|
    ensures OnlyLeaves(s, SetPrompt(s, p, s.prompts[p].(stream := stream)))
  {
  }

  /** Apart from prompts that are called, the steps of prompts only take prompts out of the map. */
  lemma PromptStepOnlyLeaves(s: Agent, step: Step)
    requires ActiveInRange(s) && Enabled(s, step) && IsPromptStep(step)
    ensures OnlyLeaves(s, Next(s, step))
  {
    match step
    case OnStream(p, inner) => StreamOnlyLeaves(s, p, Chat.Next(s.prompts[p].stream, inner));
    case ReadyResumes(p, composed) => ResumeReadyOnlyLeaves(s, p, composed);
    case HostReplies(p, ok) => ExitOnlyLeaves(s, p, Thrown);
    case DoneResumes(p) => ExitOnlyLeaves(s, p, ResultOf(s.prompts[p]));
  }

  lemma LookOnlyLeaves(s: Agent, c: nat)
    requires ActiveInRange(s) && c < |s.cancels|
    ensures OnlyLeaves(s, Look(s, c))
  {
  }

  lemma LeavingKeepsLatest(s: Agent, t: Agent)
    requires ActiveInRange(s) && ActiveIsLatest(s) && OnlyLeaves(s, t)
    ensures ActiveIsLatest(t)
  {
  }

  lemma LeavesLatest(s: Agent, step: Step)
    requires ActiveInRange(s) && ActiveIsLatest(s) && Enabled(s, step)
    requires IsPromptStep(step)
    ensures ActiveIsLatest(Next(s, step))
  {
    PromptStepOnlyLeaves(s, step);
    LeavingKeepsLatest(s, Next(s, step));
  }

  lemma StepKeepsLatest(s: Agent, step: Step)
    requires ActiveInRange(s) && Enabled(s, step) && ActiveIsLatest(s)
    ensures ActiveIsLatest(Next(s, step))
  {
    match step
    case PromptCall(_, _) =>
    case OnStream(_, _) => LeavesLatest(s, step);
    case ReadyResumes(_, _) => LeavesLatest(s, step);
    case HostReplies(_, _) => LeavesLatest(s, step);
    case DoneResumes(_) => LeavesLatest(s, step);
    case CancelLooks(c) =>
      LookOnlyLeaves(s, c);
      LeavingKeepsLatest(s, Look(s, c));
    case _ =>
  }

  lemma {:induction false} ActiveStaysLatest(states: seq<Agent>, steps: seq<Step>, n: nat)
    requires Behaviour(states, steps) && n < |states|
    ensures ActiveIsLatest(states[n])
  {
    if n > 0 {
      ActiveStaysLatest(states, steps, n - 1);
      BehaviourKeepsInv(states, steps, n - 1);
      StepKeepsLatest(states[n - 1], steps[n - 1]);
    }
  }

  function Rank(stage: Stage): nat {
    match stage
    case AwaitReady => 3
    case AwaitSend => 2
    case AwaitDone => 1
    case Exited(_) => 0
  }

  /** One prompt, before and after: nothing that was decided about it changes. */
  predicate Onwards(p: Prompt, q: Prompt) {
    && q.session == p.session
    && (p.stage.Exited? ==> q.stage == p.stage)
    && (!p.sent.NotSent? ==> q.sent == p.sent)
    && (p.finished ==> q.finished)
    && (p.stream.hooks.aborted ==> q.stream.hooks.aborted)
    && (p.stream.hooks.aborted && !p.stream.phase.submitted ==> !q.stream.phase.submitted)
    && (!p.stream.outcome.ready.Unready? ==> q.stream.outcome.ready == p.stream.outcome.ready)
    && Rank(q.stage) <= Rank(p.stage)
  }

  lemma LeftIsOnwards(p: Prompt, result: Result)
    requires PromptInv(p) && !p.stage.Exited? && !p.stream.outcome.ready.Unready?
    ensures Onwards(p, Left(p, result))
  {
    Chat.StepKeepsSettled(p.stream, Chat.AbortNow);
  }

  lemma AbortIsOnwards(p: Prompt)
    requires PromptInv(p)
    ensures Onwards(p, p.(stream := Chat.Abort(p.stream)))
  {
    Chat.StepKeepsSettled(p.stream, Chat.AbortNow);
  }

  lemma StreamIsOnwards(p: Prompt, step: Chat.Step)
    requires PromptInv(p) && Chat.Enabled(p.stream, step) && !Chat.IsOwners(step)
    ensures Onwards(p, p.(stream := Chat.Next(p.stream, step)))
  {
    Chat.OthersOnlySettle(p.stream, step);
    Chat.StepKeepsSettled(p.stream, step);
  }

  lemma StepMovesPromptsOn(s: Agent, step: Step, p: nat)
    requires Inv(s) && Enabled(s, step) && p < |s.prompts|
    ensures |Next(s, step).prompts| >= |s.prompts| && Onwards(s.prompts[p], Next(s, step).prompts[p])
  {
    match step
    case OnStream(q, inner) => StreamIsOnwards(s.prompts[q], inner);
    case ReadyResumes(q, composed) => ResumeReadyIsOnwards(s, q, composed, p);
    case HostReplies(q, ok) =>
      LeftIsOnwards(s.prompts[q], Thrown);
    case DoneResumes(q) =>
      LeftIsOnwards(s.prompts[q], ResultOf(s.prompts[q]));
    case CancelLooks(c) => LookIsOnwards(s, c, p);
    case _ =>
  }

  /** Submitting moves a prompt on, and so does leaving right after it. */
  lemma SubmittedIsOnwards(p: Prompt)
    requires PromptInv(p) && p.stage.AwaitReady? && !p.stream.hooks.aborted && !p.stream.outcome.ready.Unready?
    ensures Onwards(p, Submitted(p).(stage := AwaitSend, sendCalled := true)) && Onwards(p, Left(Submitted(p), Thrown))
  {
    Chat.StepKeepsInv(p.stream, Chat.SubmitNow);
    Chat.StepKeepsSettled(Chat.Submit(p.stream), Chat.AbortNow);
  }

  lemma ResumeReadyIsOnwards(s: Agent, q: nat, composed: bool, p: nat)
    requires Inv(s) && CanResumeReady(s, q) && p < |s.prompts|
    ensures |ResumeReady(s, q, composed).prompts| == |s.prompts| && Onwards(s.prompts[p], ResumeReady(s, q, composed).prompts[p])
  {
    if s.prompts[q].stream.outcome.ready.ReadyFailed? {
      LeftIsOnwards(s.prompts[q], Thrown);
    } else if s.prompts[q].stream.hooks.aborted {
      LeftIsOnwards(s.prompts[q], Replied(Chat.Cancelled));
    } else {
      SubmittedIsOnwards(s.prompts[q]);
    }
  }

  lemma LookIsOnwards(s: Agent, c: nat, p: nat)
    requires Inv(s) && c < |s.cancels| && p < |s.prompts|
    ensures |Look(s, c).prompts| == |s.prompts| && Onwards(s.prompts[p], Look(s, c).prompts[p])
  {
    AbortIsOnwards(s.prompts[p]);
  }

  lemma {:induction false} PromptsMoveOn(states: seq<Agent>, steps: seq<Step>, m: nat, n: nat, p: nat)
    requires Behaviour(states, steps) && m <= n < |states| && p < |states[m].prompts|
    ensures p < |states[n].prompts| && Onwards(states[m].prompts[p], states[n].prompts[p])
    decreases n - m
  {
    if m < n {
      PromptsMoveOn(states, steps, m, n - 1, p);
      BehaviourKeepsInv(states, steps, n - 1);
      StepMovesPromptsOn(states[n - 1], steps[n - 1], p);
    }
  }

  predicate IsOwnStep(step: Step, p: nat) {
    (step.ReadyResumes? || step.HostReplies? || step.DoneResumes?) && step.prompt == p
  }

  lemma OwnStepLowersRank(s: Agent, step: Step, p: nat)
    requires Inv(s) && Enabled(s, step) && IsOwnStep(step, p)
    ensures p < |s.prompts| && p < |Next(s, step).prompts|
    ensures Rank(Next(s, step).prompts[p].stage) < Rank(s.prompts[p].stage)
  {
  }

  function Counted(step: Step, p: nat): nat {
    if IsOwnStep(step, p) then 1 else 0
  }

  predicate RankFalls(s: Agent, step: Step, t: Agent, p: nat) {
    p < |s.prompts| && p < |t.prompts| && Counted(step, p) + Rank(t.prompts[p].stage) <= Rank(s.prompts[p].stage)
  }

  lemma MoveLowersRank(s: Agent, step: Step, t: Agent, p: nat)
    requires Inv(s) && Moves(s, step, t) && p < |s.prompts|
    ensures RankFalls(s, step, t, p)
  {
    StepMovesPromptsOn(s, step, p);
    if IsOwnStep(step, p) {
      OwnStepLowersRank(s, step, p);
    }
  }

  /** The steps of a prompt itself among those from m up to n. */
  function OwnSteps(steps: seq<Step>, p: nat, m: nat, n: nat): nat
    requires m <= n <= |steps|
    decreases n - m
  {
    if m == n then 0 else OwnSteps(steps, p, m, n - 1) + Counted(steps[n - 1], p)
  }

  lemma {:induction false} RanksFall(states: seq<Agent>, steps: seq<Step>, m: nat, n: nat, p: nat)
    requires |states| == |steps| + 1 && m <= n < |states| && p < |states[m].prompts|
    requires forall i {:trigger steps[i]} :: m <= i < n ==> RankFalls(states[i], steps[i], states[i + 1], p)
    ensures p < |states[n].prompts|
    ensures OwnSteps(steps, p, m, n) + Rank(states[n].prompts[p].stage) <= Rank(states[m].prompts[p].stage)
    decreases n - m
  {
    if m < n {
      RanksFall(states, steps, m, n - 1, p);
      assert RankFalls(states[n - 1], steps[n - 1], states[n], p);
    }
  }

  /** A prompt takes at most three steps of its own, whatever else happens in between, and none once it has returned. */
  lemma {:induction false} PromptEndsAfterThreeSteps(states: seq<Agent>, steps: seq<Step>, m: nat, n: nat, p: nat)
    requires Behaviour(states, steps) && m <= n < |states| && p < |states[m].prompts|
    ensures p < |states[n].prompts|
    ensures OwnSteps(steps, p, m, n) + Rank(states[n].prompts[p].stage) <= Rank(states[m].prompts[p].stage) <= 3
  {
    forall i {:trigger steps[i]} | m <= i < n
      ensures RankFalls(states[i], steps[i], states[i + 1], p)
    {
      PromptsMoveOn(states, steps, m, i, p);
      BehaviourKeepsInv(states, steps, i);
      MoveLowersRank(states[i], steps[i], states[i + 1], p);
    }
    RanksFall(states, steps, m, n, p);
  }

  /**
   A prompt that is aborted before it was submitted never calls `chat.send`, and it returns "cancelled" unless its stream had
   already failed, which was decided by the time of the abort.
   */
  lemma AbortedBeforeSubmit(states: seq<Agent>, steps: seq<Step>, m: nat, n: nat, p: nat)
    requires Behaviour(states, steps) && m <= n < |states| && p < |states[m].prompts|
    requires states[m].prompts[p].stream.hooks.aborted && !states[m].prompts[p].stream.phase.submitted
    ensures p < |states[n].prompts| && !states[n].prompts[p].stream.phase.submitted && !states[n].prompts[p].sendCalled
    ensures !states[m].prompts[p].stream.outcome.ready.Unready?
    ensures states[n].prompts[p].stage.Exited? ==>
              states[n].prompts[p].stage.result == BeforeSubmit(states[m].prompts[p].stream.outcome.ready)
  {
    PromptsMoveOn(states, steps, m, n, p);
    BehaviourKeepsInv(states, steps, m);
    BehaviourKeepsInv(states, steps, n);
  }

  /** A prompt that has returned has settled both promises and left the map; what it returned is final. */
  lemma ReturnedPromptIsGone(states: seq<Agent>, steps: seq<Step>, m: nat, n: nat, p: nat)
    requires Behaviour(states, steps) && m <= n < |states| && p < |states[m].prompts| && states[m].prompts[p].stage.Exited?
    ensures p < |states[n].prompts| && states[n].prompts[p].stage == states[m].prompts[p].stage
    ensures !states[n].prompts[p].sent.NotSent? && states[n].prompts[p].finished
    ensures forall k :: k in states[n].active ==> states[n].active[k] != p
    ensures states[n].prompts[p].stage.result == Replied(Chat.EndTurn) ==>
      states[n].prompts[p].stream.outcome.done == Chat.Stopped(Chat.EndTurn)
  {
    PromptsMoveOn(states, steps, m, n, p);
    BehaviourKeepsInv(states, steps, n);
  }

  /** A prompt is taken exactly if its session is known and no prompt of that session has yet to return. */
  lemma PromptIsTakenUnlessBusy(states: seq<Agent>, steps: seq<Step>, n: nat)
    requires Behaviour(states, steps) && n < |steps| && steps[n].PromptCall?
    ensures var s, t, session := states[n], states[n + 1], steps[n].session;
      if session in s.sessions && forall p :: 0 <= p < |s.prompts| && s.prompts[p].session == session ==> s.prompts[p].stage.Exited?
      then t.prompts == s.prompts + [NewPrompt(session, steps[n].elicit)]
      else t == s
  {
    BehaviourKeepsInv(states, steps, n);
    assert Moves(states[n], steps[n], states[n + 1]);
  }

  /**
   What a prompt returns: once the host has taken it, the reason with which its stream has stopped, or an exception if the stream has
   failed; "cancelled" if it was aborted before that; and an exception if it was submitted and the host did not take it.
   */
  lemma PromptReturnsEndOfStream(states: seq<Agent>, steps: seq<Step>, n: nat, p: nat, reason: Chat.StopReason)
    requires Behaviour(states, steps) && n < |states| && p < |states[n].prompts| && states[n].prompts[p].stage.Exited?
    ensures var prompt := states[n].prompts[p]; var done, result := prompt.stream.outcome.done, prompt.stage.result;
      && (prompt.sendCalled && prompt.sent.SentOk? ==>
            && (result == Replied(reason) <==> done == Chat.Stopped(reason))
            && (result == Thrown <==> done == Chat.DoneFailed))
      && (prompt.stream.phase.submitted && !(prompt.sendCalled && prompt.sent.SentOk?) ==> result == Thrown)
      && (!prompt.stream.phase.submitted ==>
            && (result == Thrown <==> prompt.stream.outcome.ready.ReadyFailed?)
            && (result == Replied(Chat.Cancelled) <==> !prompt.stream.outcome.ready.ReadyFailed?))
  {
    BehaviourKeepsInv(states, steps, n);
    assert PromptInv(states[n].prompts[p]);
  }

  // ----- the streams of the prompts -----

  /** The steps of the owner of a stream that one step of the connection can amount to. */
  predicate OwnersMove(a: Chat.Stream, b: Chat.Stream) {
    || b == a || b == Chat.Abort(a) || b == Chat.Submit(a) || b == Chat.Close(Chat.Abort(a))
    || b == Chat.Close(Chat.Abort(Chat.Submit(a)))
  }

  lemma OtherStepsMoveStream(s: Agent, step: Step, p: nat)
    requires ActiveInRange(s) && Enabled(s, step) && !IsPromptStep(step) && p < |s.prompts|
    ensures p < |Next(s, step).prompts| && OwnersMove(s.prompts[p].stream, Next(s, step).prompts[p].stream)
  {
  }

  lemma StepMovesStream(s: Agent, step: Step, p: nat)
    requires ActiveInRange(s) && Enabled(s, step) && p < |s.prompts|
    ensures p < |Next(s, step).prompts|
    ensures if step.OnStream? && step.prompt == p
      then Chat.Enabled(s.prompts[p].stream, step.step)
        && Next(s, step).prompts[p].stream == Chat.Next(s.prompts[p].stream, step.step)
      else OwnersMove(s.prompts[p].stream, Next(s, step).prompts[p].stream)
  {
    if !IsPromptStep(step) {
      OtherStepsMoveStream(s, step, p);
    }
  }

  lemma ChatGoesOn(states: seq<Chat.Stream>, steps: seq<Chat.Step>, options: Chat.Options, step: Chat.Step)
    returns (more: seq<Chat.Stream>, taken: seq<Chat.Step>)
    requires Chat.Behaviour(states, steps, options) && Chat.Enabled(states[|steps|], step)
    ensures Chat.Behaviour(more, taken, options) && more[|taken|] == Chat.Next(states[|steps|], step)
  {
    more, taken := states + [Chat.Next(states[|steps|], step)], steps + [step];
  }

  lemma OwnerGoesOn(states: seq<Chat.Stream>, steps: seq<Chat.Step>, options: Chat.Options, next: Chat.Stream)
    returns (more: seq<Chat.Stream>, taken: seq<Chat.Step>)
    requires Chat.Behaviour(states, steps, options) && OwnersMove(states[|steps|], next)
    ensures Chat.Behaviour(more, taken, options) && more[|taken|] == next
  {
    more, taken := states, steps;
    var stream := states[|steps|];
    if next == stream {
      return;
    }
    if next == Chat.Submit(stream) || next == Chat.Close(Chat.Abort(Chat.Submit(stream))) {
      more, taken := ChatGoesOn(more, taken, options, Chat.SubmitNow);
      stream := Chat.Submit(stream);
    }
    if next == Chat.Abort(stream) || next == Chat.Close(Chat.Abort(stream)) {
      more, taken := ChatGoesOn(more, taken, options, Chat.AbortNow);
      stream := Chat.Abort(stream);
    }
    if next == Chat.Close(stream) {
      more, taken := ChatGoesOn(more, taken, options, Chat.CloseNow);
    }
  }

  /** Whatever the connection does, the stream of a prompt behaves like a live chat stream on its own. */
  lemma {:induction false} StreamIsChatRun(states: seq<Agent>, steps: seq<Step>, n: nat, p: nat)
    returns (streams: seq<Chat.Stream>, moves: seq<Chat.Step>, options: Chat.Options)
    requires Behaviour(states, steps) && n < |states| && p < |states[n].prompts|
    ensures Chat.Behaviour(streams, moves, options) && !options.replay && streams[|moves|] == states[n].prompts[p].stream
  {
    var k := n - 1;
    assert Moves(states[k], steps[k], states[n]);
    if p < |states[k].prompts| {
      streams, moves, options := StreamIsChatRun(states, steps, k, p);
      StepMovesStream(states[k], steps[k], p);
      if steps[k].OnStream? && steps[k].prompt == p {
        streams, moves := ChatGoesOn(streams, moves, options, steps[k].step);
      } else {
        streams, moves := OwnerGoesOn(streams, moves, options, states[n].prompts[p].stream);
      }
    } else {
      NewPromptIsNew(states[k], steps[k], p);
      options := Chat.Options(false, steps[k].elicit);
      streams, moves := [Chat.New(options)], [];
    }
  }

  lemma NewPromptIsNew(s: Agent, step: Step, p: nat)
    requires ActiveInRange(s) && Enabled(s, step) && |s.prompts| <= p < |Next(s, step).prompts|
    ensures step.PromptCall? && Next(s, step).prompts[p] == NewPrompt(step.session, step.elicit)
  {
  }

  /** A prompt answers "end_turn" only after a view has shown its turn completed, behind a user event and without an abort. */
  lemma EndTurnAnswerIsEarned(states: seq<Agent>, steps: seq<Step>, n: nat, p: nat)
    returns (streams: seq<Chat.Stream>, moves: seq<Chat.Step>, options: Chat.Options, i: nat)
    requires Behaviour(states, steps) && n < |states| && p < |states[n].prompts|
    requires states[n].prompts[p].stage == Exited(Replied(Chat.EndTurn))
    ensures Chat.Behaviour(streams, moves, options) && streams[|moves|] == states[n].prompts[p].stream
    ensures i < |moves| && moves[i] == Chat.View(Some(Chat.Completed)) && !streams[i].hooks.aborted && streams[i].phase.submitted
    ensures Chat.UserBegun(streams, moves, i)
  {
    BehaviourKeepsInv(states, steps, n);
    assert PromptInv(states[n].prompts[p]);
    streams, moves, options := StreamIsChatRun(states, steps, n, p);
    i := Chat.EndTurnIsEarned(streams, moves, options, |moves|);
    Chat.UserSeenIsExact(streams, moves, options, i);
  }

  /** An entry leaves the map only when its own prompt returns. */
  lemma EntriesAreRemovedByTheirOwners(s: Agent, step: Step, session: Session)
    requires Inv(s) && Enabled(s, step) && session in s.active
    requires session !in Next(s, step).active || Next(s, step).active[session] != s.active[session]
    ensures Next(s, step).prompts[s.active[session]].stage.Exited?
  {
    StepKeepsInv(s, step);
    StepMovesPromptsOn(s, step, s.active[session]);
  }

  /**
   A cancel that waits for `sent` can go on, or its prompt can go on and lets the cancel go on by doing so, or `chat.send` is under
   way and whatever the host replies lets the cancel go on.
   */
  lemma CancelWaitsOnlyForHost(states: seq<Agent>, steps: seq<Step>, n: nat, c: nat, composed: bool, ok: bool)
    requires Behaviour(states, steps) && n < |states| && c < |states[n].cancels| && states[n].cancels[c].waiting.AwaitSent?
    ensures Inv(states[n])
    ensures var s, p := states[n], states[n].cancels[c].waiting.prompt;
      || CanResumeCancel(s, c)
      || (CanResumeReady(s, p) && CanResumeCancel(Next(s, ReadyResumes(p, composed)), c))
      || (At(s, p, AwaitSend) && CanResumeCancel(Next(s, HostReplies(p, ok)), c))
  {
    BehaviourKeepsInv(states, steps, n);
  }

  // ----- closing -----

  predicate SessionsKnown(s: Agent) {
    forall k :: k in s.active ==> k in s.sessions
  }

  predicate Looking(s: Agent, c: nat, session: Session) {
    c < |s.cancels| && s.cancels[c] == Cancel(session, Called)
  }

  predicate Covered(s: Agent, first: nat, last: nat, p: nat) {
    p < |s.prompts| && (s.prompts[p].stream.hooks.aborted || exists c :: first <= c < last && Looking(s, c, s.prompts[p].session))
  }

  /** Every prompt a close waits for is aborted, or one of the cancels that the close waits for first is about to abort it. */
  predicate CloseCovers(s: Agent, close: Close) {
    match close
    case AwaitCancels(first, last, prompts) => forall p :: p in prompts ==> Covered(s, first, last, p)
    case AwaitFinished(prompts) => forall p :: p in prompts ==> p < |s.prompts| && s.prompts[p].stream.hooks.aborted
    case Closed(_) => true
  }

  predicate ClosesCover(s: Agent) {
    forall k :: 0 <= k < |s.closes| ==> CloseCovers(s, s.closes[k])
  }

  lemma StepKeepsSessionsKnown(s: Agent, step: Step)
    requires Inv(s) && Enabled(s, step) && SessionsKnown(s)
    ensures SessionsKnown(Next(s, step))
  {
  }

  /** Looking up aborts the prompt that is active in the session, and all others of the session were aborted before. */
  lemma LookCovers(s: Agent, c: nat, p: nat)
    requires Inv(s) && SessionsKnown(s) && p < |s.prompts| && Looking(s, c, s.prompts[p].session)
    ensures Look(s, c).prompts[p].stream.hooks.aborted
  {
  }

  lemma StepKeepsCovered(s: Agent, step: Step, first: nat, last: nat, p: nat)
    requires Inv(s) && SessionsKnown(s) && Enabled(s, step) && Covered(s, first, last, p)
    ensures Covered(Next(s, step), first, last, p)
  {
    StepMovesPromptsOn(s, step, p);
    if !s.prompts[p].stream.hooks.aborted {
      var c :| first <= c < last && Looking(s, c, s.prompts[p].session);
      if step == CancelLooks(c) {
        LookCovers(s, c, p);
      } else {
        StepKeepsLooking(s, step, c, s.prompts[p].session);
      }
    }
  }

  lemma StepKeepsLooking(s: Agent, step: Step, c: nat, session: Session)
    requires Inv(s) && Enabled(s, step) && Looking(s, c, session) && step != CancelLooks(c)
    ensures Looking(Next(s, step), c, session)
  {
  }

  lemma CloseStaysCovering(s: Agent, step: Step, close: Close)
    requires Inv(s) && SessionsKnown(s) && Enabled(s, step) && CloseCovers(s, close)
    ensures CloseCovers(Next(s, step), close)
  {
    match close
    case AwaitCancels(first, last, prompts) =>
      forall p | p in prompts
        ensures Covered(Next(s, step), first, last, p)
      {
        StepKeepsCovered(s, step, first, last, p);
      }
    case AwaitFinished(prompts) =>
      forall p | p in prompts
        ensures p < |Next(s, step).prompts| && Next(s, step).prompts[p].stream.hooks.aborted
      {
        StepMovesPromptsOn(s, step, p);
      }
    case Closed(_) =>
  }

  /** Once the cancels have ended, everything that they covered is aborted. */
  lemma ResumeCloseCovers(s: Agent, k: nat)
    requires CanResumeClose(s, k) && CloseCovers(s, s.closes[k])
    ensures CloseCovers(ResumeClose(s, k), ResumeClose(s, k).closes[k])
  {
    var close := s.closes[k];
    if close.AwaitCancels? && AllEnded(s, close.first, close.last) {
      forall p | p in close.prompts
        ensures p < |s.prompts| && s.prompts[p].stream.hooks.aborted
      {
        assert Covered(s, close.first, close.last, p);
      }
    }
  }

  lemma CallCloseCovers(s: Agent, order: seq<Session>)
    requires Inv(s) && Enabled(s, CloseCall(order))
    ensures CloseCovers(CallClose(s, order), AwaitCancels(|s.cancels|, |s.cancels| + |order|, s.active.Values))
  {
    var t := CallClose(s, order);
    forall p | p in s.active.Values
      ensures Covered(t, |s.cancels|, |s.cancels| + |order|, p)
    {
      var session := s.prompts[p].session;
      assert s.active[session] == p;
      var i :| 0 <= i < |order| && order[i] == session;
      assert Looking(t, |s.cancels| + i, session);
    }
  }

  lemma StepKeepsClosesCover(s: Agent, step: Step)
    requires Inv(s) && SessionsKnown(s) && Enabled(s, step) && ClosesCover(s)
    ensures ClosesCover(Next(s, step))
  {
    var t := Next(s, step);
    forall k | 0 <= k < |t.closes|
      ensures CloseCovers(t, t.closes[k])
    {
      if step == CloseResumes(k) {
        ResumeCloseCovers(s, k);
      } else if k < |s.closes| {
        CloseStaysCovering(s, step, s.closes[k]);
      } else {
        CallCloseCovers(s, step.order);
      }
    }
  }

  lemma {:induction false} ClosesAreCovered(states: seq<Agent>, steps: seq<Step>, n: nat)
    requires Behaviour(states, steps) && n < |states|
    ensures SessionsKnown(states[n]) && ClosesCover(states[n])
  {
    if n > 0 {
      ClosesAreCovered(states, steps, n - 1);
      BehaviourKeepsInv(states, steps, n - 1);
      StepKeepsSessionsKnown(states[n - 1], steps[n - 1]);
      StepKeepsClosesCover(states[n - 1], steps[n - 1]);
    }
  }

  /**
   A close that waits for prompts waits for aborted ones only: each has finished, or can return as "cancelled" at once, or was
   submitted and waits for the host, for `chat.send` or for the end of its turn.
   */
  lemma CloseWaitsOnlyForHost(states: seq<Agent>, steps: seq<Step>, n: nat, k: nat, p: nat, composed: bool)
    requires Behaviour(states, steps) && n < |states| && k < |states[n].closes|
    requires states[n].closes[k].AwaitFinished? && p in states[n].closes[k].prompts
    ensures p < |states[n].prompts| && Inv(states[n])
    ensures var s := states[n];
      || s.prompts[p].finished
      || (CanResumeReady(s, p) && Next(s, ReadyResumes(p, composed)).prompts[p].finished)
      || At(s, p, AwaitSend)
      || (At(s, p, AwaitDone) && (s.prompts[p].stream.outcome.done.Undone? || Next(s, DoneResumes(p)).prompts[p].finished))
  {
    BehaviourKeepsInv(states, steps, n);
    ClosesAreCovered(states, steps, n);
    assert CloseCovers(states[n], states[n].closes[k]);
  }

  /** The cancel has ended or has a step of its own, or its prompt can go on at once, or `chat.send` is under way. */
  predicate WaitsOnlyForHost(s: Agent, c: nat)
    requires c < |s.cancels|
  {
    match s.cancels[c].waiting
    case AwaitSent(p) => CanResumeCancel(s, c) || CanResumeReady(s, p) || At(s, p, AwaitSend)
    case Called => Enabled(s, CancelLooks(c))
    case Polling(_) => forall running, queued, late :: Enabled(s, CancelPolls(c, running, queued, late))
    case Interrupting(_) => forall ok :: Enabled(s, CancelInterrupts(c, ok))
    case _ => Ended(s.cancels[c])
  }

  /** A close that waits for its cancels can go on, or waits for cancels that wait for nothing but the host. */
  lemma CancelsOfCloseWaitOnlyForHost(states: seq<Agent>, steps: seq<Step>, n: nat, k: nat)
    requires Behaviour(states, steps) && n < |states| && k < |states[n].closes| && states[n].closes[k].AwaitCancels?
    ensures var s, close := states[n], states[n].closes[k];
      && close.last <= |s.cancels|
      && (forall c :: close.first <= c < close.last ==> WaitsOnlyForHost(s, c))
      && (CanResumeClose(s, k) || exists c :: close.first <= c < close.last && !Ended(s.cancels[c]))
  {
    BehaviourKeepsInv(states, steps, n);
    var s, close := states[n], states[n].closes[k];
    assert CloseFits(s, close);
    forall c | close.first <= c < close.last
      ensures WaitsOnlyForHost(s, c)
    {
      if s.cancels[c].waiting.AwaitSent? {
        CancelWaitsOnlyForHost(states, steps, n, c, true, true);
      }
    }
  }

  /** A close goes on as soon as one of its cancels has failed; otherwise only cancels and prompts that have not ended hold it up. */
  lemma CloseIsNeverStuck(states: seq<Agent>, steps: seq<Step>, n: nat, k: nat)
    requires Behaviour(states, steps) && n < |states| && k < |states[n].closes| && !states[n].closes[k].Closed?
    ensures match states[n].closes[k]
      case AwaitCancels(first, last, _) =>
        && last <= |states[n].cancels|
        && (forall c :: first <= c < last && states[n].cancels[c].waiting.Failing? ==> Enabled(states[n], CloseResumes(k)))
        && (Enabled(states[n], CloseResumes(k)) || exists c :: first <= c < last && !Ended(states[n].cancels[c]))
      case AwaitFinished(prompts) =>
        && (forall p :: p in prompts ==> p < |states[n].prompts|)
        && (Enabled(states[n], CloseResumes(k)) || exists p :: p in prompts && !states[n].prompts[p].finished)
      case Closed(_) => false
  {
    BehaviourKeepsInv(states, steps, n);
    ClosesAreCovered(states, steps, n);
    assert CloseFits(states[n], states[n].closes[k]) && CloseCovers(states[n], states[n].closes[k]);
  }

  lemma {:induction false} Listing(sessions: set<Session>) returns (order: seq<Session>)
    ensures |order| == |sessions| && forall k :: k in order <==> k in sessions
    decreases sessions
  {
    order := [];
    if k :| k in sessions {
      var others := Listing(sessions - {k});
      order := [k] + others;
    }
  }

  /** The agent can be closed at any time. */
  lemma CloseCanBeCalled(s: Agent) returns (order: seq<Session>)
    ensures Enabled(s, CloseCall(order))
  {
    order := Listing(s.active.Keys);
    assert |s.active| == |s.active.Keys|;
  }

  // ----- what a cancel does not promise -----

  function Last(states: seq<Agent>): Agent
    requires states != []
  {
    states[|states| - 1]
  }

  lemma Appended(states: seq<Agent>, steps: seq<Step>, step: Step, next: Agent) returns (more: seq<Agent>, taken: seq<Step>)
    requires Behaviour(states, steps) && Moves(Last(states), step, next)
    ensures Behaviour(more, taken) && Last(more) == next
  {
    more, taken := states + [next], steps + [step];
    forall i | 0 <= i < |taken|
      ensures Moves(more[i], taken[i], more[i + 1])
    {
      if i < |steps| {
        assert Moves(states[i], steps[i], states[i + 1]);
      }
    }
  }

  lemma Extended(states: seq<Agent>, steps: seq<Step>, step: Step) returns (more: seq<Agent>, taken: seq<Step>)
    requires Behaviour(states, steps) && Enabled(Last(states), step)
    ensures Behaviour(more, taken) && ActiveInRange(Last(states)) && Last(more) == Next(Last(states), step)
  {
    BehaviourKeepsInv(states, steps, |steps|);
    more, taken := Appended(states, steps, step, Next(Last(states), step));
  }

  const REPLAYED: Chat.Event := Chat.Event(Chat.ReplayEnd, [])

  /** The stream of a prompt after the replay has ended. */
  function ReplayedStream(): Chat.Stream {
    Chat.New(Chat.Options(false, false)).(
      phase := Chat.Phase(false, false, false),
      outcome := Chat.Outcome(false, Chat.Prepared, Chat.Undone))
  }

  function SubmittedPrompt(): Prompt {
    Prompt("s", Chat.Submit(ReplayedStream()), AwaitSend, NotSent, false, true)
  }

  lemma PromptIsSubmitted() returns (states: seq<Agent>, steps: seq<Step>)
    ensures Behaviour(states, steps) && Last(states) == Agent({"s"}, map["s" := 0], [SubmittedPrompt()], [], [])
  {
    states, steps := [START], [];
    states, steps := Extended(states, steps, Register("s"));
    states, steps := Extended(states, steps, PromptCall("s", false));
    assert Last(states).prompts == [NewPrompt("s", false)];
    states, steps := Extended(states, steps, OnStream(0, Chat.Arrive(REPLAYED)));
    states, steps := Extended(states, steps, OnStream(0, Chat.Begin));
    assert Last(states).prompts[0].stream == ReplayedStream();
    states, steps := Extended(states, steps, ReadyResumes(0, true));
  }

  lemma PollingCancel() returns (states: seq<Agent>, steps: seq<Step>)
    ensures Behaviour(states, steps) && Last(states).sessions == {"s"} && Last(states).active == map["s" := 0]
    ensures Last(states).prompts ==
      [SubmittedPrompt().(stream := Chat.Abort(Chat.Submit(ReplayedStream())), stage := AwaitDone, sent := SentOk)]
    ensures Last(states).cancels == [Cancel("s", Polling(0))]
  {
    states, steps := PromptIsSubmitted();
    states, steps := Extended(states, steps, HostReplies(0, true));
    states, steps := Extended(states, steps, CancelCall("s"));
    states, steps := Extended(states, steps, CancelLooks(0));
    states, steps := Extended(states, steps, CancelResumes(0));
  }

  /** The cancel of a prompt polls, and the prompt returns because its connection breaks. */
  lemma CancelOutlivesItsPrompt() returns (states: seq<Agent>, steps: seq<Step>)
    ensures Behaviour(states, steps) && Last(states).sessions == {"s"} && Last(states).active == map[]
    ensures |Last(states).prompts| == 1 && Last(states).prompts[0].stage == Exited(Thrown)
    ensures Last(states).cancels == [Cancel("s", Polling(0))]
  {
    states, steps := PollingCancel();
    states, steps := Extended(states, steps, OnStream(0, Chat.Break));
    states, steps := Extended(states, steps, DoneResumes(0));
  }

  /** The next prompt of the session is sent while the cancel still polls. */
  lemma NextPromptRuns() returns (states: seq<Agent>, steps: seq<Step>)
    ensures Behaviour(states, steps) && Last(states).active == map["s" := 1] && |Last(states).prompts| == 2
    ensures Last(states).prompts[0].stage == Exited(Thrown)
    ensures Last(states).prompts[1] == SubmittedPrompt().(stage := AwaitDone, sent := SentOk)
    ensures Last(states).cancels == [Cancel("s", Polling(0))]
  {
    states, steps := CancelOutlivesItsPrompt();
    states, steps := Extended(states, steps, PromptCall("s", false));
    assert Last(states).prompts[1] == NewPrompt("s", false);
    states, steps := Extended(states, steps, OnStream(1, Chat.Arrive(REPLAYED)));
    states, steps := Extended(states, steps, OnStream(1, Chat.Begin));
    assert Last(states).prompts[1].stream == ReplayedStream();
    states, steps := Extended(states, steps, ReadyResumes(1, true));
    states, steps := Extended(states, steps, HostReplies(1, true));
  }

  /**
   The cancel rechecks the session once and its own prompt never, so that it can interrupt the turn of the prompt that came after
   the one it was sent for: that one has returned, and the host has taken the next one.
   */
  lemma CancelReachesNextPrompt() returns (states: seq<Agent>, steps: seq<Step>)
    ensures Behaviour(states, steps) && |Last(states).prompts| == 2
    ensures Last(states).prompts[0].stage.Exited? && Last(states).active == map["s" := 1]
    ensures Last(states).prompts[1].stage == AwaitDone && Last(states).prompts[1].sendCalled
    ensures !Last(states).prompts[1].stream.hooks.aborted
    ensures Last(states).cancels == [Cancel("s", Interrupted(0))]
  {
    states, steps := NextPromptRuns();
    states, steps := Extended(states, steps, CancelPolls(0, true, false, false));
    states, steps := Extended(states, steps, CancelInterrupts(0, true));
  }

  /** The prompt that is active in the cancel's session is the one the cancel was sent for. */
  predicate OwnIsActive(s: Agent, c: nat)
    requires c < |s.cancels| && HasPrompt(s.cancels[c].waiting)
  {
    s.cancels[c].session in s.active && s.active[s.cancels[c].session] == s.cancels[c].waiting.prompt
  }

  /** The moments at which a cancel decides by its session: the recheck, a poll that finds the actor running, and the interrupt. */
  predicate GoesBySession(step: Step, c: nat) {
    step == CancelResumes(c) || (step.CancelPolls? && step.cancel == c && step.running) || step == CancelInterrupts(c, true)
  }

  /**
   Whenever a cancel decides by its session: the prompt that is active there is the cancel's own if and only if that one has not
   returned by then, and in that case it was sent and waits for the end of its turn. Any other active prompt was called later.
   */
  lemma InterruptsOwnUnlessReturned(states: seq<Agent>, steps: seq<Step>, n: nat, c: nat)
    requires Behaviour(states, steps) && n < |steps| && GoesBySession(steps[n], c)
    ensures c < |states[n].cancels| && HasPrompt(states[n].cancels[c].waiting)
    ensures states[n].cancels[c].waiting.prompt < |states[n].prompts|
    ensures var s, session, p := states[n], states[n].cancels[c].session, states[n].cancels[c].waiting.prompt;
      && (OwnIsActive(s, c) <==> !s.prompts[p].stage.Exited?)
      && (OwnIsActive(s, c) <==> s.prompts[p].stage == AwaitDone)
      && (session in s.active && !OwnIsActive(s, c) ==> p < s.active[session])
  {
    BehaviourKeepsInv(states, steps, n);
    ActiveStaysLatest(states, steps, n);
    assert Moves(states[n], steps[n], states[n + 1]);
    assert WaitingFits(states[n], states[n].cancels[c].session, states[n].cancels[c].waiting);
  }

  // ----- how cancels and closes end -----

  /** What makes a cancel end like this. */
  predicate CancelEndsWith(s: Agent, step: Step, c: nat, waiting: Waiting)
    requires c < |s.cancels|
  {
    var session := s.cancels[c].session;
    match waiting
    case Returned =>
      || (step == CancelLooks(c) && session in s.sessions && session !in s.active)
      || (step == CancelResumes(c) && session !in s.active && SentWas(s, c, SentOk))
      || (step.CancelPolls? && step.cancel == c && !step.running && !step.queued)
    case Failing =>
      || (step == CancelLooks(c) && session !in s.sessions)
      || (step == CancelResumes(c) && SentWas(s, c, SentFailed))
      || (step.CancelPolls? && step.cancel == c && !step.running && step.queued && step.late)
      || step == CancelInterrupts(c, false)
    case Interrupted(p) => step == CancelInterrupts(c, true) && s.cancels[c].waiting == Interrupting(p)
    case _ => false
  }

  /** How `sent` of the cancel's prompt was settled. */
  predicate SentWas(s: Agent, c: nat, sent: Sent)
    requires c < |s.cancels|
  {
    s.cancels[c].waiting.AwaitSent? && s.cancels[c].waiting.prompt < |s.prompts| && s.prompts[s.cancels[c].waiting.prompt].sent == sent
  }

  predicate IsCancelStep(step: Step, c: nat) {
    (step.CancelLooks? || step.CancelResumes? || step.CancelPolls? || step.CancelInterrupts?) && step.cancel == c
  }

  lemma OtherStepsLeaveCancel(s: Agent, step: Step, c: nat)
    requires ActiveInRange(s) && Enabled(s, step) && c < |s.cancels| && !IsCancelStep(step, c)
    ensures c < |Next(s, step).cancels| && Next(s, step).cancels[c] == s.cancels[c]
  {
  }

  lemma CancelStepEnds(s: Agent, step: Step, c: nat, waiting: Waiting)
    requires ActiveInRange(s) && Enabled(s, step) && IsCancelStep(step, c)
    requires waiting.Returned? || waiting.Failing? || waiting.Interrupted?
    ensures c < |s.cancels| && c < |Next(s, step).cancels|
    ensures Next(s, step).cancels[c].waiting == waiting <==> CancelEndsWith(s, step, c, waiting)
  {
  }

  lemma StepEndsCancel(s: Agent, step: Step, c: nat, waiting: Waiting)
    requires ActiveInRange(s) && Enabled(s, step) && c < |s.cancels| && !Ended(s.cancels[c])
    requires waiting.Returned? || waiting.Failing? || waiting.Interrupted?
    ensures c < |Next(s, step).cancels|
    ensures Next(s, step).cancels[c].waiting == waiting <==> CancelEndsWith(s, step, c, waiting)
  {
    if IsCancelStep(step, c) {
      CancelStepEnds(s, step, c, waiting);
    } else {
      OtherStepsLeaveCancel(s, step, c);
    }
  }

  /** A cancel that has not ended ends with a step, and how, exactly as that step says. */
  lemma CancelEndIsExact(states: seq<Agent>, steps: seq<Step>, n: nat, c: nat, waiting: Waiting)
    requires Behaviour(states, steps) && n < |steps| && c < |states[n].cancels|
    requires !Ended(states[n].cancels[c]) && (waiting.Returned? || waiting.Failing? || waiting.Interrupted?)
    ensures c < |states[n + 1].cancels|
    ensures states[n + 1].cancels[c].waiting == waiting <==> CancelEndsWith(states[n], steps[n], c, waiting)
  {
    BehaviourKeepsInv(states, steps, n);
    assert Moves(states[n], steps[n], states[n + 1]);
    StepEndsCancel(states[n], steps[n], c, waiting);
  }

  /** Where a close that was called with some active prompts can be. */
  predicate ClosesOn(s: Agent, k: nat, first: nat, last: nat, prompts: set<nat>) {
    && k < |s.closes|
    && match s.closes[k]
       case AwaitCancels(f, l, ps) => f == first && l == last && ps == prompts
       case AwaitFinished(ps) => ps == prompts && AllWentWell(s, first, last)
       case Closed(ok) =>
         if ok then AllWentWell(s, first, last) && AllFinished(s, prompts) else SomeFailed(s, first, last)
  }

  /** Cancels that have ended without an exception. */
  predicate AllWentWell(s: Agent, first: nat, last: nat) {
    last <= |s.cancels| && forall c :: first <= c < last ==> s.cancels[c].waiting.Returned? || s.cancels[c].waiting.Interrupted?
  }

  predicate AllFinished(s: Agent, prompts: set<nat>) {
    forall p :: p in prompts ==> p < |s.prompts| && s.prompts[p].finished
  }

  /** What ends cancels and prompts is kept. */
  predicate KeepsEnds(s: Agent, t: Agent) {
    && |s.cancels| <= |t.cancels| && |s.prompts| <= |t.prompts| && |s.closes| <= |t.closes|
    && (forall c :: 0 <= c < |s.cancels| && Ended(s.cancels[c]) ==> t.cancels[c] == s.cancels[c])
    && (forall p :: 0 <= p < |s.prompts| && s.prompts[p].finished ==> t.prompts[p].finished)
  }

  lemma StepKeepsFinished(s: Agent, step: Step)
    requires Inv(s) && Enabled(s, step)
    ensures |s.prompts| <= |Next(s, step).prompts|
    ensures forall p :: 0 <= p < |s.prompts| && s.prompts[p].finished ==> Next(s, step).prompts[p].finished
  {
    if |s.prompts| > 0 {
      StepMovesPromptsOn(s, step, 0);
    }
    forall p | 0 <= p < |s.prompts| && s.prompts[p].finished
      ensures Next(s, step).prompts[p].finished
    {
      StepMovesPromptsOn(s, step, p);
    }
  }

  lemma StepKeepsEnds(s: Agent, step: Step, t: Agent)
    requires Inv(s) && Moves(s, step, t)
    ensures KeepsEnds(s, t)
  {
    StepKeepsFinished(s, step);
    StepKeepsEndedCancels(s, step);
  }

  lemma StepKeepsEndedCancels(s: Agent, step: Step)
    requires ActiveInRange(s) && Enabled(s, step)
    ensures |s.cancels| <= |Next(s, step).cancels| && |s.closes| <= |Next(s, step).closes|
    ensures forall c :: 0 <= c < |s.cancels| && Ended(s.cancels[c]) ==> Next(s, step).cancels[c] == s.cancels[c]
    ensures forall k :: 0 <= k < |s.closes| && step != CloseResumes(k) ==> Next(s, step).closes[k] == s.closes[k]
  {
  }

  lemma EndsStay(s: Agent, t: Agent, k: nat, first: nat, last: nat, prompts: set<nat>)
    requires KeepsEnds(s, t) && ClosesOn(s, k, first, last, prompts) && t.closes[k] == s.closes[k]
    ensures ClosesOn(t, k, first, last, prompts)
  {
    if SomeFailed(s, first, last) {
      var c :| first <= c < last && c < |s.cancels| && s.cancels[c].waiting.Failing?;
      assert t.cancels[c].waiting.Failing?;
    }
  }

  lemma ResumeClosesOn(s: Agent, k: nat, first: nat, last: nat, prompts: set<nat>)
    requires CanResumeClose(s, k) && ClosesOn(s, k, first, last, prompts)
    ensures ClosesOn(ResumeClose(s, k), k, first, last, prompts)
  {
  }

  lemma MoveClosesOn(s: Agent, step: Step, t: Agent, k: nat, first: nat, last: nat, prompts: set<nat>)
    requires Inv(s) && Moves(s, step, t) && ClosesOn(s, k, first, last, prompts)
    ensures ClosesOn(t, k, first, last, prompts)
  {
    if step == CloseResumes(k) {
      ResumeClosesOn(s, k, first, last, prompts);
    } else {
      StepKeepsEnds(s, step, t);
      StepKeepsEndedCancels(s, step);
      EndsStay(s, t, k, first, last, prompts);
    }
  }

  lemma CallClosesOn(s: Agent, step: Step, t: Agent)
    requires Moves(s, step, t) && step.CloseCall?
    ensures ClosesOn(t, |s.closes|, |s.cancels|, |s.cancels| + |s.active|, s.active.Values)
  {
  }

  lemma RunClosesOn(states: seq<Agent>, steps: seq<Step>, n: nat, k: nat, first: nat, last: nat, prompts: set<nat>)
    requires Behaviour(states, steps) && n < |steps| && ClosesOn(states[n], k, first, last, prompts)
    ensures ClosesOn(states[n + 1], k, first, last, prompts)
  {
    BehaviourKeepsInv(states, steps, n);
    MoveClosesOn(states[n], steps[n], states[n + 1], k, first, last, prompts);
  }

  /**
   A close that succeeds has waited for everything that was going on when it was called: each of its cancels has ended without an
   exception and each prompt that was active then has finished. It fails only with one of its cancels.
   */
  lemma {:induction false} CloseHasWaited(states: seq<Agent>, steps: seq<Step>, m: nat, n: nat)
    requires Behaviour(states, steps) && m < n < |states| && steps[m].CloseCall?
    ensures var s, k := states[m], |states[m].closes|;
      ClosesOn(states[n], k, |s.cancels|, |s.cancels| + |s.active|, s.active.Values)
    decreases n
  {
    if m == n - 1 {
      CallClosesOn(states[m], steps[m], states[n]);
    } else {
      var s := states[m];
      CloseHasWaited(states, steps, m, n - 1);
      RunClosesOn(states, steps, n - 1, |s.closes|, |s.cancels|, |s.cancels| + |s.active|, s.active.Values);
    }
  }

  // ----- a prompt that ends -----

  const SAID: Chat.Event := Chat.Event(Chat.User, [])
  const OVER: Chat.Event := Chat.Event(Chat.TurnDone, [])

  /** The stream of a submitted prompt after the user event. */
  function SeenStream(): Chat.Stream {
    Chat.Submit(ReplayedStream()).(phase := Chat.Phase(false, true, true))
  }

  /** An event without updates is handled in one go. */
  lemma EmptyEvent(s: Chat.Stream, event: Chat.Event)
    requires s.queue == [] && s.hooks.subscribed && s.work.Idle? && !s.outcome.finished && Chat.Admits(s) && !s.options.replay
    requires event == SAID || event == OVER
    ensures var arrived := Chat.Next(s, Chat.Arrive(event));
      Chat.Next(arrived, Chat.Begin) ==
        s.(phase := s.phase.(userSeen := s.phase.userSeen || event == SAID), work := Chat.Forwarding(event, []))
  {
    assert (s.queue + [event])[1..] == s.queue;
  }

  lemma UserIsSeen() returns (states: seq<Agent>, steps: seq<Step>)
    ensures Behaviour(states, steps) && Last(states).sessions == {"s"} && Last(states).active == map["s" := 0]
    ensures Last(states).prompts == [Prompt("s", SeenStream(), AwaitDone, SentOk, false, true)]
  {
    states, steps := PromptIsSubmitted();
    states, steps := Extended(states, steps, HostReplies(0, true));
    EmptyEvent(Last(states).prompts[0].stream, SAID);
    states, steps := Extended(states, steps, OnStream(0, Chat.Arrive(SAID)));
    states, steps := Extended(states, steps, OnStream(0, Chat.Begin));
    states, steps := Extended(states, steps, OnStream(0, Chat.SendOne));
  }

  lemma TurnIsViewed() returns (states: seq<Agent>, steps: seq<Step>)
    ensures Behaviour(states, steps) && Last(states).sessions == {"s"} && Last(states).active == map["s" := 0]
    ensures Last(states).prompts == [Prompt("s", SeenStream().(work := Chat.Viewing(OVER)), AwaitDone, SentOk, false, true)]
  {
    states, steps := UserIsSeen();
    EmptyEvent(Last(states).prompts[0].stream, OVER);
    states, steps := Extended(states, steps, OnStream(0, Chat.Arrive(OVER)));
    states, steps := Extended(states, steps, OnStream(0, Chat.Begin));
    states, steps := Extended(states, steps, OnStream(0, Chat.SendOne));
  }

  /** A prompt that is sent, answered and completed returns "end_turn". */
  lemma PromptEndsItsTurn() returns (states: seq<Agent>, steps: seq<Step>)
    ensures Behaviour(states, steps) && |Last(states).prompts| == 1 && Last(states).active == map[]
    ensures Last(states).prompts[0].stage == Exited(Replied(Chat.EndTurn))
  {
    states, steps := TurnIsViewed();
    states, steps := Extended(states, steps, OnStream(0, Chat.View(Some(Chat.Completed))));
    states, steps := Extended(states, steps, DoneResumes(0));
  }

  // ----- what an abort does not promise -----

  /** The connection breaks during the replay, and only then the prompt is cancelled: it throws instead of returning "cancelled". */
  lemma FailedBeforeAbort() returns (states: seq<Agent>, steps: seq<Step>)
    ensures Behaviour(states, steps) && |Last(states).prompts| == 1
    ensures var prompt := Last(states).prompts[0];
      prompt.stream.hooks.aborted && !prompt.stream.phase.submitted && prompt.stream.outcome.ready.ReadyFailed?
    ensures CanResumeReady(Last(states), 0) && ResumeReady(Last(states), 0, true).prompts[0].stage == Exited(Thrown)
  {
    states, steps := [START], [];
    states, steps := Extended(states, steps, Register("s"));
    states, steps := Extended(states, steps, PromptCall("s", false));
    states, steps := Extended(states, steps, OnStream(0, Chat.Break));
    states, steps := Extended(states, steps, CancelCall("s"));
    states, steps := Extended(states, steps, CancelLooks(0));
  }
}
