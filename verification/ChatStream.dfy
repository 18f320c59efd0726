/**
 scripts/acp/chat-stream.ts: one subscription to the chat of a run, live or replayed. Events are handled one after the other; each
 handler runs in pieces between its awaits, and abort, failure, submit and close can come between any two pieces.
 */
module ChatStream {
  import opened Wrappers

  type Update = string

  datatype Kind =
    | Reset
    | ReplayEnd
    | User
    | Tool(id: string)
    | ToolResult(id: string, result: string)
    | Ask
    | StartupFailed
    | TurnDone
    | Other

  /** `updates` is what `chatUpdates` makes of the event. */
  datatype Event = Event(kind: Kind, updates: seq<Update>)

  datatype StopReason = EndTurn | Cancelled

  datatype Ready = Unready | Prepared | ReadyFailed

  datatype Done = Undone | Stopped(reason: StopReason) | DoneFailed

  datatype TurnStatus = Running | Completed | Failed | Interrupted

  /** Where the handler of the current event stands. */
  datatype Work =
    | Idle
    | Attaching(event: Event)
    | Forwarding(event: Event, rest: seq<Update>)
    | Eliciting(event: Event)
    | Viewing(event: Event)

  datatype Options = Options(replay: bool, elicit: bool)

  datatype Phase = Phase(replaying: bool, submitted: bool, userSeen: bool)

  /** The two promises, and the flag that closes the stream for further events. */
  datatype Outcome = Outcome(finished: bool, ready: Ready, done: Done)

  /** The abort signal, whether the abort handler is still registered, and whether the channel is. */
  datatype Hooks = Hooks(aborted: bool, listening: bool, subscribed: bool)

  datatype Stream = Stream(
    options: Options, phase: Phase, outcome: Outcome, hooks: Hooks, skipCompletions: int, toolResults: map<string, string>,
    queue: seq<Event>, work: Work, forwarded: seq<Update>)

  function New(options: Options): Stream {
    Stream(options, Phase(true, false, false), Outcome(false, Unready, Undone), Hooks(false, true, true), 0, map[], [], Idle, [])
  }

  // ----- the promises: the first settlement decides -----

  function MarkedReady(o: Outcome, ready: Ready): Outcome {
    if o.ready.Unready? then o.(ready := ready) else o
  }

  function MarkedDone(o: Outcome, done: Done): Outcome {
    Outcome(true, o.ready, if o.done.Undone? then done else o.done)
  }

  function Rejecting(o: Outcome): Outcome {
    MarkedDone(MarkedReady(o, ReadyFailed), DoneFailed)
  }

  // ----- the pieces -----

  function Fail(s: Stream): Stream {
    s.(outcome := Rejecting(s.outcome))
  }

  /** The abort handler: only a prompt that is neither submitted nor finished is cancelled by it. */
  function Abort(s: Stream): Stream {
    s.(hooks := Hooks(true, false, s.hooks.subscribed),
       outcome := if s.hooks.listening && !s.phase.submitted && !s.outcome.finished
                  then MarkedDone(MarkedReady(s.outcome, Prepared), Stopped(Cancelled)) else s.outcome)
  }

  function Submit(s: Stream): Stream {
    s.(phase := s.phase.(submitted := true))
  }

  function Close(s: Stream): Stream {
    s.(hooks := Hooks(s.hooks.aborted, false, false))
  }

  /** An event gets past the guards at the start of the handler. */
  predicate Admits(s: Stream) {
    !s.outcome.finished && (s.options.replay || (s.phase.submitted && !s.phase.replaying))
  }

  predicate Repeats(results: map<string, string>, kind: Kind) {
    kind.ToolResult? && kind.id in results && results[kind.id] == kind.result
  }

  function Remembered(results: map<string, string>, kind: Kind): map<string, string> {
    match kind
    case Tool(id) => results - {id}
    case ToolResult(id, result) => results[id := result]
    case _ => results
  }

  predicate IsElicited(options: Options, kind: Kind) {
    kind.Ask? && options.elicit && !options.replay
  }

  function Updates(options: Options, event: Event): seq<Update> {
    if IsElicited(options, event.kind) then [] else event.updates
  }

  /** What a replay-end does to the promises. */
  function ReplayEnded(o: Outcome, replay: bool): Outcome {
    if replay then MarkedDone(MarkedReady(o, Prepared), Stopped(EndTurn)) else MarkedReady(o, Prepared)
  }

  /** The handler of an admitted event up to its first await. */
  function Start(s: Stream, event: Event): Stream {
    if Repeats(s.toolResults, event.kind) then s
    else s.(toolResults := Remembered(s.toolResults, event.kind),
            phase := s.phase.(userSeen := s.phase.userSeen || event.kind.User?),
            work := if event.kind.User? && s.options.replay then Attaching(event)
                    else Forwarding(event, Updates(s.options, event)))
  }

  /** The handler up to its first await. */
  function Handled(s: Stream, event: Event): Stream {
    if s.outcome.finished then s
    else if event.kind.Reset? then s.(phase := s.phase.(replaying := true))
    else if event.kind.ReplayEnd? then
      s.(phase := s.phase.(replaying := false), outcome := ReplayEnded(s.outcome, s.options.replay))
    else if !Admits(s) then s
    else Start(s, event)
  }

  function Take(s: Stream): Stream
    requires s.work.Idle? && s.queue != []
  {
    Handled(s.(queue := s.queue[1..]), s.queue[0])
  }

  function Attached(s: Stream): Stream
    requires s.work.Attaching?
  {
    s.(work := Forwarding(s.work.event, Updates(s.options, s.work.event)))
  }

  /** The next update is sent, or the loop over the updates is over. */
  function Forward(s: Stream): Stream
    requires s.work.Forwarding?
  {
    if s.work.rest != [] then
      s.(forwarded := s.forwarded + [s.work.rest[0]], work := Forwarding(s.work.event, s.work.rest[1..]))
    else if IsElicited(s.options, s.work.event.kind) then s.(work := Eliciting(s.work.event))
    else Tail(s, s.work.event)
  }

  function Elicited(s: Stream, answered: bool): Stream
    requires s.work.Eliciting?
  {
    Tail(s.(skipCompletions := s.skipCompletions + if answered then 1 else 0), s.work.event)
  }

  /** The handler after everything was forwarded. */
  function Tail(s: Stream, event: Event): Stream {
    if event.kind.StartupFailed? then s.(work := Idle, outcome := Rejecting(s.outcome))
    else if !event.kind.TurnDone? || s.options.replay || !s.phase.userSeen then s.(work := Idle)
    else if s.skipCompletions > 0 then s.(work := Idle, skipCompletions := s.skipCompletions - 1)
    else s.(work := Viewing(event))
  }

  /** The latest turn of the primary actor, as the view that was asked for shows it. */
  function Viewed(s: Stream, turn: Option<TurnStatus>): Stream
    requires s.work.Viewing?
  {
    if turn.None? || turn.value.Failed? then s.(work := Idle, outcome := Rejecting(s.outcome))
    else if turn.value.Running? then s.(work := Idle)
    else s.(work := Idle, outcome := MarkedDone(s.outcome,
              Stopped(if s.hooks.aborted || turn.value.Interrupted? then Cancelled else EndTurn)))
  }

  // ----- the class -----

  class ChatSubscription {
    const options: Options
    var replaying: bool
    var submitted: bool
    var userSeen: bool
    var skipCompletions: int
    var finished: bool
    var toolResults: map<string, string>
    var ready: Ready
    var done: Done
    var aborted: bool
    var listening: bool
    var subscribed: bool
    var queue: seq<Event>
    var work: Work
    var forwarded: seq<Update>

    function State(): Stream
      reads this
    {
      Stream(options, Phase(replaying, submitted, userSeen), Outcome(finished, ready, done), Hooks(aborted, listening, subscribed),
             skipCompletions, toolResults, queue, work, forwarded)
    }

    constructor (options: Options, alreadyAborted: bool)
      ensures State() == if alreadyAborted then Abort(New(options)) else New(options)
    {
      this.options := options;
      replaying, submitted, userSeen, skipCompletions, finished := true, false, false, 0, false;
      toolResults, ready, done := map[], Unready, Undone;
      aborted, listening, subscribed, queue, work, forwarded := false, true, true, [], Idle, [];
      new;
      if alreadyAborted {
        AbortSignal();
      }
    }

    method MarkSubmitted()
      modifies this`submitted
      ensures State() == Submit(old(State()))
    {
      submitted := true;
    }

    /** `promise.resolve` or `promise.reject`: the first of them decides. */
    method MarkReady(outcome: Ready)
      modifies this`ready
      ensures ready == if old(ready).Unready? then outcome else old(ready)
    {
      if ready.Unready? {
        ready := outcome;
      }
    }

    method MarkDone(outcome: Done)
      modifies this`done
      ensures done == if old(done).Undone? then outcome else old(done)
    {
      if done.Undone? {
        done := outcome;
      }
    }

    method AbortSignal()
      modifies this
      ensures State() == Abort(old(State()))
    {
      aborted := true;
      if listening {
        listening := false;
        if submitted || finished {
          return;
        }
        finished := true;
        MarkReady(Prepared);
        MarkDone(Stopped(Cancelled));
      }
    }

    method FailWith()
      modifies this
      ensures State() == Fail(old(State()))
    {
      finished := true;
      MarkReady(ReadyFailed);
      MarkDone(DoneFailed);
    }

    method Dispose()
      modifies this
      ensures State() == Close(old(State()))
    {
      subscribed := false;
      listening := false;
    }

    method Receive(event: Event)
      modifies this`queue
      ensures State() == old(State()).(queue := old(queue) + [event])
    {
      queue := queue + [event];
    }

    method Handle()
      requires work.Idle? && queue != []
      modifies this
      ensures State() == Take(old(State()))
    {
      var event := queue[0];
      queue := queue[1..];
      if finished {
        return;
      }
      if event.kind.Reset? {
        replaying := true;
        return;
      }
      if event.kind.ReplayEnd? {
        replaying := false;
        MarkReady(Prepared);
        if options.replay {
          finished := true;
          MarkDone(Stopped(EndTurn));
        }
        return;
      }
      if replaying && !options.replay {
        return;
      }
      if !options.replay && !submitted {
        return;
      }
      StartWork(event);
    }

    /** The same handler, past its guards. */
    method StartWork(event: Event)
      requires work.Idle?
      modifies this
      ensures State() == Start(old(State()), event)
    {
      if event.kind.Tool? {
        toolResults := toolResults - {event.kind.id};
      }
      if event.kind.ToolResult? {
        if event.kind.id in toolResults && toolResults[event.kind.id] == event.kind.result {
          return;
        }
        toolResults := toolResults[event.kind.id := event.kind.result];
      }
      if event.kind.User? {
        userSeen := true;
        if options.replay {
          work := Attaching(event);
          return;
        }
      }
      work := Forwarding(event, Updates(options, event));
    }

    method AfterAttachment()
      requires work.Attaching?
      modifies this
      ensures State() == Attached(old(State()))
    {
      work := Forwarding(work.event, Updates(options, work.event));
    }

    method SendNext()
      requires work.Forwarding?
      modifies this
      ensures State() == Forward(old(State()))
    {
      var event := work.event;
      if work.rest != [] {
        forwarded := forwarded + [work.rest[0]];
        work := work.(rest := work.rest[1..]);
        return;
      }
      if event.kind.Ask? && options.elicit && !options.replay {
        work := Eliciting(event);
        return;
      }
      Complete(event);
    }

    method AfterElicitation(answered: bool)
      requires work.Eliciting?
      modifies this
      ensures State() == Elicited(old(State()), answered)
    {
      if answered {
        skipCompletions := skipCompletions + 1;
      }
      Complete(work.event);
    }

    method Complete(event: Event)
      modifies this
      ensures State() == Tail(old(State()), event)
    {
      if event.kind.StartupFailed? {
        work := Idle;
        FailWith();
        return;
      }
      if !event.kind.TurnDone? || options.replay || !userSeen {
        work := Idle;
        return;
      }
      if skipCompletions > 0 {
        skipCompletions := skipCompletions - 1;
        work := Idle;
        return;
      }
      work := Viewing(event);
    }

    method AfterView(turn: Option<TurnStatus>)
      requires work.Viewing?
      modifies this
      ensures State() == Viewed(old(State()), turn)
    {
      work := Idle;
      if turn.None? {
        FailWith();
        return;
      }
      if turn.value.Running? {
        return;
      }
      if turn.value.Failed? {
        FailWith();
        return;
      }
      finished := true;
      MarkDone(Stopped(if aborted || turn.value.Interrupted? then Cancelled else EndTurn));
    }
  }

  // ----- all interleavings -----

  datatype Step =
    | Arrive(event: Event)
    | Begin
    | AttachmentSent
    | SendOne
    | Answer(answered: bool)
    | View(turn: Option<TurnStatus>)
    | Throw                 // the awaited call of the handler fails
    | Break                 // deadline, sign-in, connection or channel failure
    | AbortNow
    | SubmitNow
    | CloseNow

  predicate Enabled(s: Stream, step: Step) {
    match step
    case Arrive(_) => s.hooks.subscribed
    case Begin => s.work.Idle? && s.queue != []
    case AttachmentSent => s.work.Attaching?
    case SendOne => s.work.Forwarding?
    case Answer(_) => s.work.Eliciting?
    case View(_) => s.work.Viewing?
    case Throw => !s.work.Idle?
    case Break => s.hooks.subscribed
    case AbortNow => true
    case SubmitNow => true
    case CloseNow => true
  }

  function Next(s: Stream, step: Step): Stream
    requires Enabled(s, step)
  {
    match step
    case Arrive(event) => s.(queue := s.queue + [event])
    case Begin => Take(s)
    case AttachmentSent => Attached(s)
    case SendOne => Forward(s)
    case Answer(answered) => Elicited(s, answered)
    case View(turn) => Viewed(s, turn)
    case Throw => Fail(s.(work := Idle))
    case Break => Fail(s)
    case AbortNow => Abort(s)
    case SubmitNow => Submit(s)
    case CloseNow => Close(s)
  }

  /** The owner acts whenever it likes, the channel while it is registered, and whatever a handler awaits can come or fail. */
  lemma OthersAreFree(s: Stream, event: Event, answered: bool, turn: Option<TurnStatus>)
    ensures Enabled(s, AbortNow) && Enabled(s, SubmitNow) && Enabled(s, CloseNow)
    ensures s.hooks.subscribed ==> Enabled(s, Arrive(event)) && Enabled(s, Break)
    ensures s.work.Idle? ==> (Enabled(s, Begin) <==> s.queue != [])
    ensures !s.work.Idle? ==> Enabled(s, Throw)
    ensures s.work.Attaching? ==> Enabled(s, AttachmentSent)
    ensures s.work.Forwarding? ==> Enabled(s, SendOne)
    ensures s.work.Eliciting? ==> Enabled(s, Answer(answered))
    ensures s.work.Viewing? ==> Enabled(s, View(turn))
  {
  }

  predicate Inv(s: Stream) {
    && (s.outcome.finished <==> !s.outcome.done.Undone?)
    && (s.outcome.finished ==> !s.outcome.ready.Unready?)
    && (!s.phase.replaying ==> !s.outcome.ready.Unready?)
    && s.skipCompletions >= 0
    && (!s.options.replay && !s.work.Idle? ==> s.phase.submitted && !s.outcome.ready.Unready?)
    && (s.work.Viewing? ==> s.phase.userSeen && !s.options.replay && s.skipCompletions == 0)
    && (!s.work.Idle? ==> !s.work.event.kind.Reset? && !s.work.event.kind.ReplayEnd?)
    && (s.work.Forwarding? ==> IsRest(Updates(s.options, s.work.event), s.work.rest))
    && (s.work.Eliciting? ==> s.work.event.kind.Ask?)
  }

  /** What is left of some updates when the first ones have been sent. */
  predicate IsRest(updates: seq<Update>, rest: seq<Update>) {
    |rest| <= |updates| && rest == updates[|updates| - |rest|..]
  }

  /** Steps that the channel, the connection and the handlers take, as opposed to the owner of the stream. */
  predicate IsOwners(step: Step) {
    step.AbortNow? || step.SubmitNow? || step.CloseNow?
  }

  /** Only the owner of a stream aborts, submits and closes it; everybody can only settle what is still open. */
  lemma OthersOnlySettle(s: Stream, step: Step)
    requires Inv(s) && Enabled(s, step) && !IsOwners(step)
    ensures Next(s, step).hooks == s.hooks && Next(s, step).phase.submitted == s.phase.submitted
    ensures s.outcome.finished ==> Next(s, step).outcome.finished
  {
  }

  predicate Behaviour(states: seq<Stream>, steps: seq<Step>, options: Options) {
    && |states| == |steps| + 1
    && states[0] == New(options)
    && forall i {:trigger steps[i]} :: 0 <= i < |steps| ==> Enabled(states[i], steps[i]) && states[i + 1] == Next(states[i], steps[i])
  }

  lemma TakeKeepsInv(s: Stream)
    requires Inv(s) && s.work.Idle? && s.queue != []
    ensures Inv(Take(s))
  {
  }

  lemma TailKeepsInv(s: Stream)
    requires Inv(s) && !s.work.Idle?
    ensures Inv(Tail(s, s.work.event))
    ensures Inv(Tail(s.(skipCompletions := s.skipCompletions + 1), s.work.event))
  {
  }

  lemma ForwardKeepsInv(s: Stream)
    requires Inv(s) && s.work.Forwarding?
    ensures Inv(Forward(s))
  {
    TailKeepsInv(s);
  }

  lemma StepKeepsInv(s: Stream, step: Step)
    requires Inv(s) && Enabled(s, step)
    ensures Inv(Next(s, step))
  {
    match step
    case Begin => TakeKeepsInv(s);
    case SendOne => ForwardKeepsInv(s);
    case Answer(_) => TailKeepsInv(s);
    case _ =>
  }

  lemma {:induction false} BehaviourKeepsInv(states: seq<Stream>, steps: seq<Step>, options: Options, n: nat)
    requires Behaviour(states, steps, options) && n < |states|
    ensures Inv(states[n]) && states[n].options == options
  {
    if n > 0 {
      BehaviourKeepsInv(states, steps, options, n - 1);
      StepKeepsInv(states[n - 1], steps[n - 1]);
    }
  }

  predicate Later(o: Outcome, p: Outcome) {
    && (!o.done.Undone? ==> p.done == o.done && p.finished)
    && (!o.ready.Unready? ==> p.ready == o.ready)
  }

  lemma StepKeepsSettled(s: Stream, step: Step)
    requires Inv(s) && Enabled(s, step)
    ensures Later(s.outcome, Next(s, step).outcome)
  {
  }

  lemma RunKeepsSettled(states: seq<Stream>, steps: seq<Step>, options: Options, n: nat)
    requires Behaviour(states, steps, options) && n < |steps|
    ensures Later(states[n].outcome, states[n + 1].outcome)
  {
    BehaviourKeepsInv(states, steps, options, n);
    StepKeepsSettled(states[n], steps[n]);
  }

  /** `done` settles at most once, `ready` too, and `finished` holds exactly while `done` is settled. */
  lemma {:induction false} DoneSettlesOnce(states: seq<Stream>, steps: seq<Step>, options: Options, m: nat, n: nat)
    requires Behaviour(states, steps, options) && m <= n < |states|
    ensures states[n].outcome.finished <==> !states[n].outcome.done.Undone?
    ensures !states[m].outcome.done.Undone? ==> states[n].outcome.done == states[m].outcome.done && states[n].outcome.finished
    ensures !states[m].outcome.ready.Unready? ==> states[n].outcome.ready == states[m].outcome.ready
    decreases n - m
  {
    if m < n {
      DoneSettlesOnce(states, steps, options, m, n - 1);
      RunKeepsSettled(states, steps, options, n - 1);
    }
    BehaviourKeepsInv(states, steps, options, n);
  }

  lemma BegunOrAtWork(s: Stream, step: Step)
    requires Inv(s) && Enabled(s, step) && !Next(s, step).work.Idle?
    ensures s.work.Idle? ==> step.Begin? && s.queue[0] == Next(s, step).work.event && Admits(s)
    ensures !s.work.Idle? ==> Next(s, step).work.event == s.work.event
  {
  }

  /** The event of the running handler was begun at an earlier step, not finished, and while live only when submitted and not replaying. */
  lemma {:induction false} HandlerWasAdmitted(states: seq<Stream>, steps: seq<Step>, options: Options, n: nat) returns (i: nat)
    requires Behaviour(states, steps, options) && n < |states| && !states[n].work.Idle?
    ensures i < n && steps[i].Begin? && states[i].queue[0] == states[n].work.event
    ensures Admits(states[i]) && states[i].options == options
    ensures forall k :: i < k <= n ==> !states[k].work.Idle? && states[k].work.event == states[n].work.event
  {
    BehaviourKeepsInv(states, steps, options, n - 1);
    BegunOrAtWork(states[n - 1], steps[n - 1]);
    if states[n - 1].work.Idle? {
      i := n - 1;
    } else {
      i := HandlerWasAdmitted(states, steps, options, n - 1);
    }
  }

  /**
   Whatever is forwarded belongs to an event whose handling began before the stream had finished, and in a live stream only after
   the prompt was submitted and outside the replay; it is the next update of that event, one at a time and in order.
   */
  lemma ForwardsOnlyAdmitted(states: seq<Stream>, steps: seq<Step>, options: Options, n: nat)
    requires Behaviour(states, steps, options) && n < |steps| && states[n + 1].forwarded != states[n].forwarded
    ensures steps[n].SendOne? && states[n].work.Forwarding? && states[n].work.rest != []
    ensures var updates, rest := Updates(options, states[n].work.event), states[n].work.rest;
      && |rest| <= |updates| && states[n + 1].forwarded == states[n].forwarded + [updates[|updates| - |rest|]]
      && states[n + 1].work == Forwarding(states[n].work.event, updates[|updates| - |rest| + 1..])
    ensures exists i :: 0 <= i < n && steps[i].Begin? && states[i].queue[0] == states[n].work.event && Admits(states[i])
  {
    BehaviourKeepsInv(states, steps, options, n);
    OnlySendingForwards(states[n], steps[n]);
    var i := HandlerWasAdmitted(states, steps, options, n);
  }

  lemma OnlySendingForwards(s: Stream, step: Step)
    requires Inv(s) && Enabled(s, step) && Next(s, step).forwarded != s.forwarded
    ensures step.SendOne? && s.work.Forwarding? && s.work.rest != []
    ensures var updates, rest := Updates(s.options, s.work.event), s.work.rest;
      && |rest| <= |updates| && Next(s, step).forwarded == s.forwarded + [updates[|updates| - |rest|]]
      && Next(s, step).work == Forwarding(s.work.event, updates[|updates| - |rest| + 1..])
  {
  }

  /** Once finished, no event that is begun does anything at all. */
  lemma NothingAfterFinish(states: seq<Stream>, steps: seq<Step>, options: Options, m: nat, n: nat)
    requires Behaviour(states, steps, options) && m <= n < |steps| && states[m].outcome.finished && steps[n].Begin?
    ensures states[n + 1] == states[n].(queue := states[n].queue[1..])
  {
    BehaviourKeepsInv(states, steps, options, m);
    DoneSettlesOnce(states, steps, options, m, n);
  }

  /** The only step of a live stream that can settle `done` with "end_turn". */
  lemma OnlyViewsEndTurns(s: Stream, step: Step)
    requires Inv(s) && Enabled(s, step) && !s.options.replay && s.outcome.done.Undone?
    requires Next(s, step).outcome.done == Stopped(EndTurn)
    ensures step == View(Some(Completed)) && s.work.Viewing? && !s.hooks.aborted
  {
  }

  /**
   A live stream ends with "end_turn" only on a view that shows the latest turn of the primary actor completed, after a user
   event, without an abort and with no completion left to skip.
   */
  lemma {:induction false} EndTurnIsEarned(states: seq<Stream>, steps: seq<Step>, options: Options, n: nat) returns (i: nat)
    requires Behaviour(states, steps, options) && n < |states| && !options.replay && states[n].outcome.done == Stopped(EndTurn)
    ensures i < n && steps[i] == View(Some(Completed)) && states[i].outcome.done.Undone?
    ensures states[i].phase.userSeen && !states[i].hooks.aborted && states[i].phase.submitted && states[i].skipCompletions == 0
  {
    i := n - 1;
    BehaviourKeepsInv(states, steps, options, i);
    if states[i].outcome.done.Undone? {
      OnlyViewsEndTurns(states[i], steps[i]);
    } else {
      DoneSettlesOnce(states, steps, options, i, n);
      i := EndTurnIsEarned(states, steps, options, i);
    }
  }

  /** A user event was begun before `userSeen` holds. */
  lemma {:induction false} UserWasSeen(states: seq<Stream>, steps: seq<Step>, options: Options, n: nat) returns (i: nat)
    requires Behaviour(states, steps, options) && n < |states| && states[n].phase.userSeen
    ensures i < n && steps[i].Begin? && states[i].queue[0].kind.User? && Admits(states[i])
  {
    BehaviourKeepsInv(states, steps, options, n - 1);
    if states[n - 1].phase.userSeen {
      i := UserWasSeen(states, steps, options, n - 1);
    } else {
      i := n - 1;
    }
  }

  // ----- how a stream ends -----

  /** The handler has sent its last update. */
  predicate SendsNoMore(s: Stream, step: Step) {
    step.SendOne? && s.work.Forwarding? && s.work.rest == []
  }

  /** What makes a stream fail: its connection, its handler, the view of a failed or missing turn, or a host that did not start. */
  predicate Fails(s: Stream, step: Step) {
    || step.Break? || step.Throw? || step == View(None) || step == View(Some(Failed))
    || (SendsNoMore(s, step) && s.work.event.kind.StartupFailed?)
  }

  /** The replay is over. */
  predicate EndsReplay(s: Stream, step: Step) {
    step.Begin? && s.queue != [] && s.queue[0].kind.ReplayEnd?
  }

  /** What makes a stream that has not ended end like this. */
  predicate EndsWith(s: Stream, step: Step, done: Done) {
    match done
    case Undone => false
    case DoneFailed => Fails(s, step)
    case Stopped(EndTurn) =>
      if s.options.replay then EndsReplay(s, step) else step == View(Some(Completed)) && !s.hooks.aborted
    case Stopped(Cancelled) =>
      || (step.AbortNow? && s.hooks.listening && !s.phase.submitted)
      || step == View(Some(Interrupted))
      || (step == View(Some(Completed)) && s.hooks.aborted)
  }

  lemma StepEndsWith(s: Stream, step: Step, done: Done)
    requires Inv(s) && Enabled(s, step) && s.outcome.done.Undone? && !done.Undone?
    ensures Next(s, step).outcome.done == done <==> EndsWith(s, step, done)
  {
    match step
    case View(turn) =>
      assert turn.None? || turn.value.Running? || turn.value.Completed? || turn.value.Failed? || turn.value.Interrupted?;
    case Begin =>
    case SendOne =>
    case _ =>
  }

  /** While a stream has not ended, it ends with its next step, and how, exactly as that step says. */
  lemma EndIsExact(states: seq<Stream>, steps: seq<Step>, options: Options, n: nat, done: Done)
    requires Behaviour(states, steps, options) && n < |steps| && states[n].outcome.done.Undone? && !done.Undone?
    ensures states[n + 1].outcome.done == done <==> EndsWith(states[n], steps[n], done)
  {
    BehaviourKeepsInv(states, steps, options, n);
    StepEndsWith(states[n], steps[n], done);
  }

  /** Every end goes back to the step that brought it about. */
  lemma {:induction false} EndGoesBack(states: seq<Stream>, steps: seq<Step>, options: Options, n: nat) returns (i: nat)
    requires Behaviour(states, steps, options) && n < |states| && !states[n].outcome.done.Undone?
    ensures i < n && states[i].outcome.done.Undone? && states[i].options == options
    ensures EndsWith(states[i], steps[i], states[n].outcome.done)
  {
    i := n - 1;
    BehaviourKeepsInv(states, steps, options, i);
    if states[i].outcome.done.Undone? {
      EndIsExact(states, steps, options, i, states[n].outcome.done);
    } else {
      DoneSettlesOnce(states, steps, options, i, n);
      i := EndGoesBack(states, steps, options, i);
    }
  }

  lemma StepIsReady(s: Stream, step: Step)
    requires Inv(s) && Enabled(s, step) && s.outcome.ready.Unready?
    ensures Next(s, step).outcome.ready.Prepared? <==>
      EndsReplay(s, step) || (step.AbortNow? && s.hooks.listening && !s.phase.submitted)
    ensures Next(s, step).outcome.ready.ReadyFailed? <==> Fails(s, step)
  {
  }

  /** A stream is ready when the replay is over or when it is cancelled before the prompt was submitted; a failure rejects it. */
  lemma ReadyIsExact(states: seq<Stream>, steps: seq<Step>, options: Options, n: nat)
    requires Behaviour(states, steps, options) && n < |steps| && states[n].outcome.ready.Unready?
    ensures states[n + 1].outcome.ready.Prepared? <==>
      EndsReplay(states[n], steps[n]) || (steps[n].AbortNow? && states[n].hooks.listening && !states[n].phase.submitted)
    ensures states[n + 1].outcome.ready.ReadyFailed? <==> Fails(states[n], steps[n])
  {
    BehaviourKeepsInv(states, steps, options, n);
    StepIsReady(states[n], steps[n]);
  }

  // ----- flags and the queue -----

  /** What the owner of a stream has done so far is what its flags say. */
  lemma {:induction false} FlagsAreExact(states: seq<Stream>, steps: seq<Step>, options: Options, n: nat)
    requires Behaviour(states, steps, options) && n < |states|
    ensures states[n].phase.submitted <==> SubmitNow in steps[..n]
    ensures states[n].hooks.aborted <==> AbortNow in steps[..n]
    ensures states[n].hooks.subscribed <==> CloseNow !in steps[..n]
    ensures states[n].hooks.listening <==> AbortNow !in steps[..n] && CloseNow !in steps[..n]
  {
    if n > 0 {
      FlagsAreExact(states, steps, options, n - 1);
      TakeOneMore(steps, n - 1);
      OwnerSetsFlags(states[n - 1], steps[n - 1]);
    }
  }

  lemma TakeOneMore(steps: seq<Step>, n: nat)
    requires n < |steps|
    ensures steps[..n + 1] == steps[..n] + [steps[n]]
  {
  }

  lemma OwnerSetsFlags(s: Stream, step: Step)
    requires Enabled(s, step)
    ensures Next(s, step).phase.submitted <==> s.phase.submitted || step == SubmitNow
    ensures Next(s, step).hooks.aborted <==> s.hooks.aborted || step == AbortNow
    ensures Next(s, step).hooks.subscribed <==> s.hooks.subscribed && step != CloseNow
    ensures Next(s, step).hooks.listening <==> s.hooks.listening && step != CloseNow && step != AbortNow
  {
  }

  function Arrived(steps: seq<Step>, n: nat): seq<Event>
    requires n <= |steps|
  {
    if n == 0 then [] else Arrived(steps, n - 1) + (if steps[n - 1].Arrive? then [steps[n - 1].event] else [])
  }

  function Begun(states: seq<Stream>, steps: seq<Step>, n: nat): seq<Event>
    requires n <= |steps| && |states| == |steps| + 1
  {
    if n == 0 then []
    else
      var begins := steps[n - 1].Begin? && states[n - 1].queue != [];
      Begun(states, steps, n - 1) + (if begins then [states[n - 1].queue[0]] else [])
  }

  /** Events are begun in the order in which they arrived, and none is lost. */
  lemma {:induction false} EventsInOrder(states: seq<Stream>, steps: seq<Step>, options: Options, n: nat)
    requires Behaviour(states, steps, options) && n < |states|
    ensures Arrived(steps, n) == Begun(states, steps, n) + states[n].queue
  {
    if n > 0 {
      EventsInOrder(states, steps, options, n - 1);
      QueueMoves(states[n - 1], steps[n - 1], Begun(states, steps, n - 1));
    }
  }

  lemma QueueMoves(s: Stream, step: Step, begun: seq<Event>)
    requires Enabled(s, step)
    ensures begun + s.queue + (if step.Arrive? then [step.event] else [])
      == begun + (if step.Begin? then [s.queue[0]] else []) + Next(s, step).queue
  {
    if step.Begin? {
      assert s.queue == [s.queue[0]] + s.queue[1..];
    }
  }

  /** Whether a replay goes on after a step. */
  predicate ReplayGoesOn(before: bool, s: Stream, step: Step) {
    if step.Begin? && s.queue != [] && s.outcome.done.Undone?
    then s.queue[0].kind.Reset? || (before && !s.queue[0].kind.ReplayEnd?)
    else before
  }

  /** Of the events that began or ended a replay, before the stream ended, the last one was not the end of one. */
  predicate InReplay(states: seq<Stream>, steps: seq<Step>, n: nat)
    requires n <= |steps| && |states| == |steps| + 1
  {
    n == 0 || ReplayGoesOn(InReplay(states, steps, n - 1), states[n - 1], steps[n - 1])
  }

  lemma StepReplays(s: Stream, step: Step)
    requires Inv(s) && Enabled(s, step)
    ensures Next(s, step).phase.replaying == ReplayGoesOn(s.phase.replaying, s, step)
  {
  }

  lemma {:induction false} ReplayingIsExact(states: seq<Stream>, steps: seq<Step>, options: Options, n: nat)
    requires Behaviour(states, steps, options) && n < |states|
    ensures states[n].phase.replaying == InReplay(states, steps, n)
  {
    if n > 0 {
      ReplayingIsExact(states, steps, options, n - 1);
      BehaviourKeepsInv(states, steps, options, n - 1);
      StepReplays(states[n - 1], steps[n - 1]);
    }
  }

  // ----- one handler from its first to its last piece -----

  /** What is to be forwarded of an event: nothing of a question that is put to the user, everything of the others. */
  predicate IsForwardedOf(options: Options, event: Event, updates: seq<Update>) {
    if event.kind.Ask? && options.elicit && !options.replay then updates == [] else updates == event.updates
  }

  /** The result was the last thing shown of its tool. */
  ghost predicate ShownLast(states: seq<Stream>, steps: seq<Step>, n: nat, kind: Kind)
    requires n <= |steps| && |states| == |steps| + 1
  {
    kind.ToolResult?
    && exists i :: 0 <= i < n && PassesResult(states, steps, i, kind.id, kind.result) && Untouched(states, steps, i + 1, n, kind.id)
  }

  lemma StepOfResults(s: Stream, step: Step, id: string, result: string)
    requires Enabled(s, step)
    requires id in Next(s, step).toolResults && Next(s, step).toolResults[id] == result
    ensures || (step.Begin? && s.queue[0].kind == ToolResult(id, result) && !Next(s, step).work.Idle?)
            || (&& id in s.toolResults && s.toolResults[id] == result
                && !(step.Begin? && s.queue[0].kind == Tool(id) && !Next(s, step).work.Idle?)
                && !(step.Begin? && s.queue[0].kind.ToolResult? && s.queue[0].kind.id == id && !Next(s, step).work.Idle?))
  {
  }

  /** What is remembered of a tool is the last result that was shown. */
  lemma {:induction false} RememberedWasShown(states: seq<Stream>, steps: seq<Step>, options: Options, n: nat, id: string) returns (i: nat)
    requires Behaviour(states, steps, options) && n < |states| && id in states[n].toolResults
    ensures i < n && PassesResult(states, steps, i, id, states[n].toolResults[id]) && Untouched(states, steps, i + 1, n, id)
  {
    var k := n - 1;
    StepOfResults(states[k], steps[k], id, states[n].toolResults[id]);
    if PassesResult(states, steps, k, id, states[n].toolResults[id]) {
      i := k;
    } else {
      i := RememberedWasShown(states, steps, options, k, id);
      assert !Touches(states, steps, k, id);
    }
  }

  lemma BeginStarts(s: Stream)
    requires Inv(s) && Enabled(s, Begin)
    ensures var event, t := s.queue[0], Next(s, Begin);
      && t.forwarded == s.forwarded
      && (t.work.Idle? <==> event.kind.Reset? || event.kind.ReplayEnd? || !Admits(s) || Repeats(s.toolResults, event.kind))
      && (!t.work.Idle? ==> t.work.event == event && (t.work.Attaching? || t.work.Forwarding?))
      && (t.work.Forwarding? ==> IsForwardedOf(s.options, event, t.work.rest))
      && (t.work.Attaching? <==> !t.work.Idle? && event.kind.User? && s.options.replay)
  {
  }

  /**
   The handler of an event does something exactly if the stream has not ended, a live prompt is submitted and outside the replay, and
   the event is no result that was just shown.
   */
  lemma HandlerStarts(states: seq<Stream>, steps: seq<Step>, options: Options, n: nat)
    requires Behaviour(states, steps, options) && n < |steps| && steps[n].Begin?
    requires var kind := states[n].queue[0].kind; !kind.Reset? && !kind.ReplayEnd?
    ensures !states[n + 1].work.Idle? <==>
      && states[n].outcome.done.Undone?
      && (options.replay || (SubmitNow in steps[..n] && !InReplay(states, steps, n)))
      && !ShownLast(states, steps, n, states[n].queue[0].kind)
  {
    BehaviourKeepsInv(states, steps, options, n);
    FlagsAreExact(states, steps, options, n);
    ReplayingIsExact(states, steps, options, n);
    BeginStarts(states[n]);
    var kind := states[n].queue[0].kind;
    if Repeats(states[n].toolResults, kind) {
      var i := RememberedWasShown(states, steps, options, n, kind.id);
    } else if ShownLast(states, steps, n, kind) {
      var i :| 0 <= i < n && PassesResult(states, steps, i, kind.id, kind.result) && Untouched(states, steps, i + 1, n, kind.id);
      ResultIsRemembered(states, steps, options, i, n, kind.id, kind.result);
    }
  }

  /** What is still to be forwarded of the event at work. */
  predicate Awaits(s: Stream, event: Event, rest: seq<Update>) {
    match s.work
    case Idle => rest == []
    case Attaching(e) => e == event && IsForwardedOf(s.options, event, rest)
    case Forwarding(e, r) => e == event && rest == r
    case Eliciting(e) => e == event && rest == []
    case Viewing(e) => e == event && rest == []
  }

  lemma TailForwards(s: Stream, event: Event)
    ensures Tail(s, event).forwarded == s.forwarded && Tail(s, event).options == s.options
    ensures Tail(s, event).work == Idle || Tail(s, event).work == Viewing(event)
  {
  }

  lemma SendForwards(s: Stream, event: Event, rest: seq<Update>) returns (left: seq<Update>)
    requires s.work == Forwarding(event, rest)
    ensures Awaits(Forward(s), event, left) && Forward(s).forwarded + left == s.forwarded + rest
    ensures Forward(s).options == s.options
  {
    if rest != [] {
      left := rest[1..];
      assert s.forwarded + [rest[0]] + rest[1..] == s.forwarded + rest;
    } else {
      left := [];
      TailForwards(s, event);
    }
  }

  lemma AttachmentForwards(s: Stream, event: Event, rest: seq<Update>)
    requires s.work.Attaching? && Awaits(s, event, rest)
    ensures Attached(s).work == Forwarding(event, rest) && Attached(s).forwarded == s.forwarded && Attached(s).options == s.options
  {
  }

  /** Nothing but the steps of the running handler touches what it has to forward. */
  lemma OthersLeaveHandler(s: Stream, step: Step)
    requires Enabled(s, step) && !s.work.Idle?
    requires !step.SendOne? && !step.AttachmentSent? && !step.Answer? && !step.View? && !step.Throw?
    ensures Next(s, step).work == s.work && Next(s, step).forwarded == s.forwarded && Next(s, step).options == s.options
  {
  }

  lemma StepForwards(s: Stream, step: Step, event: Event, rest: seq<Update>) returns (left: seq<Update>)
    requires Inv(s) && Enabled(s, step) && !step.Throw? && !s.work.Idle? && Awaits(s, event, rest)
    ensures Awaits(Next(s, step), event, left) && Next(s, step).forwarded + left == s.forwarded + rest
    ensures Next(s, step).options == s.options
  {
    left := rest;
    match step
    case SendOne => left := SendForwards(s, event, rest);
    case AttachmentSent => AttachmentForwards(s, event, rest);
    case Answer(answered) => TailForwards(s.(skipCompletions := s.skipCompletions + if answered then 1 else 0), event);
    case View(_) =>
    case _ => OthersLeaveHandler(s, step);
  }

  /** At work on the event that was begun at step i, without a failure of its own so far. */
  predicate AtWork(states: seq<Stream>, steps: seq<Step>, i: nat, n: nat)
    requires i < n <= |steps| && |states| == |steps| + 1
  {
    steps[i].Begin? && forall k :: i < k < n ==> !states[k].work.Idle? && !steps[k].Throw?
  }

  lemma RunForwards(states: seq<Stream>, steps: seq<Step>, options: Options, k: nat, event: Event, rest: seq<Update>)
    returns (left: seq<Update>)
    requires Behaviour(states, steps, options) && k < |steps| && !steps[k].Throw? && !states[k].work.Idle?
    requires Awaits(states[k], event, rest)
    ensures Awaits(states[k + 1], event, left) && states[k + 1].forwarded + left == states[k].forwarded + rest
  {
    BehaviourKeepsInv(states, steps, options, k);
    left := StepForwards(states[k], steps[k], event, rest);
  }

  lemma BeginAwaits(states: seq<Stream>, steps: seq<Step>, options: Options, i: nat) returns (updates: seq<Update>)
    requires Behaviour(states, steps, options) && i < |steps| && steps[i].Begin? && !states[i + 1].work.Idle?
    ensures IsForwardedOf(options, states[i].queue[0], updates) && Awaits(states[i + 1], states[i].queue[0], updates)
    ensures states[i + 1].forwarded == states[i].forwarded
  {
    BehaviourKeepsInv(states, steps, options, i);
    BehaviourKeepsInv(states, steps, options, i + 1);
    BeginStarts(states[i]);
    var event := states[i].queue[0];
    updates := if event.kind.Ask? && options.elicit && !options.replay then [] else event.updates;
  }

  lemma {:induction false} ForwardsRest(states: seq<Stream>, steps: seq<Step>, options: Options, i: nat, n: nat)
    returns (updates: seq<Update>, rest: seq<Update>)
    requires Behaviour(states, steps, options) && i < n <= |steps| && AtWork(states, steps, i, n) && !states[i + 1].work.Idle?
    ensures IsForwardedOf(options, states[i].queue[0], updates)
    ensures Awaits(states[n], states[i].queue[0], rest) && states[n].forwarded + rest == states[i].forwarded + updates
    decreases n
  {
    if n == i + 1 {
      updates := BeginAwaits(states, steps, options, i);
      rest := updates;
    } else {
      updates, rest := ForwardsRest(states, steps, options, i, n - 1);
      assert !states[n - 1].work.Idle? && !steps[n - 1].Throw?;
      rest := RunForwards(states, steps, options, n - 1, states[i].queue[0], rest);
    }
  }

  /**
   A handler that comes to its end without a failure has forwarded all that there is to forward of its event, in order, and nothing
   else.
   */
  lemma HandlerForwardsAll(states: seq<Stream>, steps: seq<Step>, options: Options, i: nat, n: nat) returns (updates: seq<Update>)
    requires Behaviour(states, steps, options) && i < n <= |steps| && AtWork(states, steps, i, n)
    requires !states[i + 1].work.Idle? && states[n].work.Idle?
    ensures IsForwardedOf(options, states[i].queue[0], updates) && states[n].forwarded == states[i].forwarded + updates
  {
    var rest;
    updates, rest := ForwardsRest(states, steps, options, i, n);
    assert states[n].forwarded + [] == states[n].forwarded;
  }

  /** A handler that fails is over: the stream goes on with nothing but the failure, and the next event is taken. */
  lemma FailedHandlerIsOver(states: seq<Stream>, steps: seq<Step>, options: Options, n: nat)
    requires Behaviour(states, steps, options) && n < |steps| && steps[n].Throw?
    ensures states[n + 1].work.Idle? && !states[n + 1].outcome.done.Undone?
    ensures states[n + 1].queue == states[n].queue && states[n + 1].forwarded == states[n].forwarded
    ensures states[n + 1].phase == states[n].phase && states[n + 1].toolResults == states[n].toolResults
  {
    BehaviourKeepsInv(states, steps, options, n);
  }

  /**
   After the last update the question of an ask action is put to the user, if that is wanted; and the end of a turn asks for a view,
   if a user event was seen in the live stream and no completion is to be skipped.
   */
  lemma HandlerGoesOn(states: seq<Stream>, steps: seq<Step>, options: Options, n: nat)
    requires Behaviour(states, steps, options) && n < |steps| && SendsNoMore(states[n], steps[n])
    ensures var event := states[n].work.event;
      && (states[n + 1].work == Eliciting(event) <==> event.kind.Ask? && options.elicit && !options.replay)
      && (states[n + 1].work == Viewing(event) <==>
            && event.kind.TurnDone? && !options.replay
            && UserBegun(states, steps, n) && Answered(states, steps, n) == Skipped(states, steps, n))
      && (!states[n + 1].work.Eliciting? && !states[n + 1].work.Viewing? ==> states[n + 1].work.Idle?)
  {
    BehaviourKeepsInv(states, steps, options, n);
    ElicitationsBalance(states, steps, options, n);
    UserSeenIsExact(states, steps, options, n);
  }

  /** A user event is begun and handled. */
  predicate BeginsUser(s: Stream, step: Step, t: Stream) {
    step.Begin? && s.queue != [] && s.queue[0].kind.User? && !t.work.Idle?
  }

  predicate UserBegun(states: seq<Stream>, steps: seq<Step>, n: nat)
    requires n <= |steps| && |states| == |steps| + 1
  {
    exists i {:trigger steps[i]} :: 0 <= i < n && BeginsUser(states[i], steps[i], states[i + 1])
  }

  lemma UserBegunMore(states: seq<Stream>, steps: seq<Step>, n: nat)
    requires n < |steps| && |states| == |steps| + 1
    ensures UserBegun(states, steps, n + 1) <==> UserBegun(states, steps, n) || BeginsUser(states[n], steps[n], states[n + 1])
  {
  }

  lemma StepSeesUser(s: Stream, step: Step)
    requires Inv(s) && Enabled(s, step)
    ensures Next(s, step).phase.userSeen <==> s.phase.userSeen || BeginsUser(s, step, Next(s, step))
  {
  }

  lemma RunSeesUser(states: seq<Stream>, steps: seq<Step>, options: Options, n: nat)
    requires Behaviour(states, steps, options) && n < |steps|
    ensures states[n + 1].phase.userSeen <==> states[n].phase.userSeen || BeginsUser(states[n], steps[n], states[n + 1])
  {
    BehaviourKeepsInv(states, steps, options, n);
    StepSeesUser(states[n], steps[n]);
  }

  lemma {:induction false} UserSeenIsExact(states: seq<Stream>, steps: seq<Step>, options: Options, n: nat)
    requires Behaviour(states, steps, options) && n < |states|
    ensures states[n].phase.userSeen <==> UserBegun(states, steps, n)
  {
    if n > 0 {
      UserSeenIsExact(states, steps, options, n - 1);
      RunSeesUser(states, steps, options, n - 1);
      UserBegunMore(states, steps, n - 1);
    }
  }

  // ----- elicitations -----

  predicate AnsweredAt(states: seq<Stream>, steps: seq<Step>, i: nat)
    requires i < |steps|
  {
    steps[i] == Answer(true)
  }

  /** The end of a turn was passed over without asking for a view. */
  predicate SkippedAt(states: seq<Stream>, steps: seq<Step>, i: nat)
    requires i < |steps| && |states| == |steps| + 1
  {
    steps[i].SendOne? && states[i].work.Forwarding? && states[i].work.rest == [] && states[i].work.event.kind.TurnDone?
    && !states[i].options.replay && states[i].phase.userSeen && states[i + 1].work.Idle?
  }

  function Answered(states: seq<Stream>, steps: seq<Step>, n: nat): nat
    requires n <= |steps|
  {
    if n == 0 then 0 else Answered(states, steps, n - 1) + (if AnsweredAt(states, steps, n - 1) then 1 else 0)
  }

  function Skipped(states: seq<Stream>, steps: seq<Step>, n: nat): nat
    requires n <= |steps| && |states| == |steps| + 1
  {
    if n == 0 then 0 else Skipped(states, steps, n - 1) + (if SkippedAt(states, steps, n - 1) then 1 else 0)
  }

  lemma StepBalances(s: Stream, step: Step)
    requires Inv(s) && Enabled(s, step)
    ensures Next(s, step).skipCompletions == s.skipCompletions
      + (if step == Answer(true) then 1 else 0)
      - (if step.SendOne? && s.work.Forwarding? && s.work.rest == [] && s.work.event.kind.TurnDone? && !s.options.replay
            && s.phase.userSeen && Next(s, step).work.Idle? then 1 else 0)
  {
  }

  lemma RunBalances(states: seq<Stream>, steps: seq<Step>, options: Options, n: nat)
    requires Behaviour(states, steps, options) && n < |steps|
    ensures states[n + 1].skipCompletions == states[n].skipCompletions
      + (if AnsweredAt(states, steps, n) then 1 else 0) - (if SkippedAt(states, steps, n) then 1 else 0)
  {
    BehaviourKeepsInv(states, steps, options, n);
    StepBalances(states[n], steps[n]);
  }

  /** Every answered elicitation stands for exactly one completion, already skipped or still to be skipped. */
  lemma {:induction false} ElicitationsBalance(states: seq<Stream>, steps: seq<Step>, options: Options, n: nat)
    requires Behaviour(states, steps, options) && n < |states|
    ensures Answered(states, steps, n) == Skipped(states, steps, n) + states[n].skipCompletions
    ensures states[n].skipCompletions >= 0
  {
    BehaviourKeepsInv(states, steps, options, n);
    if n > 0 {
      ElicitationsBalance(states, steps, options, n - 1);
      RunBalances(states, steps, options, n - 1);
    }
  }

  // ----- tool results -----

  /** The handler of a tool's result gets as far as forwarding it. */
  predicate PassesResult(states: seq<Stream>, steps: seq<Step>, i: nat, id: string, result: string)
    requires i < |steps| && |states| == |steps| + 1
  {
    steps[i].Begin? && states[i].queue != [] && states[i].queue[0].kind == ToolResult(id, result) && !states[i + 1].work.Idle?
  }

  /** The handler of the tool itself or of a result of it does. */
  predicate Touches(states: seq<Stream>, steps: seq<Step>, i: nat, id: string)
    requires i < |steps| && |states| == |steps| + 1
  {
    steps[i].Begin? && states[i].queue != [] && !states[i + 1].work.Idle?
    && (states[i].queue[0].kind == Tool(id) || (states[i].queue[0].kind.ToolResult? && states[i].queue[0].kind.id == id))
  }

  /** Between two steps nothing was forwarded about the tool. */
  predicate Untouched(states: seq<Stream>, steps: seq<Step>, i: nat, j: nat, id: string)
    requires i <= j <= |steps| && |states| == |steps| + 1
  {
    forall k :: i <= k < j ==> !Touches(states, steps, k, id)
  }

  lemma ResultIsKept(s: Stream, step: Step, id: string, result: string)
    requires Enabled(s, step) && id in s.toolResults && s.toolResults[id] == result
    requires step.Begin? && !Next(s, step).work.Idle? ==>
      s.queue[0].kind != Tool(id) && !(s.queue[0].kind.ToolResult? && s.queue[0].kind.id == id)
    ensures id in Next(s, step).toolResults && Next(s, step).toolResults[id] == result
  {
  }

  lemma ResultIsNoted(s: Stream, id: string, result: string)
    requires Enabled(s, Begin) && s.queue[0].kind == ToolResult(id, result) && !Next(s, Begin).work.Idle?
    ensures id in Next(s, Begin).toolResults && Next(s, Begin).toolResults[id] == result
  {
  }

  lemma {:induction false} ResultIsRemembered(
      states: seq<Stream>, steps: seq<Step>, options: Options, i: nat, j: nat, id: string, result: string)
    requires Behaviour(states, steps, options) && i < j <= |steps|
    requires PassesResult(states, steps, i, id, result) && Untouched(states, steps, i + 1, j, id)
    ensures id in states[j].toolResults && states[j].toolResults[id] == result
    decreases j
  {
    if i + 1 == j {
      ResultIsNoted(states[i], id, result);
    } else {
      var k := j - 1;
      ResultIsRemembered(states, steps, options, i, k, id, result);
      assert !Touches(states, steps, k, id);
      ResultIsKept(states[k], steps[k], id, result);
    }
  }

  /** Two consecutive forwarded results of one tool differ, unless the tool was shown again between them. */
  lemma ConsecutiveResultsDiffer(
      states: seq<Stream>, steps: seq<Step>, options: Options, i: nat, j: nat, id: string, first: string, second: string)
    requires Behaviour(states, steps, options) && i < j < |steps|
    requires PassesResult(states, steps, i, id, first) && PassesResult(states, steps, j, id, second)
    requires Untouched(states, steps, i + 1, j, id)
    ensures first != second
  {
    ResultIsRemembered(states, steps, options, i, j, id, first);
  }
}
