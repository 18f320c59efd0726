/**
 scripts/agent/agent-cli.ts: `watchRun`, a wake-up protocol with a dirty flag, a failure and one parked resolver, together with the
 one follower (`follow` and `followSent`) that waits on it. Callbacks and the pieces of the follower between two awaits are the steps.
 */
module RunWatch {
  import opened Wrappers

  /** The three variables of `watchRun`; `wake` says whether a resolver is parked. */
  datatype Watch = Watch(dirty: bool, failure: Option<string>, wake: bool)

  /** What one pass of the loop in `changed` does. */
  datatype Check = Park | Throw(message: string) | Go

  function OnEventOf(watch: Watch): Watch {
    Watch(true, watch.failure, false)
  }

  function OnFailureOf(watch: Watch, message: string): Watch {
    Watch(watch.dirty, if watch.failure.Some? then watch.failure else Some(message), false)
  }

  function CheckOf(watch: Watch): Check {
    if !watch.dirty && watch.failure.None? then Park
    else if watch.failure.Some? then Throw(watch.failure.value)
    else Go
  }

  function AfterCheck(watch: Watch): Watch {
    match CheckOf(watch)
    case Park => watch.(wake := true)
    case Throw(_) => watch
    case Go => watch.(dirty := false)
  }

  class RunWatcher {
    var dirty: bool
    var failure: Option<string>
    var wake: bool

    function State(): Watch
      reads this
    {
      Watch(dirty, failure, wake)
    }

    constructor ()
      ensures State() == Watch(false, None, false)
    {
      dirty, failure, wake := false, None, false;
    }

    /** Takes the parked resolver, if any, and calls it. */
    method Signal() returns (resolved: bool)
      modifies this`wake
      ensures resolved == old(wake) && !wake
    {
      var waiting := wake;
      wake := false;
      resolved := waiting;
    }

    method OnEvent() returns (resolved: bool)
      modifies this
      ensures State() == OnEventOf(old(State())) && resolved == old(wake)
    {
      dirty := true;
      resolved := Signal();
    }

    method OnFailure(message: string) returns (resolved: bool)
      modifies this
      ensures State() == OnFailureOf(old(State()), message) && resolved == old(wake)
    {
      if failure.None? {
        failure := Some(message);
      }
      resolved := Signal();
    }

    method Changed() returns (check: Check)
      modifies this
      ensures State() == AfterCheck(old(State())) && check == CheckOf(old(State()))
    {
      if !dirty && failure.None? {
        wake := true;
        return Park;
      }
      if failure.Some? {
        return Throw(failure.value);
      }
      dirty := false;
      check := Go;
    }
  }

  // ----- the follower -----

  /** Before: `follow` up to sending the input. After: `followSent`. */
  datatype Phase = Before | After

  datatype Follower =
    | Checking      // at the head of the loop in `changed`
    | Parked        // awaiting a promise that is not resolved
    | Woken         // that promise is resolved, the loop has not gone on yet
    | Ready         // about to request a view
    | Requesting    // a view is requested
    | Sending       // the input is being sent
    | Ended         // the view showed the end of the turn
    | Thrown(message: string)

  /**
   `delivered` counts the events reported so far, `requested` those reported before the latest view was requested, `viewed` those the
   latest view reflects; `failures` lists the failure callbacks.
   */
  datatype System = System(watch: Watch, follower: Follower, phase: Phase,
                           delivered: nat, requested: nat, viewed: nat, failures: seq<string>)

  const INITIAL := System(Watch(false, None, false), Checking, Before, 0, 0, 0, [])

  datatype Step =
    | Event
    | Fails(message: string)
    | RunCheck
    | Request
    | Answer(reflects: nat, ended: bool)
    | CallFails(message: string)
    | Sent

  predicate Enabled(s: System, step: Step) {
    match step
    case Event => true
    case Fails(_) => true
    case RunCheck => s.follower.Checking? || s.follower.Woken?
    case Request => s.follower.Ready?
    case Answer(reflects, ended) => s.follower.Requesting? && s.requested <= reflects <= s.delivered
    case CallFails(_) => s.follower.Requesting? || s.follower.Sending?
    case Sent => s.follower.Sending?
  }

  predicate IsFollowerStep(step: Step) {
    !step.Event? && !step.Fails?
  }

  function Resolve(follower: Follower, resolved: bool): Follower {
    if resolved then Woken else follower
  }

  function Next(s: System, step: Step): System
    requires Enabled(s, step)
  {
    match step
    case Event =>
      s.(watch := OnEventOf(s.watch), follower := Resolve(s.follower, s.watch.wake), delivered := s.delivered + 1)
    case Fails(message) =>
      s.(watch := OnFailureOf(s.watch, message), follower := Resolve(s.follower, s.watch.wake), failures := s.failures + [message])
    case RunCheck =>
      var follower := match CheckOf(s.watch) case Park => Parked case Throw(message) => Thrown(message) case Go => Ready;
      s.(watch := AfterCheck(s.watch), follower := follower)
    case Request =>
      s.(follower := Requesting, requested := s.delivered)
    case Answer(reflects, ended) =>
      var follower := if s.phase == Before then Sending else if ended then Ended else Checking;
      s.(follower := follower, viewed := reflects)
    case CallFails(message) =>
      s.(follower := Thrown(message))
    case Sent =>
      s.(follower := Ready, phase := After)
  }

  /** Events and failures are reported whenever they like, every call can fail, and a view reflects any of the events since its request. */
  lemma OthersAreFree(s: System, message: string, reflects: nat, ended: bool)
    ensures Enabled(s, Event) && Enabled(s, Fails(message))
    ensures s.follower.Requesting? || s.follower.Sending? ==> Enabled(s, CallFails(message))
    ensures s.follower.Requesting? && s.requested <= reflects <= s.delivered ==> Enabled(s, Answer(reflects, ended))
  {
  }

  // ----- what every step keeps -----

  predicate Inv(s: System) {
    && (s.watch.wake <==> s.follower.Parked?)
    && (s.follower.Parked? ==> !s.watch.dirty && s.watch.failure.None?)
    && (s.follower.Woken? ==> s.watch.dirty || s.watch.failure.Some?)
    && s.viewed <= s.delivered && s.requested <= s.delivered
    && (!s.follower.Requesting? && !s.follower.Thrown? ==> s.requested <= s.viewed)
    && (!s.watch.dirty && !s.follower.Ready? ==> s.requested == s.delivered)
    && s.watch.failure == (if s.failures == [] then None else Some(s.failures[0]))
  }

  lemma StepKeepsInv(s: System, step: Step)
    requires Inv(s) && Enabled(s, step)
    ensures Inv(Next(s, step))
  {
  }

  /** Every state any interleaving of callbacks and follower steps can reach. */
  predicate Behaviour(states: seq<System>, steps: seq<Step>) {
    && |states| == |steps| + 1
    && states[0] == INITIAL
    && forall i :: 0 <= i < |steps| ==> Enabled(states[i], steps[i]) && states[i + 1] == Next(states[i], steps[i])
  }

  lemma {:induction false} BehaviourKeepsInv(states: seq<System>, steps: seq<Step>, n: nat)
    requires Behaviour(states, steps) && n < |states|
    ensures Inv(states[n])
  {
    if n > 0 {
      BehaviourKeepsInv(states, steps, n - 1);
      StepKeepsInv(states[n - 1], steps[n - 1]);
    }
  }

  /**
   No lost wake-up: whenever the follower is parked on an unresolved promise, nothing is pending, nothing has failed, its resolver is
   registered, and the last view it has seen was requested after the last event and reflects every event.
   */
  lemma NoLostWakeUp(states: seq<System>, steps: seq<Step>, n: nat)
    requires Behaviour(states, steps) && n < |states| && states[n].follower.Parked?
    ensures !states[n].watch.dirty && states[n].watch.failure.None? && states[n].watch.wake
    ensures states[n].requested == states[n].viewed == states[n].delivered
    ensures states[n].failures == []
  {
    BehaviourKeepsInv(states, steps, n);
  }

  /** Something was reported since the follower last went on from its check. */
  predicate HasNews(states: seq<System>, steps: seq<Step>, n: nat)
    requires n <= |steps| && |states| == |steps| + 1
  {
    n > 0 && (steps[n - 1].Event? || (HasNews(states, steps, n - 1) && !(steps[n - 1].RunCheck? && states[n].follower.Ready?)))
  }

  lemma {:induction false} DirtyIsNews(states: seq<System>, steps: seq<Step>, n: nat)
    requires Behaviour(states, steps) && n < |states|
    ensures states[n].watch.dirty == HasNews(states, steps, n)
  {
    if n > 0 {
      DirtyIsNews(states, steps, n - 1);
    }
  }

  /** A check throws the first failure, goes on if there is news, and parks the follower if there is neither. */
  lemma CheckIsExact(states: seq<System>, steps: seq<Step>, n: nat)
    requires Behaviour(states, steps) && n < |steps| && steps[n].RunCheck?
    ensures states[n + 1].follower ==
      if states[n].failures != [] then Thrown(states[n].failures[0])
      else if HasNews(states, steps, n) then Ready else Parked
  {
    BehaviourKeepsInv(states, steps, n);
    DirtyIsNews(states, steps, n);
  }

  /** The input has been sent. */
  function SentSo(steps: seq<Step>, n: nat): nat
    requires n <= |steps|
  {
    if n == 0 then 0 else SentSo(steps, n - 1) + (if steps[n - 1].Sent? then 1 else 0)
  }

  /**
   The input is sent once, after a first view; and the follower ends exactly with a view after that which shows the end of the turn.
   */
  lemma {:induction false} SentOnce(states: seq<System>, steps: seq<Step>, n: nat)
    requires Behaviour(states, steps) && n < |states|
    ensures SentSo(steps, n) == if states[n].phase == After then 1 else 0
    ensures states[n].follower.Sending? ==> states[n].phase == Before
    ensures states[n].follower.Ended? ==> states[n].phase == After
  {
    if n > 0 {
      SentOnce(states, steps, n - 1);
    }
  }

  lemma EndsWithTurn(states: seq<System>, steps: seq<Step>, n: nat)
    requires Behaviour(states, steps) && n < |steps| && steps[n].Answer?
    ensures states[n + 1].follower.Sending? <==> SentSo(steps, n) == 0
    ensures states[n + 1].follower.Ended? <==> SentSo(steps, n) == 1 && steps[n].ended
    ensures states[n + 1].follower.Checking? <==> SentSo(steps, n) == 1 && !steps[n].ended
  {
    SentOnce(states, steps, n);
  }

  /** An event or a failure resolves the promise of a parked follower at once, and its next check does not park again. */
  lemma ParkedFollowerWakes(states: seq<System>, steps: seq<Step>, n: nat)
    requires Behaviour(states, steps) && n < |steps| && states[n].follower.Parked?
    ensures steps[n].Event? ==> states[n + 1].follower.Woken? && Next(states[n + 1], RunCheck).follower == Ready
    ensures steps[n].Fails? ==>
      states[n + 1].follower.Woken? && Next(states[n + 1], RunCheck).follower == Thrown(steps[n].message)
  {
    BehaviourKeepsInv(states, steps, n);
  }

  predicate Over(follower: Follower) {
    follower.Ended? || follower.Thrown?
  }

  /** How many of its own steps the follower can still take once something has failed. */
  function Remaining(s: System): nat {
    match s.follower
    case Checking => 1
    case Woken => 1
    case Parked => 1
    case Ready => if s.phase == Before then 6 else 3
    case Requesting => if s.phase == Before then 5 else 2
    case Sending => 4
    case Ended => 0
    case Thrown(_) => 0
  }

  /**
   The first failure is kept, from then on the follower never parks, each of its steps brings it nearer to its end, and the next
   check throws exactly that failure.
   */
  lemma FailureReachesFollower(states: seq<System>, steps: seq<Step>, n: nat)
    requires Behaviour(states, steps) && n < |steps| && states[n].failures != []
    ensures states[n].watch.failure == Some(states[n].failures[0]) && states[n + 1].watch.failure == states[n].watch.failure
    ensures !states[n].follower.Parked?
    ensures IsFollowerStep(steps[n]) ==> Remaining(states[n + 1]) < Remaining(states[n])
    ensures !IsFollowerStep(steps[n]) ==> Remaining(states[n + 1]) == Remaining(states[n])
    ensures steps[n].RunCheck? ==> states[n + 1].follower == Thrown(states[n].failures[0])
  {
    BehaviourKeepsInv(states, steps, n);
    BehaviourKeepsInv(states, steps, n + 1);
  }

  /** A follower that is not over and not parked can always take a step: it waits for nothing but its own calls. */
  lemma FollowerIsNeverStuck(s: System)
    requires Inv(s) && !Over(s.follower) && !s.follower.Parked?
    ensures exists step :: IsFollowerStep(step) && Enabled(s, step)
  {
    match s.follower
    case Checking => assert Enabled(s, RunCheck);
    case Woken => assert Enabled(s, RunCheck);
    case Ready => assert Enabled(s, Request);
    case Requesting => assert Enabled(s, Answer(s.delivered, false));
    case Sending => assert Enabled(s, Sent);
  }

  /** The follower's own steps among those from m up to n. */
  function FollowerSteps(steps: seq<Step>, m: nat, n: nat): nat
    requires m <= n <= |steps|
    decreases n - m
  {
    if m == n then 0 else FollowerSteps(steps, m, n - 1) + (if IsFollowerStep(steps[n - 1]) then 1 else 0)
  }

  /** After the first failure the follower takes at most six steps of its own, whatever else happens in between. */
  lemma {:induction false} EndsAfterFailure(states: seq<System>, steps: seq<Step>, m: nat, n: nat)
    requires Behaviour(states, steps) && m <= n < |states| && states[m].failures != []
    ensures FollowerSteps(steps, m, n) + Remaining(states[n]) <= Remaining(states[m]) <= 6
    ensures states[n].failures != [] && states[n].failures[0] == states[m].failures[0]
    decreases n - m
  {
    if m < n {
      EndsAfterFailure(states, steps, m, n - 1);
      FailureReachesFollower(states, steps, n - 1);
    }
  }
}
