/**
 scripts/package/host-package.ts: `ensureHostPackage`, which lets all callers in one process that want the same folder share one fetch
 through the module-level map `fetchingHosts`. The steps are the pieces of the callers between two awaits.
 */
module HostFetches {
  import opened Wrappers

  type Folder = string

  type CallId = nat

  datatype Outcome = Root(path: string) | Thrown(message: string)

  /** The map itself, as the two pieces of `ensureHostPackage` around the await use it. */
  class FetchingHosts {
    var fetching: map<Folder, CallId>

    constructor ()
      ensures fetching == map[]
    {
      fetching := map[];
    }

    /** Up to the await: the fetch already in flight for the folder, or the caller's own, entered into the map. */
    method Begin(folder: Folder, self: CallId) returns (awaited: CallId)
      modifies this
      ensures awaited == Awaited(old(fetching), folder, self)
      ensures fetching == old(fetching)[folder := awaited]
    {
      if folder in fetching {
        return fetching[folder];
      }
      fetching := fetching[folder := self];
      awaited := self;
    }

    /** The `finally` of the caller that started the fetch. */
    method Finish(folder: Folder)
      modifies this
      ensures fetching == Removed(old(fetching), folder)
    {
      fetching := fetching - {folder};
    }
  }

  function Awaited(fetching: map<Folder, CallId>, folder: Folder, self: CallId): CallId {
    if folder in fetching then fetching[folder] else self
  }

  function Removed(fetching: map<Folder, CallId>, folder: Folder): (rest: map<Folder, CallId>)
    ensures folder !in rest
    ensures forall other :: other != folder ==>
      (other in rest <==> other in fetching) && (other in rest ==> rest[other] == fetching[other])
  {
    fetching - {folder}
  }

  /** A call awaits a fetch, named after the call that started it; `result` is what it returned or threw. */
  datatype Call = Call(folder: Folder, fetch: CallId, result: Option<Outcome>)

  /** `settled` holds the outcome of every fetch that is over. */
  datatype System = System(fetching: map<Folder, CallId>, calls: map<CallId, Call>, settled: map<CallId, Outcome>)

  datatype Step = Start(folder: Folder) | Settle(outcome: Outcome) | Resume

  predicate Enabled(s: System, c: CallId, step: Step) {
    match step
    case Start(_) => c !in s.calls
    case Settle(_) => c in s.calls && s.calls[c].fetch == c && c !in s.settled
    case Resume => c in s.calls && s.calls[c].result.None? && s.calls[c].fetch in s.settled
  }

  function Next(s: System, c: CallId, step: Step): System
    requires Enabled(s, c, step)
  {
    match step
    case Start(folder) =>
      var fetch := Awaited(s.fetching, folder, c);
      s.(fetching := s.fetching[folder := fetch], calls := s.calls[c := Call(folder, fetch, None)])
    case Settle(outcome) =>
      s.(settled := s.settled[c := outcome])
    case Resume =>
      var call := s.calls[c];
      s.(calls := s.calls[c := call.(result := Some(s.settled[call.fetch]))],
         fetching := if call.fetch == c then Removed(s.fetching, call.folder) else s.fetching)
  }

  /** The call started a fetch and has not gone past its await. */
  predicate InFlight(s: System, c: CallId) {
    c in s.calls && s.calls[c].fetch == c && s.calls[c].result.None?
  }

  predicate InFlightFor(s: System, c: CallId, folder: Folder) {
    InFlight(s, c) && s.calls[c].folder == folder
  }

  predicate Inv(s: System) {
    && (forall folder :: folder in s.fetching ==> InFlight(s, s.fetching[folder]) && s.calls[s.fetching[folder]].folder == folder)
    && (forall c :: c in s.calls && InFlight(s, c) ==> s.calls[c].folder in s.fetching && s.fetching[s.calls[c].folder] == c)
    && (forall c :: c in s.calls ==>
          var call := s.calls[c];
          && call.fetch in s.calls && s.calls[call.fetch].fetch == call.fetch && s.calls[call.fetch].folder == call.folder
          && (call.result.Some? ==> call.fetch in s.settled && call.result == Some(s.settled[call.fetch])))
    && (forall c :: c in s.settled ==> c in s.calls && s.calls[c].fetch == c)
  }

  predicate Behaviour(states: seq<System>, moves: seq<(CallId, Step)>) {
    && |states| == |moves| + 1
    && states[0] == System(map[], map[], map[])
    && forall i :: 0 <= i < |moves| ==>
         Enabled(states[i], moves[i].0, moves[i].1) && states[i + 1] == Next(states[i], moves[i].0, moves[i].1)
  }

  lemma StartKeepsInv(s: System, c: CallId, folder: Folder)
    requires Inv(s) && c !in s.calls
    ensures Inv(Next(s, c, Start(folder)))
  {
    var t := Next(s, c, Start(folder));
    forall d | InFlight(t, d)
      ensures t.calls[d].folder in t.fetching && t.fetching[t.calls[d].folder] == d
    {
      assert d == c || InFlight(s, d);
    }
  }

  lemma ResumeKeepsInv(s: System, c: CallId)
    requires Inv(s) && Enabled(s, c, Resume)
    ensures Inv(Next(s, c, Resume))
  {
    var t := Next(s, c, Resume);
    forall folder | folder in t.fetching
      ensures InFlight(t, t.fetching[folder])
    {
      assert InFlight(s, s.fetching[folder]);
      assert s.calls[c].fetch == c ==> InFlight(s, c) && s.fetching[folder] != c;
    }
    forall d | InFlight(t, d)
      ensures t.calls[d].folder in t.fetching && t.fetching[t.calls[d].folder] == d
    {
      assert InFlight(s, d);
    }
  }

  lemma StepKeepsInv(s: System, c: CallId, step: Step)
    requires Inv(s) && Enabled(s, c, step)
    ensures Inv(Next(s, c, step))
  {
    match step
    case Start(folder) => StartKeepsInv(s, c, folder);
    case Settle(_) =>
    case Resume => ResumeKeepsInv(s, c);
  }

  lemma {:induction false} BehaviourKeepsInv(states: seq<System>, moves: seq<(CallId, Step)>, n: nat)
    requires Behaviour(states, moves) && n < |states|
    ensures Inv(states[n])
  {
    if n > 0 {
      BehaviourKeepsInv(states, moves, n - 1);
      StepKeepsInv(states[n - 1], moves[n - 1].0, moves[n - 1].1);
    }
  }

  /** Single flight: the map has an entry for a folder exactly while a fetch for it is in flight, and there is never a second one. */
  lemma SingleFlight(states: seq<System>, moves: seq<(CallId, Step)>, n: nat, folder: Folder)
    requires Behaviour(states, moves) && n < |states|
    ensures folder in states[n].fetching <==> exists c :: InFlightFor(states[n], c, folder)
    ensures forall c, d :: InFlightFor(states[n], c, folder) && InFlightFor(states[n], d, folder) ==> c == d
  {
    BehaviourKeepsInv(states, moves, n);
    if folder in states[n].fetching {
      assert InFlightFor(states[n], states[n].fetching[folder], folder);
    }
  }

  /** A call joins the fetch in flight for its folder and starts one only when there is none. */
  lemma JoinsOrStarts(states: seq<System>, moves: seq<(CallId, Step)>, n: nat)
    requires Behaviour(states, moves) && n < |moves| && moves[n].1.Start?
    ensures var c, folder := moves[n].0, moves[n].1.folder;
      && (states[n + 1].calls[c].fetch == c <==>
            !exists d :: InFlightFor(states[n], d, folder))
      && (forall d :: InFlightFor(states[n], d, folder) ==> states[n + 1].calls[c].fetch == d)
  {
    SingleFlight(states, moves, n, moves[n].1.folder);
    BehaviourKeepsInv(states, moves, n);
  }

  /** All calls that shared a fetch end with the outcome of that fetch, the one that started it included. */
  lemma JoinersShareOutcome(states: seq<System>, moves: seq<(CallId, Step)>, n: nat, c: CallId, d: CallId)
    requires Behaviour(states, moves) && n < |states|
    requires c in states[n].calls && d in states[n].calls && states[n].calls[c].fetch == states[n].calls[d].fetch
    requires states[n].calls[c].result.Some? && states[n].calls[d].result.Some?
    ensures states[n].calls[c].result == states[n].calls[d].result
    ensures states[n].calls[c].folder == states[n].calls[d].folder
  {
    BehaviourKeepsInv(states, moves, n);
  }
}
