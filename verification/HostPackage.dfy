/**
 scripts/package/host-package.ts: `fetchHostPackage` and `installStagedHost`, run by any number of processes on one storage folder.
 Every process stages an installation in a folder of its own and renames it into the shared folder of the version. The steps are the
 pieces between two file system operations; a process can crash between any two of them.
 */
module HostPackage {
  import opened Wrappers

  type Version = string

  type Pid = nat

  /** A folder: the version of the host package in it, if `isHostRoot` holds, and whether the downloaded host.tgz still lies in it. */
  datatype Content = Content(host: Option<Version>, tarball: bool)

  predicate Complete(content: Content) {
    content.host.Some? && !content.tarball
  }

  datatype Reason = NoDownload | DownloadFailed | ServerInstallFailed | RenameFailed | VersionMismatch

  datatype Stage =
    | Looking                          // is the shared folder a host root?
    | NpmRunning                       // npm installs into the staging folder
    | NpmFailed                        // the staging folder is to be removed
    | Downloading                      // the server's package is fetched and verified
    | Unpacking                        // npm installs the downloaded tarball
    | Unpacked(ok: bool)               // the tarball is to be removed
    | Renaming                         // the staging folder is to be moved into place
    | Rechecking                       // that failed: is the shared folder a host root by now?
    | Cleaning(failure: Option<Reason>) // the staging parent is to be removed, then to go on or to throw
    | Matching                         // the version in the shared folder is to be compared
    | Returned
    | Failed(reason: Reason)
    | Crashed

  datatype Process = Process(version: Version, offered: bool, stage: Stage)

  /** The shared folders by version, the private staging folders by process, and the processes. */
  datatype System = System(folders: map<Version, Content>, staging: map<Pid, Content>, processes: map<Pid, Process>)

  datatype Action =
    | Begin(version: Version, offered: bool)
    | Look
    | NpmWrites(host: Option<Version>)
    | NpmExits(ok: bool)
    | RemoveStaging
    | Download(ok: bool)
    | RemoveTarball
    | Rename(permitted: bool)
    | Recheck
    | Clean
    | Match
    | Crash

  predicate Final(stage: Stage) {
    stage.Returned? || stage.Failed? || stage.Crashed?
  }

  predicate IsHostRoot(s: System, version: Version) {
    version in s.folders && s.folders[version].host.Some?
  }

  predicate Enabled(s: System, p: Pid, action: Action) {
    if action.Begin? then p !in s.processes
    else
      && p in s.processes
      && var stage := s.processes[p].stage;
         match action
         case Look => stage.Looking?
         case NpmWrites(_) => stage.NpmRunning? || stage.Unpacking?
         case NpmExits(_) => stage.NpmRunning? || stage.Unpacking?
         case RemoveStaging => stage.NpmFailed?
         case Download(_) => stage.Downloading?
         case RemoveTarball => stage.Unpacked?
         case Rename(_) => stage.Renaming?
         case Recheck => stage.Rechecking?
         case Clean => stage.Cleaning?
         case Match => stage.Matching?
         case Crash => !Final(stage)
  }

  function Goto(s: System, p: Pid, stage: Stage): System
    requires p in s.processes
  {
    s.(processes := s.processes[p := s.processes[p].(stage := stage)])
  }

  /** npm left a host root in the staging folder. */
  predicate StagedHost(s: System, p: Pid) {
    p in s.staging && s.staging[p].host.Some?
  }

  function Next(s: System, p: Pid, action: Action): System
    requires Enabled(s, p, action)
  {
    if action.Begin? then s.(processes := s.processes[p := Process(action.version, action.offered, Looking)])
    else
      var process := s.processes[p];
      match action
      case Look =>
        Goto(s, p, if IsHostRoot(s, process.version) then Matching else NpmRunning)
      case NpmWrites(host) =>
        s.(staging := s.staging[p := Content(host, process.stage.Unpacking?)])
      case NpmExits(ok) =>
        var installed := ok && StagedHost(s, p);
        Goto(s, p, if process.stage.Unpacking? then Unpacked(installed) else if installed then Renaming else NpmFailed)
      case RemoveStaging =>
        Goto(s.(staging := s.staging - {p}), p, if process.offered then Downloading else Cleaning(Some(NoDownload)))
      case Download(ok) =>
        if ok then Goto(s.(staging := s.staging[p := Content(None, true)]), p, Unpacking)
        else Goto(s, p, Cleaning(Some(DownloadFailed)))
      case RemoveTarball =>
        var removed := if p in s.staging then s.(staging := s.staging[p := s.staging[p].(tarball := false)]) else s;
        Goto(removed, p, if process.stage.ok then Renaming else Cleaning(Some(ServerInstallFailed)))
      case Rename(permitted) =>
        if permitted && p in s.staging && process.version !in s.folders
        then Goto(System(s.folders[process.version := s.staging[p]], s.staging - {p}, s.processes), p, Cleaning(None))
        else Goto(s, p, Rechecking)
      case Recheck =>
        Goto(s, p, Cleaning(if IsHostRoot(s, process.version) then None else Some(RenameFailed)))
      case Clean =>
        Goto(s.(staging := s.staging - {p}), p,
             if process.stage.failure.Some? then Failed(process.stage.failure.value) else Matching)
      case Match =>
        Goto(s, p, if process.version in s.folders && s.folders[process.version].host == Some(process.version)
                   then Returned else Failed(VersionMismatch))
      case Crash =>
        Goto(s, p, Crashed)
  }

  // ----- the storage -----

  /** The folders, and how far each process has come in `fetchHostPackage`. */
  class HostStorage {
    var folders: map<Version, Content>
    var staging: map<Pid, Content>
    var processes: map<Pid, Process>

    function State(): System
      reads this
    {
      System(folders, staging, processes)
    }

    predicate Can(p: Pid, action: Action)
      reads this
    {
      Enabled(State(), p, action)
    }

    constructor (folders: map<Version, Content>)
      ensures State() == System(folders, map[], map[])
    {
      this.folders, staging, processes := folders, map[], map[];
    }

    method GoTo(p: Pid, stage: Stage)
      requires p in processes
      modifies this`processes
      ensures State() == Goto(old(State()), p, stage)
    {
      processes := processes[p := processes[p].(stage := stage)];
    }

    /** The folder that is there already is taken. */
    method LookUp(p: Pid)
      requires Can(p, Look)
      modifies this`processes
      ensures State() == Next(old(State()), p, Look)
    {
      var version := processes[p].version;
      if version in folders && folders[version].host.Some? {
        GoTo(p, Matching);
      } else {
        GoTo(p, NpmRunning);
      }
    }

    method InstallWrites(p: Pid, host: Option<Version>)
      requires Can(p, NpmWrites(host))
      modifies this`staging
      ensures State() == Next(old(State()), p, NpmWrites(host))
    {
      staging := staging[p := Content(host, processes[p].stage.Unpacking?)];
    }

    method InstallExits(p: Pid, ok: bool)
      requires Can(p, NpmExits(ok))
      modifies this`processes
      ensures State() == Next(old(State()), p, NpmExits(ok))
    {
      var installed := ok && p in staging && staging[p].host.Some?;
      if processes[p].stage.Unpacking? {
        GoTo(p, Unpacked(installed));
      } else if installed {
        GoTo(p, Renaming);
      } else {
        GoTo(p, NpmFailed);
      }
    }

    method DiscardStaging(p: Pid)
      requires Can(p, RemoveStaging)
      modifies this`staging, this`processes
      ensures State() == Next(old(State()), p, RemoveStaging)
    {
      staging := staging - {p};
      GoTo(p, if processes[p].offered then Downloading else Cleaning(Some(NoDownload)));
    }

    method DownloadPackage(p: Pid, ok: bool)
      requires Can(p, Download(ok))
      modifies this`staging, this`processes
      ensures State() == Next(old(State()), p, Download(ok))
    {
      if !ok {
        GoTo(p, Cleaning(Some(DownloadFailed)));
        return;
      }
      staging := staging[p := Content(None, true)];
      GoTo(p, Unpacking);
    }

    method DiscardTarball(p: Pid)
      requires Can(p, RemoveTarball)
      modifies this`staging, this`processes
      ensures State() == Next(old(State()), p, RemoveTarball)
    {
      if p in staging {
        staging := staging[p := staging[p].(tarball := false)];
      }
      GoTo(p, if processes[p].stage.ok then Renaming else Cleaning(Some(ServerInstallFailed)));
    }

    /** An existing folder is not replaced. */
    method RenameStaging(p: Pid, permitted: bool)
      requires Can(p, Rename(permitted))
      modifies this`folders, this`staging, this`processes
      ensures State() == Next(old(State()), p, Rename(permitted))
    {
      var version := processes[p].version;
      if !permitted || p !in staging || version in folders {
        GoTo(p, Rechecking);
        return;
      }
      folders := folders[version := staging[p]];
      staging := staging - {p};
      GoTo(p, Cleaning(None));
    }

    method RecheckFolder(p: Pid)
      requires Can(p, Recheck)
      modifies this`processes
      ensures State() == Next(old(State()), p, Recheck)
    {
      var version := processes[p].version;
      var adopted := version in folders && folders[version].host.Some?;
      GoTo(p, Cleaning(if adopted then None else Some(RenameFailed)));
    }

    /** `finally`: what was staged is removed, whether the call goes on or throws. */
    method CleanUp(p: Pid)
      requires Can(p, Clean)
      modifies this`staging, this`processes
      ensures State() == Next(old(State()), p, Clean)
    {
      staging := staging - {p};
      var failure := processes[p].stage.failure;
      GoTo(p, if failure.Some? then Failed(failure.value) else Matching);
    }

    method MatchVersion(p: Pid)
      requires Can(p, Match)
      modifies this`processes
      ensures State() == Next(old(State()), p, Match)
    {
      var version := processes[p].version;
      if version in folders && folders[version].host == Some(version) {
        GoTo(p, Returned);
      } else {
        GoTo(p, Failed(VersionMismatch));
      }
    }
  }

  // ----- what every step keeps -----

  predicate StageFits(s: System, p: Pid)
    requires p in s.processes
  {
    var process := s.processes[p];
    match process.stage
    case Looking => p !in s.staging
    case NpmRunning => p in s.staging ==> !s.staging[p].tarball
    case NpmFailed => true
    case Downloading => p !in s.staging
    case Unpacking => p in s.staging && s.staging[p].tarball
    case Unpacked(ok) => p in s.staging && (ok ==> s.staging[p].host.Some?)
    case Renaming => p in s.staging && Complete(s.staging[p])
    case Rechecking => p in s.staging
    case Cleaning(failure) => if failure.None? then IsHostRoot(s, process.version) else failure.value != VersionMismatch
    case Matching => p !in s.staging && IsHostRoot(s, process.version)
    case Returned => p !in s.staging && process.version in s.folders && s.folders[process.version].host == Some(process.version)
    case Failed(reason) => p !in s.staging && (reason == VersionMismatch ==>
      process.version in s.folders && s.folders[process.version].host != Some(process.version))
    case Crashed => true
  }

  /** A staging folder belongs to one process and a process is where its own folder lets it be. */
  predicate Inv(s: System) {
    && (forall p :: p in s.staging ==> p in s.processes)
    && (forall p :: p in s.processes ==> StageFits(s, p))
  }

  lemma StepKeepsInv(s: System, p: Pid, action: Action)
    requires Inv(s) && Enabled(s, p, action)
    ensures Inv(Next(s, p, action))
  {
    var t := Next(s, p, action);
    StepKeepsFolders(s, p, action);
    forall q | q in t.processes
      ensures StageFits(t, q)
    {
      if q != p {
        assert t.processes[q] == s.processes[q];
        assert q in t.staging <==> q in s.staging;
        assert StageFits(s, q);
      }
    }
  }

  /** A shared folder never changes once it is there, and the only folders added are complete. */
  lemma StepKeepsFolders(s: System, p: Pid, action: Action)
    requires Inv(s) && Enabled(s, p, action)
    ensures var t := Next(s, p, action);
      && s.folders.Keys <= t.folders.Keys
      && (forall v :: v in s.folders ==> t.folders[v] == s.folders[v])
      && (forall v :: v in t.folders && v !in s.folders ==>
            Complete(t.folders[v]) && p in s.staging && t.folders[v] == s.staging[p] && action.Rename? && s.processes[p].version == v)
  {
  }

  // ----- whole runs -----

  /** Any interleaving of the steps and crashes of any number of processes, from any content of the shared storage. */
  predicate Behaviour(states: seq<System>, moves: seq<(Pid, Action)>) {
    && |states| == |moves| + 1
    && states[0].staging == map[] && states[0].processes == map[]
    && forall i {:trigger moves[i]} :: 0 <= i < |moves| ==>
         Enabled(states[i], moves[i].0, moves[i].1) && states[i + 1] == Next(states[i], moves[i].0, moves[i].1)
  }

  lemma {:induction false} BehaviourKeepsInv(states: seq<System>, moves: seq<(Pid, Action)>, n: nat)
    requires Behaviour(states, moves) && n < |states|
    ensures Inv(states[n])
  {
    if n > 0 {
      BehaviourKeepsInv(states, moves, n - 1);
      StepKeepsInv(states[n - 1], moves[n - 1].0, moves[n - 1].1);
    }
  }

  /** Between any two moments a shared folder is kept as it is, and whatever is new is a complete host without the tarball. */
  lemma {:induction false} FoldersOnlyAppear(states: seq<System>, moves: seq<(Pid, Action)>, m: nat, n: nat)
    requires Behaviour(states, moves) && m <= n < |states|
    ensures forall v :: v in states[m].folders ==> v in states[n].folders && states[n].folders[v] == states[m].folders[v]
    ensures forall v :: v in states[n].folders && v !in states[m].folders ==> Complete(states[n].folders[v])
    decreases n - m
  {
    if m < n {
      FoldersOnlyAppear(states, moves, m, n - 1);
      BehaviourKeepsInv(states, moves, n - 1);
      StepKeepsFolders(states[n - 1], moves[n - 1].0, moves[n - 1].1);
    }
  }

  /**
   The shared installation is safe: if every shared folder is complete at the start, each is absent or complete at every step and never
   changes once present.
   */
  lemma AbsentOrComplete(states: seq<System>, moves: seq<(Pid, Action)>, version: Version, n: nat)
    requires Behaviour(states, moves) && n < |states|
    requires version in states[0].folders ==> Complete(states[0].folders[version])
    ensures version in states[n].folders ==> Complete(states[n].folders[version])
  {
    FoldersOnlyAppear(states, moves, 0, n);
  }

  /** Every caller that returns got exactly the version it asked for, from the folder every later caller of that version sees too. */
  lemma ReturnedHostIsRequested(states: seq<System>, moves: seq<(Pid, Action)>, p: Pid, m: nat, n: nat)
    requires Behaviour(states, moves) && m <= n < |states|
    requires p in states[m].processes && states[m].processes[p].stage.Returned?
    ensures var version := states[m].processes[p].version;
      && version in states[n].folders && states[n].folders[version].host == Some(version)
      && version in states[m].folders && states[m].folders[version] == states[n].folders[version]
  {
    BehaviourKeepsInv(states, moves, m);
    assert StageFits(states[m], p);
    FoldersOnlyAppear(states, moves, m, n);
  }

  /** Every exit other than a crash leaves no staging folder behind, and no process ever touches the folder of another. */
  lemma ExitsClean(states: seq<System>, moves: seq<(Pid, Action)>, p: Pid, n: nat)
    requires Behaviour(states, moves) && n < |states|
    requires p in states[n].processes && Final(states[n].processes[p].stage)
    ensures p in states[n].staging ==> states[n].processes[p].stage.Crashed?
    ensures n < |moves| && moves[n].0 != p ==>
      (p in states[n + 1].staging <==> p in states[n].staging)
      && (p in states[n].staging ==> states[n + 1].staging[p] == states[n].staging[p])
  {
    BehaviourKeepsInv(states, moves, n);
    assert StageFits(states[n], p);
  }

  /** Where a process can be that renames no more and does not fail on its rename. */
  predicate Adopting(stage: Stage) {
    || stage.Rechecking? || stage == Cleaning(None) || stage.Matching?
    || stage.Returned? || stage == Failed(VersionMismatch) || stage.Crashed?
  }

  lemma StepKeepsAdopting(s: System, p: Pid, q: Pid, action: Action)
    requires Enabled(s, q, action) && p in s.processes && Adopting(s.processes[p].stage)
    requires IsHostRoot(s, s.processes[p].version)
    ensures p in Next(s, q, action).processes && Adopting(Next(s, q, action).processes[p].stage)
    ensures Next(s, q, action).processes[p].version == s.processes[p].version
  {
  }

  lemma {:induction false} AdoptsFrom(states: seq<System>, moves: seq<(Pid, Action)>, p: Pid, m: nat, n: nat)
    requires Behaviour(states, moves) && m <= n < |states|
    requires p in states[m].processes && Adopting(states[m].processes[p].stage)
    requires IsHostRoot(states[m], states[m].processes[p].version)
    ensures p in states[n].processes && Adopting(states[n].processes[p].stage)
    ensures states[n].processes[p].version == states[m].processes[p].version
    decreases n - m
  {
    if m < n {
      AdoptsFrom(states, moves, p, m, n - 1);
      FoldersOnlyAppear(states, moves, m, n - 1);
      StepKeepsAdopting(states[n - 1], p, moves[n - 1].0, moves[n - 1].1);
    }
  }

  /**
   A process whose rename comes too late, whatever the others and the crashes do from then on: it never fails on the rename, it
   leaves nothing staged unless it crashes, and it returns the folder of the process that came first exactly if that one holds
   the version asked for.
   */
  lemma LoserAdoptsWinner(states: seq<System>, moves: seq<(Pid, Action)>, p: Pid, m: nat, n: nat)
    requires Behaviour(states, moves) && m < n < |states|
    requires moves[m].0 == p && moves[m].1.Rename? && IsHostRoot(states[m], states[m].processes[p].version)
    ensures p in states[n].processes && states[n].processes[p].version == states[m].processes[p].version
    ensures Adopting(states[n].processes[p].stage)
    ensures var version, stage := states[m].processes[p].version, states[n].processes[p].stage;
      && version in states[n].folders && states[n].folders[version] == states[m].folders[version]
      && (Final(stage) && !stage.Crashed? ==>
            p !in states[n].staging && (stage.Returned? <==> states[m].folders[version].host == Some(version)))
  {
    assert states[m + 1] == Next(states[m], p, moves[m].1);
    AdoptsFrom(states, moves, p, m + 1, n);
    FoldersOnlyAppear(states, moves, m, n);
    BehaviourKeepsInv(states, moves, n);
    assert StageFits(states[n], p);
  }

  /** The last look of a process: what it found in place when its rename had failed. */
  predicate LookedInVain(states: seq<System>, moves: seq<(Pid, Action)>, p: Pid, k: nat, version: Version)
    requires |states| == |moves| + 1 && k < |moves|
  {
    moves[k] == (p, Recheck) && !IsHostRoot(states[k], version)
  }

  predicate FailedToRename(stage: Stage) {
    stage == Failed(RenameFailed) || stage == Cleaning(Some(RenameFailed))
  }

  lemma StepToRenameFailure(s: System, p: Pid, q: Pid, action: Action)
    requires Enabled(s, q, action) && p in Next(s, q, action).processes && FailedToRename(Next(s, q, action).processes[p].stage)
    ensures p in s.processes && Next(s, q, action).processes[p].version == s.processes[p].version
    ensures FailedToRename(s.processes[p].stage) || (q == p && action.Recheck? && !IsHostRoot(s, s.processes[p].version))
  {
  }

  /** Conversely a call fails on its rename only if it had lost to nobody: no host was in place when it looked again. */
  lemma {:induction false} RenameFailsWithoutWinner(states: seq<System>, moves: seq<(Pid, Action)>, p: Pid, n: nat) returns (k: nat)
    requires Behaviour(states, moves) && n < |states| && p in states[n].processes
    requires FailedToRename(states[n].processes[p].stage)
    ensures k < n && LookedInVain(states, moves, p, k, states[n].processes[p].version)
  {
    k := n - 1;
    StepToRenameFailure(states[k], p, moves[k].0, moves[k].1);
    if FailedToRename(states[k].processes[p].stage) {
      k := RenameFailsWithoutWinner(states, moves, p, k);
    }
  }

  /** Where a process can be that looked, or will look, at a folder with a host in it. */
  predicate Taking(stage: Stage) {
    stage.Looking? || stage.Matching? || stage.Returned? || stage == Failed(VersionMismatch) || stage.Crashed?
  }

  lemma StepKeepsTaking(s: System, p: Pid, q: Pid, action: Action)
    requires Enabled(s, q, action) && p in s.processes && Taking(s.processes[p].stage) && p !in s.staging
    requires IsHostRoot(s, s.processes[p].version)
    ensures p in Next(s, q, action).processes && Taking(Next(s, q, action).processes[p].stage) && p !in Next(s, q, action).staging
    ensures Next(s, q, action).processes[p].version == s.processes[p].version
  {
  }

  /** A process that is still to look when the folder is there installs nothing. */
  lemma {:induction false} TakesFrom(states: seq<System>, moves: seq<(Pid, Action)>, p: Pid, m: nat, n: nat)
    requires Behaviour(states, moves) && m <= n < |states|
    requires p in states[m].processes && Taking(states[m].processes[p].stage) && p !in states[m].staging
    requires IsHostRoot(states[m], states[m].processes[p].version)
    ensures p in states[n].processes && Taking(states[n].processes[p].stage) && p !in states[n].staging
    ensures states[n].processes[p].version == states[m].processes[p].version
    decreases n - m
  {
    if m < n {
      TakesFrom(states, moves, p, m, n - 1);
      FoldersOnlyAppear(states, moves, m, n - 1);
      StepKeepsTaking(states[n - 1], p, moves[n - 1].0, moves[n - 1].1);
    }
  }

  /**
   The folder in place decides about every later caller: it installs nothing, and unless it crashes it returns exactly if the host in
   the folder has the version of the folder's name; otherwise it fails on the comparison, on nothing else.
   */
  lemma OutcomeOfFolder(states: seq<System>, moves: seq<(Pid, Action)>, p: Pid, m: nat, n: nat)
    requires Behaviour(states, moves) && m < n < |states|
    requires moves[m].0 == p && moves[m].1.Begin? && IsHostRoot(states[m], moves[m].1.version)
    ensures p in states[n].processes && states[n].processes[p].version == moves[m].1.version && p !in states[n].staging
    ensures var version, stage := moves[m].1.version, states[n].processes[p].stage;
      && version in states[n].folders && states[n].folders[version] == states[m].folders[version]
      && (Final(stage) && !stage.Crashed? ==>
            && (stage.Returned? <==> states[m].folders[version].host == Some(version))
            && (stage == Failed(VersionMismatch) <==> states[m].folders[version].host != Some(version)))
  {
    BehaviourKeepsInv(states, moves, m);
    assert states[m + 1] == Next(states[m], p, moves[m].1);
    TakesFrom(states, moves, p, m + 1, n);
    FoldersOnlyAppear(states, moves, m, n);
    BehaviourKeepsInv(states, moves, n);
    assert StageFits(states[n], p);
  }

  /** Whenever a caller began: it returns only a folder of the right version, and only one of another version fails the comparison. */
  lemma ComparisonOfFolder(states: seq<System>, moves: seq<(Pid, Action)>, p: Pid, m: nat, n: nat)
    requires Behaviour(states, moves) && m <= n < |states|
    requires p in states[n].processes && states[n].processes[p].version in states[m].folders
    ensures var version := states[n].processes[p].version;
      && (states[n].processes[p].stage.Returned? ==> states[m].folders[version].host == Some(version))
      && (states[n].processes[p].stage == Failed(VersionMismatch) ==> states[m].folders[version].host != Some(version))
  {
    FoldersOnlyAppear(states, moves, m, n);
    BehaviourKeepsInv(states, moves, n);
    assert StageFits(states[n], p);
  }

  // ----- what became of each attempt -----

  /** What a call has tried so far, and whether it went well: npm, the server's download, the installation of what was downloaded. */
  datatype Log = Log(npm: Option<bool>, download: Option<bool>, unpack: Option<bool>)

  const NOTHING_TRIED := Log(None, None, None)

  /** What a move adds to the log of the process that makes it; an exit of npm counts only with the host root it has left. */
  function Logged(log: Log, s: System, p: Pid, action: Action): Log {
    match action
    case NpmExits(ok) =>
      var installed := ok && p in s.staging && s.staging[p].host.Some?;
      if log.download == Some(true) then log.(unpack := Some(installed)) else log.(npm := Some(installed))
    case Download(ok) => log.(download := Some(ok))
    case _ => log
  }

  function LogOf(states: seq<System>, moves: seq<(Pid, Action)>, p: Pid, n: nat): Log
    requires |states| == |moves| + 1 && n < |states|
  {
    if n == 0 then NOTHING_TRIED
    else
      var before := LogOf(states, moves, p, n - 1);
      if moves[n - 1].0 == p then Logged(before, states[n - 1], p, moves[n - 1].1) else before
  }

  /** npm has installed the host, or it has failed and the package that the server offers was downloaded and installed. */
  predicate Installed(log: Log, offered: bool) {
    || log == Log(Some(true), None, None)
    || (offered && log == Log(Some(false), Some(true), Some(true)))
  }

  /** Why a call has failed, or is about to. */
  predicate Explained(reason: Reason, log: Log, offered: bool) {
    match reason
    case NoDownload => !offered && log == Log(Some(false), None, None)
    case DownloadFailed => offered && log == Log(Some(false), Some(false), None)
    case ServerInstallFailed => offered && log == Log(Some(false), Some(true), Some(false))
    case RenameFailed => Installed(log, offered)
    case VersionMismatch => log == NOTHING_TRIED || Installed(log, offered)
  }

  predicate LogFits(process: Process, log: Log) {
    match process.stage
    case Looking => log == NOTHING_TRIED
    case NpmRunning => log == NOTHING_TRIED
    case NpmFailed => log == Log(Some(false), None, None)
    case Downloading => process.offered && log == Log(Some(false), None, None)
    case Unpacking => process.offered && log == Log(Some(false), Some(true), None)
    case Unpacked(ok) => process.offered && log == Log(Some(false), Some(true), Some(ok))
    case Renaming => Installed(log, process.offered)
    case Rechecking => Installed(log, process.offered)
    case Cleaning(failure) =>
      if failure.None? then Installed(log, process.offered) else Explained(failure.value, log, process.offered)
    case Matching => log == NOTHING_TRIED || Installed(log, process.offered)
    case Returned => log == NOTHING_TRIED || Installed(log, process.offered)
    case Failed(reason) => Explained(reason, log, process.offered)
    case Crashed => true
  }

  lemma StepKeepsLog(s: System, p: Pid, q: Pid, action: Action, log: Log)
    requires Enabled(s, q, action) && (p in s.processes ==> LogFits(s.processes[p], log))
    requires p !in s.processes ==> log == NOTHING_TRIED
    ensures p in Next(s, q, action).processes ==>
      LogFits(Next(s, q, action).processes[p], if q == p then Logged(log, s, p, action) else log)
    ensures p !in Next(s, q, action).processes ==> log == NOTHING_TRIED
  {
  }

  /**
   Every way in which a call ends is explained by what it has tried: it gives up without a download only if npm has failed and the
   server offers none; what is offered is downloaded, and a call fails on the download or on its installation only if these failed; and
   a call whose installation went well fails on nothing but the rename and the comparison.
   */
  lemma {:induction false} OutcomeIsExplained(states: seq<System>, moves: seq<(Pid, Action)>, p: Pid, n: nat)
    requires Behaviour(states, moves) && n < |states|
    ensures p in states[n].processes ==> LogFits(states[n].processes[p], LogOf(states, moves, p, n))
    ensures p !in states[n].processes ==> LogOf(states, moves, p, n) == NOTHING_TRIED
  {
    if n > 0 {
      OutcomeIsExplained(states, moves, p, n - 1);
      StepKeepsLog(states[n - 1], p, moves[n - 1].0, moves[n - 1].1, LogOf(states, moves, p, n - 1));
    }
  }

  lemma OneMoreMove(states: seq<System>, moves: seq<(Pid, Action)>, p: Pid, action: Action, next: System)
    requires Behaviour(states, moves) && Enabled(states[|states| - 1], p, action) && next == Next(states[|states| - 1], p, action)
    ensures Behaviour(states + [next], moves + [(p, action)])
  {
    forall i | 0 <= i < |moves| + 1
      ensures Enabled((states + [next])[i], (moves + [(p, action)])[i].0, (moves + [(p, action)])[i].1)
      ensures (states + [next])[i + 1] == Next((states + [next])[i], (moves + [(p, action)])[i].0, (moves + [(p, action)])[i].1)
    {
      assert i < |moves| ==> (moves + [(p, action)])[i] == moves[i];
    }
  }

  /** A run of one process, given by what it does. */
  lemma {:induction false} RunOf(start: System, p: Pid, actions: seq<Action>) returns (states: seq<System>, moves: seq<(Pid, Action)>)
    requires start.staging == map[] && start.processes == map[] && Performs(start, p, actions)
    ensures Behaviour(states, moves) && states[0] == start && states[|states| - 1] == After(start, p, actions)
    ensures |moves| == |actions| && forall i :: 0 <= i < |moves| ==> moves[i] == (p, actions[i])
    decreases |actions|
  {
    if actions == [] {
      states, moves := [start], [];
    } else {
      states, moves := RunOf(start, p, actions[..|actions| - 1]);
      var next, move := After(start, p, actions), (p, actions[|actions| - 1]);
      OneMoreMove(states, moves, p, move.1, next);
      states, moves := states + [next], moves + [move];
    }
  }

  /** The actions can be taken one after the other. */
  predicate Performs(start: System, p: Pid, actions: seq<Action>)
    decreases |actions|, 0
  {
    actions == [] || (
      var init := actions[..|actions| - 1];
      Performs(start, p, init) && Enabled(After(start, p, init), p, actions[|actions| - 1]))
  }

  function After(start: System, p: Pid, actions: seq<Action>): System
    requires Performs(start, p, actions)
    decreases |actions|, 1
  {
    if actions == [] then start
    else Next(After(start, p, actions[..|actions| - 1]), p, actions[|actions| - 1])
  }

  // ----- progress -----

  function Remaining(stage: Stage): nat {
    match stage
    case Looking => 10
    case NpmRunning => 9
    case NpmFailed => 8
    case Downloading => 7
    case Unpacking => 6
    case Unpacked(_) => 5
    case Renaming => 4
    case Rechecking => 3
    case Cleaning(_) => 2
    case Matching => 1
    case _ => 0
  }

  /** The step a process can always take by itself. */
  function OwnStep(stage: Stage): Action {
    match stage
    case Looking => Look
    case NpmRunning => NpmExits(true)
    case NpmFailed => RemoveStaging
    case Downloading => Download(true)
    case Unpacking => NpmExits(true)
    case Unpacked(_) => RemoveTarball
    case Renaming => Rename(true)
    case Rechecking => Recheck
    case Cleaning(_) => Clean
    case _ => Match
  }

  /** A call can begin at any time, and a process can crash between any two of its steps; what it has staged then stays behind. */
  lemma CrashesAnywhere(s: System, p: Pid, version: Version, offered: bool)
    ensures p !in s.processes ==> Enabled(s, p, Begin(version, offered))
    ensures p in s.processes && !Final(s.processes[p].stage) ==>
      && Enabled(s, p, Crash)
      && Next(s, p, Crash) == s.(processes := s.processes[p := s.processes[p].(stage := Crashed)])
  {
  }

  /** No process ever waits for another: it can always go on by itself, and every step but npm writing brings it nearer to its end. */
  lemma NobodyWaits(s: System, p: Pid, action: Action)
    requires p in s.processes && !Final(s.processes[p].stage)
    ensures Enabled(s, p, OwnStep(s.processes[p].stage))
    ensures Enabled(s, p, action) && !action.NpmWrites? ==>
      Remaining(Next(s, p, action).processes[p].stage) < Remaining(s.processes[p].stage)
  {
  }

  lemma OneMoreAction(start: System, p: Pid, actions: seq<Action>, action: Action)
    requires Performs(start, p, actions) && Enabled(After(start, p, actions), p, action)
    ensures Performs(start, p, actions + [action])
    ensures After(start, p, actions + [action]) == Next(After(start, p, actions), p, action)
  {
    assert (actions + [action])[..|actions|] == actions;
  }

  /** Up to the exit of npm, from an empty storage. */
  lemma NpmHasRun(wanted: Version, offered: bool, host: Option<Version>) returns (actions: seq<Action>)
    ensures actions == [Begin(wanted, offered), Look, NpmWrites(host), NpmExits(host.Some?)]
    ensures Performs(System(map[], map[], map[]), 0, actions)
    ensures After(System(map[], map[], map[]), 0, actions) ==
      System(map[], map[0 := Content(host, false)], map[0 := Process(wanted, offered, if host.Some? then Renaming else NpmFailed)])
  {
    var start := System(map[], map[], map[]);
    actions := [];
    OneMoreAction(start, 0, actions, Begin(wanted, offered));
    actions := actions + [Begin(wanted, offered)];
    OneMoreAction(start, 0, actions, Look);
    actions := actions + [Look];
    OneMoreAction(start, 0, actions, NpmWrites(host));
    actions := actions + [NpmWrites(host)];
    OneMoreAction(start, 0, actions, NpmExits(host.Some?));
    actions := actions + [NpmExits(host.Some?)];
  }

  /** From the rename on, with a free folder. */
  lemma RenamedAndMatched(start: System, before: seq<Action>, wanted: Version, offered: bool, packed: Version)
    returns (actions: seq<Action>)
    requires Performs(start, 0, before)
    ensures before <= actions
    requires After(start, 0, before) ==
      System(map[], map[0 := Content(Some(packed), false)], map[0 := Process(wanted, offered, Renaming)])
    ensures Performs(start, 0, actions)
    ensures After(start, 0, actions) == System(
      map[wanted := Content(Some(packed), false)], map[],
      map[0 := Process(wanted, offered, if packed == wanted then Returned else Failed(VersionMismatch))])
  {
    actions := before;
    OneMoreAction(start, 0, actions, Rename(true));
    actions := actions + [Rename(true)];
    OneMoreAction(start, 0, actions, Clean);
    actions := actions + [Clean];
    OneMoreAction(start, 0, actions, Match);
    actions := actions + [Match];
  }

  /** One process alone, with npm: it puts what npm has installed in place, and returns it if the version is the one asked for. */
  lemma NpmPackageIsInstalled(wanted: Version, packed: Version) returns (states: seq<System>, moves: seq<(Pid, Action)>)
    ensures Behaviour(states, moves) && states[0].folders == map[]
    ensures states[|states| - 1] == System(
      map[wanted := Content(Some(packed), false)], map[],
      map[0 := Process(wanted, false, if packed == wanted then Returned else Failed(VersionMismatch))])
  {
    var actions := NpmHasRun(wanted, false, Some(packed));
    actions := RenamedAndMatched(System(map[], map[], map[]), actions, wanted, false, packed);
    states, moves := RunOf(System(map[], map[], map[]), 0, actions);
  }

  /** One process alone is enough to put a package of another version in place, and to fail on it only then. */
  lemma WrongVersionIsPublished(wanted: Version, packed: Version) returns (states: seq<System>, moves: seq<(Pid, Action)>)
    requires wanted != packed
    ensures Behaviour(states, moves) && states[0].folders == map[]
    ensures var last := states[|states| - 1];
      && wanted in last.folders && last.folders[wanted].host == Some(packed)
      && 0 in last.processes && last.processes[0] == Process(wanted, false, Failed(VersionMismatch))
  {
    states, moves := NpmPackageIsInstalled(wanted, packed);
  }

  /** npm has failed, and the server's package is downloaded. */
  lemma PackageIsDownloaded(wanted: Version) returns (actions: seq<Action>)
    ensures |actions| == 6 && actions[3] == NpmExits(false) && actions[5] == Download(true)
    ensures Performs(System(map[], map[], map[]), 0, actions)
    ensures After(System(map[], map[], map[]), 0, actions) ==
      System(map[], map[0 := Content(None, true)], map[0 := Process(wanted, true, Unpacking)])
  {
    var start := System(map[], map[], map[]);
    actions := NpmHasRun(wanted, true, None);
    OneMoreAction(start, 0, actions, RemoveStaging);
    actions := actions + [RemoveStaging];
    OneMoreAction(start, 0, actions, Download(true));
    actions := actions + [Download(true)];
  }

  /** npm has failed, and the server's package is downloaded and unpacked. */
  lemma PackageIsUnpacked(wanted: Version) returns (actions: seq<Action>)
    ensures NpmExits(false) in actions && Download(true) in actions
    ensures Performs(System(map[], map[], map[]), 0, actions)
    ensures After(System(map[], map[], map[]), 0, actions) ==
      System(map[], map[0 := Content(Some(wanted), false)], map[0 := Process(wanted, true, Renaming)])
  {
    var start := System(map[], map[], map[]);
    actions := PackageIsDownloaded(wanted);
    assert actions[3] == NpmExits(false) && actions[5] == Download(true);
    OneMoreAction(start, 0, actions, NpmWrites(Some(wanted)));
    actions := actions + [NpmWrites(Some(wanted))];
    OneMoreAction(start, 0, actions, NpmExits(true));
    actions := actions + [NpmExits(true)];
    OneMoreAction(start, 0, actions, RemoveTarball);
    actions := actions + [RemoveTarball];
  }

  /** When npm fails, a call returns the host that the server's package contains, in place and without its tarball. */
  lemma ServerPackageIsInstalled(wanted: Version) returns (states: seq<System>, moves: seq<(Pid, Action)>)
    ensures Behaviour(states, moves) && states[0].folders == map[]
    ensures (0, NpmExits(false)) in moves && (0, Download(true)) in moves
    ensures states[|states| - 1] == System(map[wanted := Content(Some(wanted), false)], map[], map[0 := Process(wanted, true, Returned)])
  {
    var start := System(map[], map[], map[]);
    var before := PackageIsUnpacked(wanted);
    var actions := RenamedAndMatched(start, before, wanted, true, wanted);
    states, moves := RunOf(start, 0, actions);
    ActionsAreMoves(before, actions, moves);
  }

  lemma ActionsAreMoves(before: seq<Action>, actions: seq<Action>, moves: seq<(Pid, Action)>)
    requires before <= actions && |moves| == |actions| && forall i :: 0 <= i < |moves| ==> moves[i] == (0, actions[i])
    ensures forall action :: action in before ==> (0, action) in moves
  {
    forall action | action in before
      ensures (0, action) in moves
    {
      var i :| 0 <= i < |before| && before[i] == action;
      assert moves[i] == (0, action);
    }
  }
}
