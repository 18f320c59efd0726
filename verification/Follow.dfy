/**
 scripts/agent/agent-cli.ts 440-462: `followSent` polls the view of a run and prints every step once. Which views it happens to see
 does not matter for what it prints. The projection of a view to its steps is `progressOf` for one input that was sent.
 */
module Follow {
  import opened Wrappers
  import opened Progress
  import opened Growth
  import opened Unique

  // ----- followSent -----

  datatype Printed = Text(line: Line) | Json(data: Data)

  function Render(entries: seq<Entry>, json: bool): seq<Printed> {
    if entries == [] then []
    else
      var last := entries[|entries| - 1];
      Render(entries[..|entries| - 1], json) + RenderOne(last, json)
  }

  function KeysOf(entries: seq<Entry>): set<string> {
    set entry | entry in entries :: entry.key
  }

  /** `entries.filter((candidate) => !written.has(candidate.key))`, before any of them is written. */
  function Fresh(entries: seq<Entry>, written: set<string>): (news: seq<Entry>)
    ensures forall entry :: entry in news <==> entry in entries && entry.key !in written
  {
    if entries == [] then []
    else
      var last := entries[|entries| - 1];
      Fresh(entries[..|entries| - 1], written) + (if last.key in written then [] else [last])
  }

  /** What has been printed after one more poll, its steps compared with the keys printed before. */
  function PrintedWith(before: seq<Entry>, poll: Option<View>, project: Projection): seq<Entry> {
    var progress := project(poll);
    before + (if progress.Success? then Fresh(progress.value.entries, KeysOf(before)) else [])
  }

  function PrintedBy(polls: seq<Option<View>>, project: Projection): seq<Entry> {
    if polls == [] then []
    else PrintedWith(PrintedBy(polls[..|polls| - 1], project), polls[|polls| - 1], project)
  }

  datatype Followed =
    | Done(outcome: Status, reason: Option<string>)
    | Broken(error: ProgressError)
    | Waiting

  /** How one poll ends the loop. */
  function EndOf(poll: Option<View>, project: Projection): Followed {
    match project(poll)
    case Failure(error) => Broken(error)
    case Success(progress) => if progress.outcome.None? then Waiting else Done(progress.outcome.value, progress.reason)
  }

  predicate Goes(poll: Option<View>, project: Projection) {
    EndOf(poll, project).Waiting?
  }

  function RenderOne(entry: Entry, json: bool): seq<Printed> {
    if json then [Json(entry.data)] else if entry.line.Some? then [Text(entry.line.value)] else []
  }

  lemma RenderOneMore(before: seq<Entry>, news: seq<Entry>, k: nat, json: bool)
    requires k < |news|
    ensures Render(before + news[..k + 1], json) == Render(before + news[..k], json) + RenderOne(news[k], json)
    ensures KeysOf(before + news[..k + 1]) == KeysOf(before + news[..k]) + {news[k].key}
  {
    var all := before + news[..k + 1];
    assert all == before + news[..k] + [news[k]];
    assert all[..|all| - 1] == before + news[..k];
  }

  /** The inner loop: writes the new steps of one poll; `before` is what was printed earlier. */
  method WriteNew(news: seq<Entry>, ghost before: seq<Entry>, written: set<string>, lines: seq<Printed>, json: bool)
    returns (written': set<string>, lines': seq<Printed>)
    requires written == KeysOf(before) && lines == Render(before, json)
    ensures written' == KeysOf(before + news) && lines' == Render(before + news, json)
  {
    written', lines' := written, lines;
    assert before + news[..0] == before;
    for k := 0 to |news|
      invariant written' == KeysOf(before + news[..k])
      invariant lines' == Render(before + news[..k], json)
    {
      var entry := news[k];
      RenderOneMore(before, news, k, json);
      written' := written' + {entry.key};
      if json {
        lines' := lines' + [Json(entry.data)];
      } else if entry.line.Some? {
        lines' := lines' + [Text(entry.line.value)];
      }
    }
    assert news[..|news|] == news;
  }

  lemma PrintedOneMore(polls: seq<Option<View>>, k: nat, project: Projection)
    requires k < |polls|
    ensures PrintedBy(polls[..k + 1], project) == PrintedWith(PrintedBy(polls[..k], project), polls[k], project)
  {
    assert polls[..k + 1][..k] == polls[..k];
  }

  /** What the loop has remembered and written after some polls. */
  ghost predicate Written(polls: seq<Option<View>>, project: Projection, json: bool, written: set<string>, lines: seq<Printed>) {
    written == KeysOf(PrintedBy(polls, project)) && lines == Render(PrintedBy(polls, project), json)
  }

  /** The loop's body: one more poll. */
  method FollowPoll(polls: seq<Option<View>>, k: nat, project: Projection, json: bool, written: set<string>, lines: seq<Printed>)
    returns (end: Followed, written': set<string>, lines': seq<Printed>)
    requires k < |polls| && Written(polls[..k], project, json, written, lines)
    ensures end == EndOf(polls[k], project) && Written(polls[..k + 1], project, json, written', lines')
  {
    ghost var before := PrintedBy(polls[..k], project);
    PrintedOneMore(polls, k, project);
    var progress := project(polls[k]);
    if progress.Failure? {
      assert before + [] == before;
      return Broken(progress.error), written, lines;
    }
    written', lines' := WriteNew(Fresh(progress.value.entries, written), before, written, lines, json);
    end := if progress.value.outcome.Some? then Done(progress.value.outcome.value, progress.value.reason) else Waiting;
  }

  predicate AllGo(polls: seq<Option<View>>, n: nat, project: Projection)
    requires n <= |polls|
  {
    forall i :: 0 <= i < n ==> Goes(polls[i], project)
  }

  lemma OneMoreGoes(polls: seq<Option<View>>, n: nat, project: Projection)
    requires n < |polls| && AllGo(polls, n, project) && Goes(polls[n], project)
    ensures AllGo(polls, n + 1, project)
  {
  }

  lemma NothingWritten(polls: seq<Option<View>>, project: Projection, json: bool)
    ensures Written(polls[..0], project, json, {}, [])
  {
  }

  /** Polls until a poll ends the loop or no further view is given. */
  method FollowSent(polls: seq<Option<View>>, project: Projection, json: bool)
    returns (lines: seq<Printed>, used: nat, end: Followed)
    ensures used <= |polls| && AllGo(polls, if used == 0 then 0 else used - 1, project)
    ensures end == if used == 0 then Waiting else EndOf(polls[used - 1], project)
    ensures end.Waiting? ==> used == |polls|
    ensures lines == Render(PrintedBy(polls[..used], project), json)
  {
    lines, used, end := [], 0, Waiting;
    var written: set<string> := {};
    NothingWritten(polls, project, json);
    while used < |polls|
      invariant used <= |polls| && AllGo(polls, used, project)
      invariant end == Waiting && Written(polls[..used], project, json, written, lines)
    {
      end, written, lines := FollowPoll(polls, used, project, json, written, lines);
      used := used + 1;
      if end != Waiting {
        return;
      }
      OneMoreGoes(polls, used - 1, project);
    }
    AllGoLess(polls, used, project);
  }

  lemma AllGoLess(polls: seq<Option<View>>, n: nat, project: Projection)
    requires n <= |polls| && AllGo(polls, n, project)
    ensures AllGo(polls, if n == 0 then 0 else n - 1, project)
  {
  }

  // ----- the order of what is printed -----

  function At(entries: seq<Entry>, places: seq<nat>): seq<Entry>
    requires Places(places, |entries|)
  {
    seq(|places|, i requires 0 <= i < |places| => entries[places[i]])
  }

  /** The places of the steps whose keys are not among the written ones, all of them. */
  predicate NewPlaces(shown: seq<Entry>, written: set<string>, places: seq<nat>) {
    Places(places, |shown|) && forall k: nat :: k < |shown| ==> (k in places <==> shown[k].key !in written)
  }

  lemma AtMore(entries: seq<Entry>, places: seq<nat>, last: Entry)
    requires Places(places, |entries|)
    ensures Places(places, |entries + [last]|) && At(entries + [last], places) == At(entries, places)
    ensures Places(places + [|entries|], |entries + [last]|)
    ensures At(entries + [last], places + [|entries|]) == At(entries, places) + [last]
  {
    PlaceBehind(places, |entries|);
  }

  lemma NewPlacesMore(entries: seq<Entry>, written: set<string>, places: seq<nat>, last: Entry)
    requires NewPlaces(entries, written, places)
    ensures NewPlaces(entries + [last], written, if last.key in written then places else places + [|entries|])
  {
    PlaceBehind(places, |entries|);
  }

  lemma LastInOrder(entries: seq<Entry>, init: seq<Entry>, last: Entry)
    requires entries != [] && init == entries[..|entries| - 1] && last == entries[|entries| - 1]
    ensures entries == init + [last]
  {
  }

  lemma {:induction false} FreshInOrder(entries: seq<Entry>, written: set<string>) returns (places: seq<nat>)
    ensures NewPlaces(entries, written, places) && Fresh(entries, written) == At(entries, places)
  {
    if entries == [] {
      places := [];
    } else {
      var init, last := entries[..|entries| - 1], entries[|entries| - 1];
      places := FreshInOrder(init, written);
      LastInOrder(entries, init, last);
      AtMore(init, places, last);
      NewPlacesMore(init, written, places, last);
      if last.key !in written {
        places := places + [|init|];
      }
    }
  }

  /** One poll prints those of its steps whose keys were not printed before, all of them and in its order. */
  lemma PollPrintsInOrder(polls: seq<Option<View>>, k: nat, project: Projection) returns (places: seq<nat>)
    requires k < |polls|
    ensures NewPlaces(Shown(polls[k], project), KeysOf(PrintedBy(polls[..k], project)), places)
    ensures PrintedBy(polls[..k + 1], project) == PrintedBy(polls[..k], project) + At(Shown(polls[k], project), places)
  {
    PrintedOneMore(polls, k, project);
    places := FreshInOrder(Shown(polls[k], project), KeysOf(PrintedBy(polls[..k], project)));
  }

  /** A follower that ends on its first poll prints what that poll shows, step by step. */
  lemma FirstPollIsPrinted(poll: Option<View>, project: Projection)
    ensures PrintedBy([poll], project) == Shown(poll, project)
  {
    var polls := [poll];
    var places := PollPrintsInOrder(polls, 0, project);
    assert polls[..0] == [] && polls[..1] == polls;
    AllPlaces(places, |Shown(poll, project)|);
    assert At(Shown(poll, project), places) == Shown(poll, project);
  }

  /** The steps that the last of some polls has added. */
  function Added(polls: seq<Option<View>>, project: Projection): seq<Entry>
    requires polls != [] && |PrintedBy(polls[..|polls| - 1], project)| <= |PrintedBy(polls, project)|
  {
    PrintedBy(polls, project)[|PrintedBy(polls[..|polls| - 1], project)|..]
  }

  lemma ChronologicalAt(entries: seq<Entry>, places: seq<nat>)
    requires Chronological(entries) && Places(places, |entries|)
    ensures Chronological(At(entries, places))
  {
    var at := At(entries, places);
    forall i, j | 0 <= i < j < |at|
      ensures !Ends(at[i]) && (at[i].at <= at[j].at || Ends(at[j]))
    {
      assert at[i] == entries[places[i]] && at[j] == entries[places[j]] && places[i] < places[j];
    }
  }

  lemma AddedAt(polls: seq<Option<View>>, project: Projection) returns (places: seq<nat>)
    requires polls != []
    ensures |PrintedBy(polls[..|polls| - 1], project)| <= |PrintedBy(polls, project)|
    ensures NewPlaces(Shown(polls[|polls| - 1], project), KeysOf(PrintedBy(polls[..|polls| - 1], project)), places)
    ensures Added(polls, project) == At(Shown(polls[|polls| - 1], project), places)
  {
    places := PollPrintsInOrder(polls, |polls| - 1, project);
    assert polls[..|polls|] == polls;
  }

  /** While no poll has shown the end of the turn, its key is not printed. */
  lemma EndIsNew(polls: seq<Option<View>>, known: set<string>, text: string, e: Entry)
    requires (forall i :: 0 <= i < |polls| ==> Sound(polls[i])) && AllGo(polls, |polls|, Projecting(known, text))
    requires Ends(e) && KeyOf(e)
    ensures e.key !in KeysOf(PrintedBy(polls, Projecting(known, text)))
  {
    forall p | p in PrintedBy(polls, Projecting(known, text))
      ensures p.key != e.key
    {
      var i := ShownBySome(polls, Projecting(known, text), p);
      assert Goes(polls[i], Projecting(known, text));
      ShownInOrder(polls[i], known, text);
      if p.key == e.key {
        KeysTellKinds(p, e);
      }
    }
  }

  /** Every poll prints in the order of time, and the one that ends the loop prints the end of the turn last. */
  lemma PollPrintsByTime(polls: seq<Option<View>>, known: set<string>, text: string)
    requires polls != [] && (forall i :: 0 <= i < |polls| ==> Sound(polls[i]))
    requires AllGo(polls, |polls| - 1, Projecting(known, text)) && ProgressOf(polls[|polls| - 1], known, text).Success?
    ensures |PrintedBy(polls[..|polls| - 1], Projecting(known, text))| <= |PrintedBy(polls, Projecting(known, text))|
    ensures Chronological(Added(polls, Projecting(known, text)))
    ensures var last, added := ProgressOf(polls[|polls| - 1], known, text), Added(polls, Projecting(known, text));
      HasEnded(last) && last.value.entries != [] ==> added != [] && Ends(added[|added| - 1])
  {
    var last := polls[|polls| - 1];
    var shown := ProgressOf(last, known, text).value.entries;
    var places := AddedAt(polls, Projecting(known, text));
    ShownInOrder(last, known, text);
    ChronologicalAt(shown, places);
    if HasEnded(ProgressOf(last, known, text)) && shown != [] {
      var init := polls[..|polls| - 1];
      assert forall i :: 0 <= i < |init| ==> init[i] == polls[i];
      EndIsNew(init, known, text, shown[|shown| - 1]);
      LastPlace(places, |shown|);
    }
  }

  // ----- what a step prints -----

  /** With --json every step is one line of output, its data. */
  lemma {:induction false} JsonIsData(entries: seq<Entry>)
    ensures |Render(entries, true)| == |entries|
    ensures forall i :: 0 <= i < |entries| ==> Render(entries, true)[i] == Json(entries[i].data)
  {
    if entries != [] {
      JsonIsData(entries[..|entries| - 1]);
    }
  }

  /** Without --json the steps that have a line print it, the others print nothing. */
  lemma {:induction false} TextIsLines(entries: seq<Entry>) returns (places: seq<nat>)
    ensures Places(places, |entries|) && forall k: nat :: k < |entries| ==> (k in places <==> entries[k].line.Some?)
    ensures |Render(entries, false)| == |places|
    ensures forall i :: 0 <= i < |places| ==>
      entries[places[i]].line.Some? && Render(entries, false)[i] == Text(entries[places[i]].line.value)
  {
    if entries == [] {
      places := [];
    } else {
      var init, last := entries[..|entries| - 1], |entries| - 1;
      places := TextIsLines(init);
      if entries[last].line.Some? {
        PlaceBehind(places, last);
        places := places + [last];
      }
    }
  }

  // ----- what is printed over all polls -----

  /** The steps a poll shows. */
  function Shown(poll: Option<View>, project: Projection): seq<Entry> {
    var progress := project(poll);
    if progress.Success? then progress.value.entries else []
  }

  /** Polls of one run of which all but the last leave the turn running. */
  predicate Following(polls: seq<Option<View>>, project: Projection) {
    && polls != [] && History(polls)
    && (forall i :: 0 <= i < |polls| - 1 ==> Goes(polls[i], project))
    && project(polls[|polls| - 1]).Success?
  }

  lemma StepsHaveKeys(poll: Option<View>, project: Projection)
    requires Lawful(project) && Sound(poll) && project(poll).Success?
    ensures Keyed(project(poll).value.entries)
  {
  }

  lemma StepsStay(poll: Option<View>, later: Option<View>, project: Projection)
    requires Lawful(project) && GrowsTo(poll, later)
    ensures Keeps(project(poll), project(later))
  {
  }

  lemma {:induction false} FreshDistinct(entries: seq<Entry>, written: set<string>)
    requires DistinctKeys(entries)
    ensures DistinctKeys(Fresh(entries, written))
  {
    if entries != [] {
      var init, last := entries[..|entries| - 1], entries[|entries| - 1];
      FreshDistinct(init, written);
      if last.key !in written {
        DistinctAppend(Fresh(init, written), [last]);
      }
    }
  }

  /** One more poll, seen as two lists of steps: what was printed before and what the poll shows. */
  lemma PrintedStep(before: seq<Entry>, shown: seq<Entry>)
    requires DistinctKeys(before) && DistinctKeys(shown) && AllBecome(before, shown)
    ensures var printed := before + Fresh(shown, KeysOf(before));
      DistinctKeys(printed) && KeysOf(printed) == KeysOf(shown) && AllBecome(printed, shown)
  {
    var news := Fresh(shown, KeysOf(before));
    FreshDistinct(shown, KeysOf(before));
    DistinctAppend(before, news);
    KeysKept(before, shown);
    forall e | e in before + news
      ensures exists f :: f in shown && Becomes(e, f)
    {
      if e in news {
        assert Becomes(e, e);
      }
    }
  }

  lemma FollowingInit(polls: seq<Option<View>>, project: Projection)
    requires Following(polls, project) && |polls| > 1
    ensures Following(polls[..|polls| - 1], project)
    ensures GrowsTo(polls[|polls| - 2], polls[|polls| - 1]) && Goes(polls[|polls| - 2], project)
  {
    var init := polls[..|polls| - 1];
    assert forall i :: 0 <= i < |init| ==> init[i] == polls[i];
  }

  /** What has been printed after any poll: every step the poll shows, once, as some poll so far has shown it. */
  lemma {:induction false} PrintedIsShown(polls: seq<Option<View>>, project: Projection)
    requires Lawful(project)
    requires Following(polls, project)
    ensures var printed, shown := PrintedBy(polls, project), Shown(polls[|polls| - 1], project);
      && DistinctKeys(printed) && KeysOf(printed) == KeysOf(shown) && AllBecome(printed, shown)
  {
    var init, last := polls[..|polls| - 1], polls[|polls| - 1];
    StepsHaveKeys(last, project);
    if init != [] {
      FollowingInit(polls, project);
      PrintedIsShown(init, project);
      var previous := polls[|polls| - 2];
      StepsStay(previous, last, project);
      BecomeChain(PrintedBy(init, project), Shown(previous, project), Shown(last, project));
    }
    PrintedStep(PrintedBy(init, project), Shown(last, project));
  }

  lemma BecomeChain(a: seq<Entry>, b: seq<Entry>, c: seq<Entry>)
    requires AllBecome(a, b) && AllBecome(b, c)
    ensures AllBecome(a, c)
  {
    forall e | e in a
      ensures exists g :: g in c && Becomes(e, g)
    {
      var f :| f in b && Becomes(e, f);
      var g :| g in c && Becomes(f, g);
      assert Becomes(e, g);
    }
  }

  lemma KeysKept(before: seq<Entry>, shown: seq<Entry>)
    requires AllBecome(before, shown)
    ensures KeysOf(before + Fresh(shown, KeysOf(before))) == KeysOf(shown)
  {
    forall e | e in before
      ensures e.key in KeysOf(shown)
    {
      var f :| f in shown && Becomes(e, f);
      assert e.key == f.key;
    }
    forall key | key in KeysOf(shown)
      ensures key in KeysOf(before + Fresh(shown, KeysOf(before)))
    {
      var f :| f in shown && f.key == key;
      if key in KeysOf(before) {
        var e :| e in before && e.key == key;
        assert e in before + Fresh(shown, KeysOf(before));
      } else {
        assert f in before + Fresh(shown, KeysOf(before));
      }
    }
  }

  // ----- the lines -----

  lemma {:induction false} RenderAppend(a: seq<Entry>, b: seq<Entry>, json: bool)
    ensures Render(a + b, json) == Render(a, json) + Render(b, json)
  {
    if b == [] {
      assert a + b == a;
    } else {
      var init, last := b[..|b| - 1], b[|b| - 1];
      assert (a + b)[..|a + b| - 1] == a + init;
      RenderAppend(a, init, json);
    }
  }

  lemma RenderWithout(entries: seq<Entry>, k: nat, json: bool)
    requires k < |entries|
    ensures multiset(Render(entries, json))
         == multiset(Render(entries[..k] + entries[k + 1..], json)) + multiset(RenderOne(entries[k], json))
  {
    assert entries == entries[..k] + [entries[k]] + entries[k + 1..];
    RenderAppend(entries[..k], [entries[k]], json);
    RenderAppend(entries[..k] + [entries[k]], entries[k + 1..], json);
    RenderAppend(entries[..k], entries[k + 1..], json);
    assert Render([], json) + RenderOne(entries[k], json) == Render([entries[k]], json);
  }

  lemma NoKeys(entries: seq<Entry>)
    ensures KeysOf(entries) == {} ==> entries == []
  {
    if entries != [] {
      assert entries[0].key in KeysOf(entries);
    }
  }

  /** Step for step the same output, in whatever order. */
  lemma {:induction false} RenderMatched(a: seq<Entry>, b: seq<Entry>, json: bool)
    requires DistinctKeys(a) && DistinctKeys(b) && KeysOf(a) == KeysOf(b)
    requires forall e, f :: e in a && f in b && e.key == f.key ==> RenderOne(e, json) == RenderOne(f, json)
    ensures multiset(Render(a, json)) == multiset(Render(b, json))
  {
    if a == [] {
      NoKeys(b);
    } else {
      var init, e := a[..|a| - 1], a[|a| - 1];
      assert e.key in KeysOf(b);
      var k :| 0 <= k < |b| && b[k].key == e.key;
      var rest := b[..k] + b[k + 1..];
      RemoveKey(a, |a| - 1);
      assert a[..|a| - 1] + a[|a|..] == init;
      RemoveKey(b, k);
      RenderMatched(init, rest, json);
      RenderWithout(b, k, json);
      assert Render(a, json) == Render(init, json) + RenderOne(e, json);
    }
  }

  lemma RemoveKey(entries: seq<Entry>, k: nat)
    requires k < |entries| && DistinctKeys(entries)
    ensures var rest := entries[..k] + entries[k + 1..];
      && DistinctKeys(rest) && KeysOf(rest) == KeysOf(entries) - {entries[k].key}
      && forall e :: e in rest ==> e in entries
  {
    var rest := entries[..k] + entries[k + 1..];
    forall key | key in KeysOf(entries) - {entries[k].key}
      ensures key in KeysOf(rest)
    {
      var e :| e in entries && e.key == key;
      assert e in rest;
    }
  }

  lemma SameKeySameStep(entries: seq<Entry>, e: Entry, f: Entry)
    requires DistinctKeys(entries) && e in entries && f in entries && e.key == f.key
    ensures e == f
  {
  }

  /**
   The polling schedule does not matter: whichever views of a run were polled before the one that ends it, the lines printed are
   those of the final view, each as often as there.
   */
  lemma LinesAreThoseOfFinalView(polls: seq<Option<View>>, project: Projection)
    requires Lawful(project)
    requires Following(polls, project)
    ensures multiset(Render(PrintedBy(polls, project), false))
         == multiset(Render(Shown(polls[|polls| - 1], project), false))
  {
    var printed, shown := PrintedBy(polls, project), Shown(polls[|polls| - 1], project);
    PrintedIsShown(polls, project);
    StepsHaveKeys(polls[|polls| - 1], project);
    forall e, f | e in printed && f in shown && e.key == f.key
      ensures RenderOne(e, false) == RenderOne(f, false)
    {
      var g :| g in shown && Becomes(e, g);
      SameKeySameStep(shown, f, g);
    }
    RenderMatched(printed, shown, false);
  }

  /** No poll ever showed a call running that the final view shows otherwise. */
  predicate NoCallMovedOn(polls: seq<Option<View>>, project: Projection)
    requires Following(polls, project)
  {
    forall i, e :: 0 <= i < |polls| && e in Shown(polls[i], project) && e.data.ToolData? && e.data.call.status == Running ==>
      e in Shown(polls[|polls| - 1], project)
  }

  /**
   With --json the beginning of a tool carries the call as it was when first polled, so the output is that of the final view
   exactly when no call was polled running that has ended since.
   */
  lemma JsonIsThatOfFinalView(polls: seq<Option<View>>, project: Projection)
    requires Lawful(project)
    requires Following(polls, project)
    ensures multiset(Render(PrintedBy(polls, project), true)) == multiset(Render(Shown(polls[|polls| - 1], project), true))
      <==> NoCallMovedOn(polls, project)
  {
    var printed, shown := PrintedBy(polls, project), Shown(polls[|polls| - 1], project);
    if NoCallMovedOn(polls, project) {
      PrintedIsShown(polls, project);
      StepsHaveKeys(polls[|polls| - 1], project);
      forall e, f | e in printed && f in shown && e.key == f.key
        ensures RenderOne(e, true) == RenderOne(f, true)
      {
        var g :| g in shown && Becomes(e, g);
        SameKeySameStep(shown, f, g);
        var i := ShownBySome(polls, project, e);
        if e != g {
          assert e in shown;
          SameKeySameStep(shown, e, g);
        }
      }
      RenderMatched(printed, shown, true);
    }
    if multiset(Render(printed, true)) == multiset(Render(shown, true)) {
      forall i, e | 0 <= i < |polls| && e in Shown(polls[i], project) && e.data.ToolData? && e.data.call.status == Running
        ensures e in shown
      {
        PrintedSince(polls, project, i, e);
        var g := SameData(printed, shown, e);
        StepsHaveKeys(polls[|polls| - 1], project);
        assert g == e;
      }
    }
  }

  /** What is printed was shown by one of the polls. */
  lemma {:induction false} ShownBySome(polls: seq<Option<View>>, project: Projection, e: Entry) returns (i: nat)
    requires e in PrintedBy(polls, project)
    ensures i < |polls| && e in Shown(polls[i], project)
  {
    var init := polls[..|polls| - 1];
    if e in PrintedBy(init, project) {
      i := ShownBySome(init, project, e);
    } else {
      i := |polls| - 1;
    }
  }

  lemma {:induction false} PrintedPrefix(polls: seq<Option<View>>, k: nat, project: Projection)
    requires k <= |polls|
    ensures PrintedBy(polls[..k], project) <= PrintedBy(polls, project)
    decreases |polls|
  {
    if k == |polls| {
      assert polls[..k] == polls;
    } else {
      PrintedPrefix(polls[..|polls| - 1], k, project);
      assert polls[..|polls| - 1][..k] == polls[..k];
    }
  }

  lemma {:induction false} InRender(entries: seq<Entry>, data: Data)
    ensures Json(data) in Render(entries, true) <==> exists e :: e in entries && e.data == data
  {
    if entries != [] {
      var init, last := entries[..|entries| - 1], entries[|entries| - 1];
      assert entries == init + [last];
      InRender(init, data);
    }
  }

  /** A step shown with a running call was printed just like that. */
  lemma PrintedWhileRunning(polls: seq<Option<View>>, project: Projection, e: Entry)
    requires Lawful(project)
    requires Following(polls, project) && e in Shown(polls[|polls| - 1], project)
    requires e.data.ToolData? && e.data.call.status == Running
    ensures e in PrintedBy(polls, project)
  {
    var printed, shown := PrintedBy(polls, project), Shown(polls[|polls| - 1], project);
    PrintedIsShown(polls, project);
    StepsHaveKeys(polls[|polls| - 1], project);
    assert e.key in KeysOf(printed);
    var p :| p in printed && p.key == e.key;
    var q :| q in shown && Becomes(p, q);
    SameKeySameStep(shown, q, e);
    var j := ShownBySome(polls, project, p);
    StepsHaveKeys(polls[j], project);
    assert Becomes(p, e) && p.data.ToolData?;
    assert p.data.call == e.data.call;
  }

  lemma HistoryPrefix(polls: seq<Option<View>>, n: nat)
    requires History(polls) && n <= |polls|
    ensures History(polls[..n])
  {
    assert forall k :: 0 <= k < n ==> polls[..n][k] == polls[k];
  }

  lemma FollowingPrefix(polls: seq<Option<View>>, project: Projection, i: nat)
    requires Following(polls, project) && i < |polls|
    ensures Following(polls[..i + 1], project) && polls[..i + 1][|polls[..i + 1]| - 1] == polls[i]
  {
    HistoryPrefix(polls, i + 1);
    assert i < |polls| - 1 ==> Goes(polls[i], project);
  }

  lemma SameData(a: seq<Entry>, b: seq<Entry>, e: Entry) returns (g: Entry)
    requires multiset(Render(a, true)) == multiset(Render(b, true)) && e in a
    ensures g in b && g.data == e.data
  {
    InRender(a, e.data);
    InRender(b, e.data);
    assert Json(e.data) in multiset(Render(b, true));
    g :| g in b && g.data == e.data;
  }

  lemma PrintedSince(polls: seq<Option<View>>, project: Projection, i: nat, e: Entry)
    requires Lawful(project)
    requires Following(polls, project)
    requires i < |polls| && e in Shown(polls[i], project) && e.data.ToolData? && e.data.call.status == Running
    ensures e in PrintedBy(polls, project) && e == ToolBegin(e.data.call)
  {
    FollowingPrefix(polls, project, i);
    PrintedWhileRunning(polls[..i + 1], project, e);
    PrintedPrefix(polls, i + 1, project);
    StepsHaveKeys(polls[i], project);
  }

  /** What `FollowSent` establishes about the polls it used is what the theorems above ask for. */
  lemma EndedRunIsFollowed(polls: seq<Option<View>>, project: Projection, used: nat)
    requires History(polls) && 0 < used <= |polls|
    requires AllGo(polls, used - 1, project) && EndOf(polls[used - 1], project).Done?
    ensures Following(polls[..used], project)
  {
    assert forall i :: 0 <= i < used ==> polls[..used][i] == polls[i];
  }

  /** An unreadable question breaks the loop whichever later view is polled. */
  lemma BreaksForGood(polls: seq<Option<View>>, i: nat, j: nat, project: Projection)
    requires Lawful(project)
    requires History(polls) && i <= j < |polls|
    requires project(polls[i]).Failure?
    ensures project(polls[j]).Failure?
  {
    if i < j {
      StepsStay(polls[i], polls[j], project);
    }
  }

  /**
   For the steps of any sent input: the lines printed are those of the final view, and with --json so is the output exactly when no
   call was polled running that has ended since.
   */
  lemma FollowedTurnIsPrinted(polls: seq<Option<View>>, known: set<string>, text: string)
    requires Following(polls, Projecting(known, text))
    ensures var project := Projecting(known, text); var last := polls[|polls| - 1];
      && multiset(Render(PrintedBy(polls, project), false)) == multiset(Render(Shown(last, project), false))
      && (multiset(Render(PrintedBy(polls, project), true)) == multiset(Render(Shown(last, project), true))
          <==> NoCallMovedOn(polls, project))
  {
    ProgressIsLawful(known, text);
    LinesAreThoseOfFinalView(polls, Projecting(known, text));
    JsonIsThatOfFinalView(polls, Projecting(known, text));
  }

  // ----- two followers of one run -----

  /** The moments at which a follower polls, out of all the moments of a run. */
  predicate Schedule(times: seq<nat>, moments: nat) {
    && times != [] && (forall i :: 0 <= i < |times| ==> times[i] < moments)
    && forall i, j :: 0 <= i < j < |times| ==> times[i] < times[j]
  }

  function Pick(history: seq<Option<View>>, times: seq<nat>): seq<Option<View>>
    requires Schedule(times, |history|)
  {
    seq(|times|, i requires 0 <= i < |times| => history[times[i]])
  }

  lemma PickIsHistory(history: seq<Option<View>>, times: seq<nat>)
    requires History(history) && Schedule(times, |history|)
    ensures History(Pick(history, times))
  {
  }

  lemma PermutedWithout(entries: seq<Entry>, k: nat)
    requires k < |entries|
    ensures multiset(entries[..k] + entries[k + 1..]) == multiset(entries) - multiset{entries[k]}
  {
    assert entries == entries[..k] + [entries[k]] + entries[k + 1..];
  }

  /** The order of the steps does not matter for what is written altogether. */
  lemma {:induction false} RenderPermuted(a: seq<Entry>, b: seq<Entry>, json: bool)
    requires multiset(a) == multiset(b)
    ensures multiset(Render(a, json)) == multiset(Render(b, json))
  {
    if a == [] {
      assert |multiset(b)| == 0;
    } else {
      var init, e := a[..|a| - 1], a[|a| - 1];
      assert a == init + [e];
      assert e in multiset(b);
      var k :| 0 <= k < |b| && b[k] == e;
      PermutedWithout(b, k);
      assert multiset(init) == multiset(a) - multiset{e};
      RenderPermuted(init, b[..k] + b[k + 1..], json);
      RenderWithout(b, k, json);
    }
  }

  /** Every step that has a line makes the output longer. */
  lemma {:induction false} RenderGrows(more: seq<Entry>, json: bool)
    requires forall e :: e in more ==> e.line.Some?
    ensures |Render(more, json)| == |more|
  {
    if more != [] {
      RenderGrows(more[..|more| - 1], json);
    }
  }

  lemma RenderWithMore(entries: seq<Entry>, later: seq<Entry>, more: seq<Entry>, json: bool)
    requires multiset(later) == multiset(entries) + multiset(more) && forall e :: e in more ==> e.line.Some?
    ensures multiset(Render(later, json)) == multiset(Render(entries, json)) <==> more == []
  {
    assert multiset(entries + more) == multiset(later);
    RenderPermuted(later, entries + more, json);
    RenderAppend(entries, more, json);
    RenderGrows(more, json);
    assert |multiset(Render(later, json))| == |multiset(Render(entries, json))| + |more|;
    if more == [] {
      assert entries + more == entries;
    }
  }

  /** Two followers whose last views differ by some steps print the same lines exactly if there are no such steps. */
  lemma FollowersAgree(polls: seq<Option<View>>, others: seq<Option<View>>, project: Projection, more: seq<Entry>)
    requires Lawful(project) && Following(polls, project) && Following(others, project)
    requires AddsSteps(project(polls[|polls| - 1]), project(others[|others| - 1]), more)
    ensures multiset(Render(PrintedBy(others, project), false)) == multiset(Render(PrintedBy(polls, project), false)) <==> more == []
  {
    LinesAreThoseOfFinalView(polls, project);
    LinesAreThoseOfFinalView(others, project);
    RenderWithMore(Shown(polls[|polls| - 1], project), Shown(others[|others| - 1], project), more, false);
  }

  /** A follower has polled so far and gone on each time but the last. */
  predicate Polled(polls: seq<Option<View>>, project: Projection) {
    polls != [] && AllGo(polls, |polls| - 1, project)
  }

  /** The second follower ends as the first one does and prints the same lines. */
  predicate Alike(polls: seq<Option<View>>, others: seq<Option<View>>, project: Projection)
    requires polls != [] && others != []
  {
    && EndOf(others[|others| - 1], project) == EndOf(polls[|polls| - 1], project)
    && multiset(Render(PrintedBy(others, project), false)) == multiset(Render(PrintedBy(polls, project), false))
  }

  lemma AlikeUnlessLate(polls: seq<Option<View>>, others: seq<Option<View>>, project: Projection, late: Result<seq<Entry>, ProgressError>)
    requires Lawful(project) && Following(polls, project) && History(others) && Polled(others, project)
    requires HasEnded(project(polls[|polls| - 1]))
    requires project(others[|others| - 1]).Success? <==> late.Success?
    requires late.Success? ==> AddsSteps(project(polls[|polls| - 1]), project(others[|others| - 1]), late.value)
    requires late == Success([]) ==> project(others[|others| - 1]) == project(polls[|polls| - 1])
    ensures Alike(polls, others, project) <==> late == Success([])
  {
    if late.Success? {
      assert Following(others, project);
      FollowersAgree(polls, others, project, late.value);
    }
  }

  lemma LastViewsDecide(
      polls: seq<Option<View>>, others: seq<Option<View>>, v: View, w: View, known: set<string>, text: string)
    requires History(polls) && Polled(polls, Projecting(known, text)) && polls[|polls| - 1] == Some(v)
    requires History(others) && Polled(others, Projecting(known, text)) && others[|others| - 1] == Some(w)
    requires Grows(v, w) && HasEnded(ProgressOf(Some(v), known, text))
    ensures Alike(polls, others, Projecting(known, text)) <==> NoLateQuestion(v, w, known, text)
  {
    ProgressIsLawful(known, text);
    LateQuestionsAreAdded(v, w, known, text);
    NoLateQuestionIsExact(v, w, known, text);
    AlikeUnlessLate(polls, others, Projecting(known, text), LateQuestions(v, w, known, text));
  }

  /**
   The polling schedule does not matter: of one run, whatever else goes on in it, two followers that poll it at different moments
   and stop at different ended views end alike and print the same lines, if and only if no action that was appended between the
   two last views is asked in the turn.
   */
  lemma ScheduleDoesNotMatter(history: seq<Option<View>>, times: seq<nat>, others: seq<nat>, known: set<string>, text: string)
    requires History(history) && Schedule(times, |history|) && Schedule(others, |history|)
    requires times[|times| - 1] <= others[|others| - 1]
    requires Polled(Pick(history, times), Projecting(known, text)) && Polled(Pick(history, others), Projecting(known, text))
    requires HasEnded(ProgressOf(history[times[|times| - 1]], known, text))
    ensures var v, w := history[times[|times| - 1]], history[others[|others| - 1]];
      && v.Some? && w.Some? && |v.value.actions| <= |w.value.actions|
      && (Alike(Pick(history, times), Pick(history, others), Projecting(known, text)) <==> NoLateQuestion(v.value, w.value, known, text))
  {
    var v, w := history[times[|times| - 1]], history[others[|others| - 1]];
    PickIsHistory(history, times);
    PickIsHistory(history, others);
    EndedViewExists(v, known, text);
    if times[|times| - 1] == others[|others| - 1] {
      GrowsToItself(v.value);
    }
    LastViewsDecide(Pick(history, times), Pick(history, others), v.value, w.value, known, text);
  }

  // ----- an example -----

  const OF_INPUT: Projection := Projecting({}, "")
  const SENT := Input("i", "owner", None, "", 0, 0, Claimed("t"))
  const CALL := ToolCall("c", "read", 1, None, Running)
  const CALL_ENDED := ToolCall("c", "read", 1, Some(2), Completed)
  const TURN := Turn("t", "a", 0, None, Running, None, [CALL], [])
  const TURN_ENDED := Turn("t", "a", 0, Some(3), Completed, None, [CALL_ENDED], [])

  function ViewWith(turn: Turn): View {
    View("r", "owner", [SENT], [turn], [])
  }

  lemma ShownInExample(turn: Turn, e: Entry)
    requires turn.id == "t" && turn.outputs == [] && |turn.toolCalls| == 1 && turn.toolCalls[0].startedAt == 1
    ensures ProgressOf(Some(ViewWith(turn)), {}, "").Success?
    ensures ProgressOf(Some(ViewWith(turn)), {}, "").value.outcome == (if turn.status == Running then None else Some(turn.status))
    ensures e in ProgressOf(Some(ViewWith(turn)), {}, "").value.entries <==>
      e in ToolEntries(turn.toolCalls[0]) || (turn.status != Running && e == EndEntry(turn))
  {
    var v := ViewWith(turn);
    assert IsSent(SENT, v, {}, "");
    assert FindInput(v.inputs, v, {}, "") == Some(SENT);
    assert FindTurn(v.turns, "t") == Some(turn);
    InQuestionEntries(v.id, v.actions, turn, 0, e);
    InOutputEntries(turn.outputs, 0, e);
    InCallEntries(turn.toolCalls, 0, e);
    InSteps(v, SENT, turn, e);
  }

  const EXAMPLE := [Some(ViewWith(TURN)), Some(ViewWith(TURN_ENDED))]

  lemma ExampleIsHistory()
    ensures History(EXAMPLE)
  {
    assert CallGrows(CALL, CALL_ENDED) && TurnGrows(TURN, TURN_ENDED);
    assert Grows(ViewWith(TURN), ViewWith(TURN_ENDED));
  }

  lemma ExampleIsShown()
    ensures Following(EXAMPLE, OF_INPUT)
    ensures ToolBegin(CALL) in Shown(EXAMPLE[0], OF_INPUT) && ToolBegin(CALL) !in Shown(EXAMPLE[1], OF_INPUT)
  {
    ExampleIsHistory();
    ShownInExample(TURN, ToolBegin(CALL));
    ShownInExample(TURN_ENDED, ToolBegin(CALL));
  }

  /** A call polled once while it runs and once after its end: --json prints something the final view does not contain. */
  lemma JsonDependsOnPolls()
    ensures Following(EXAMPLE, OF_INPUT)
    ensures multiset(Render(PrintedBy(EXAMPLE, OF_INPUT), true)) != multiset(Render(Shown(EXAMPLE[1], OF_INPUT), true))
  {
    ExampleIsShown();
    assert ToolBegin(CALL).data == ToolData(CALL) && CALL.status == Running;
    ProgressIsLawful({}, "");
    assert !NoCallMovedOn(EXAMPLE, OF_INPUT);
    JsonIsThatOfFinalView(EXAMPLE, OF_INPUT);
  }

  // ----- the failing input -----

  /** Proposed in the millisecond in which the turn ended, and in the view only after the end. */
  const QUESTION := Action("q", ASK_PLUGIN_ID, "a", 3, Some(["?"]))

  const ENDED := ViewWith(TURN_ENDED)
  const ASKED := ENDED.(actions := [QUESTION])

  lemma LateExample()
    ensures History([Some(ENDED), Some(ASKED)]) && HasEnded(ProgressOf(Some(ENDED), {}, ""))
    ensures !NoLateQuestion(ENDED, ASKED, {}, "")
  {
    ShownInExample(TURN_ENDED, ToolBegin(CALL));
    GrowsToItself(ENDED);
    assert Grows(ENDED, ASKED);
    assert IsSent(SENT, ENDED, {}, "");
    assert LaterActions(ENDED, ASKED) == [QUESTION];
    assert AskedIn(TURN_ENDED, 0, QUESTION);
  }

  /** One follower polls before the question appears and one after it: the first does not print it. */
  lemma QuestionInLastMillisecond()
    ensures History([Some(ENDED), Some(ASKED)]) && Schedule([0], 2) && Schedule([1], 2)
    ensures Polled(Pick([Some(ENDED), Some(ASKED)], [0]), OF_INPUT) && Polled(Pick([Some(ENDED), Some(ASKED)], [1]), OF_INPUT)
    ensures !Alike(Pick([Some(ENDED), Some(ASKED)], [0]), Pick([Some(ENDED), Some(ASKED)], [1]), OF_INPUT)
  {
    LateExample();
    ScheduleDoesNotMatter([Some(ENDED), Some(ASKED)], [0], [1], {}, "");
  }
}
