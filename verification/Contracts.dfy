/**
 scripts/homepage/homepage-extensions.ts 1314-1324 and 1341-1354: how the homepage finds the declaration of a contract, and how it
 lists the interfaces that a contract inherits from.
 */
module Contracts {
  import opened Unique
  import opened Wrappers

  type Name = string

  /** An interface of a source file with the names after `extends`. */
  datatype Interface = Interface(name: Name, bases: seq<Name>)

  type File = seq<Interface>

  datatype Error = Cyclic | Missing(base: Name, derived: Name)

  // ----- the inherited declarations -----

  /** The first interface of that name counts. */
  function Find(file: File, name: Name): (found: Option<Interface>)
    ensures found.Some? <==> name in Names(file)
    ensures found.Some? ==> found.value.name == name && found.value in file
    decreases file
  {
    if file == [] then None else if file[0].name == name then Some(file[0]) else Find(file[1..], name)
  }

  function Names(file: File): set<Name> {
    set i | 0 <= i < |file| :: file[i].name
  }

  function Bases(file: File, name: Name): seq<Name> {
    if Find(file, name).Some? then Find(file, name).value.bases else []
  }

  function ToSet(names: seq<Name>): set<Name> {
    set n | n in names
  }

  /** The first base that the file does not declare. */
  function FirstMissing(file: File, bases: seq<Name>): (missing: Option<Name>)
    ensures missing.None? <==> forall b :: b in bases ==> b in Names(file)
    ensures missing.Some? ==> missing.value in bases && missing.value !in Names(file)
    decreases bases
  {
    if bases == [] then None
    else if bases[0] !in Names(file) then Some(bases[0])
    else FirstMissing(file, bases[1..])
  }

  lemma Narrows(file: File, current: Name, ancestors: seq<Name>)
    requires current in Names(file) && current !in ancestors
    ensures |Names(file) - ToSet(ancestors + [current])| < |Names(file) - ToSet(ancestors)|
  {
    assert Names(file) - ToSet(ancestors + [current]) < Names(file) - ToSet(ancestors) by {
      assert current in Names(file) - ToSet(ancestors);
    }
    SmallerSet(Names(file) - ToSet(ancestors + [current]), Names(file) - ToSet(ancestors));
  }

  lemma SmallerSet(a: set<Name>, b: set<Name>)
    requires a < b
    ensures |a| < |b|
  {
    assert b == a + (b - a);
    assert |b - a| > 0;
  }

  /** It terminates because every call adds a declared name to the ancestors. */
  function Inherited(file: File, current: Name, ancestors: seq<Name>): Result<seq<Name>, Error>
    requires current in Names(file)
    decreases |Names(file) - ToSet(ancestors)|, 0
  {
    if current in ancestors then Failure(Cyclic)
    else
      var missing := FirstMissing(file, Bases(file, current));
      if missing.Some? then Failure(Missing(missing.value, current))
      else
        Narrows(file, current, ancestors);
        var parents := InheritedByAll(file, Bases(file, current), ancestors + [current]);
        if parents.Failure? then parents else Success(parents.value + [current])
  }

  function InheritedByAll(file: File, names: seq<Name>, ancestors: seq<Name>): Result<seq<Name>, Error>
    requires forall n :: n in names ==> n in Names(file)
    decreases |Names(file) - ToSet(ancestors)|, 1, names
  {
    if names == [] then Success([])
    else
      var first := Inherited(file, names[0], ancestors);
      if first.Failure? then first
      else
        var rest := InheritedByAll(file, names[1..], ancestors);
        if rest.Failure? then rest else Success(first.value + rest.value)
  }

  function Declarations(file: File, contract: Name): Result<seq<Name>, Error>
    requires contract in Names(file)
  {
    var inherited := Inherited(file, contract, []);
    if inherited.Failure? then inherited else Success(Distinct(inherited.value))
  }

  // ----- paths from derived interfaces to their bases -----

  predicate Path(file: File, path: seq<Name>) {
    && path != []
    && path[0] in Names(file)
    && forall i :: 0 <= i < |path| - 1 ==> path[i + 1] in Bases(file, path[i])
  }

  predicate PathTo(file: File, path: seq<Name>, from: Name, to: Name) {
    Path(file, path) && path[0] == from && path[|path| - 1] == to
  }

  ghost predicate Reaches(file: File, from: Name, to: Name) {
    exists path :: PathTo(file, path, from, to)
  }

  /** A base that is not declared, somewhere above the contract. */
  ghost predicate MissesBase(file: File, contract: Name) {
    exists derived, base :: Reaches(file, contract, derived) && base in Bases(file, derived) && base !in Names(file)
  }

  predicate Repeats(path: seq<Name>) {
    exists i, j :: 0 <= i < j < |path| && path[i] == path[j]
  }

  /** A way up from the contract that comes back to an interface it has been at. */
  ghost predicate HasCycle(file: File, contract: Name) {
    exists path :: Path(file, path) && path[0] == contract && Repeats(path)
  }

  lemma PathTail(file: File, path: seq<Name>)
    requires Path(file, path) && |path| > 1 && path[1] in Names(file)
    ensures Path(file, path[1..])
  {
    var tail := path[1..];
    forall i | 0 <= i < |tail| - 1
      ensures tail[i + 1] in Bases(file, tail[i])
    {
      assert path[i + 2] in Bases(file, path[i + 1]);
    }
  }

  lemma PathCons(file: File, current: Name, path: seq<Name>)
    requires current in Names(file) && Path(file, path) && path[0] in Bases(file, current)
    ensures Path(file, [current] + path)
  {
    var longer := [current] + path;
    forall i | 0 <= i < |longer| - 1
      ensures longer[i + 1] in Bases(file, longer[i])
    {
      if i > 0 {
        assert path[i] in Bases(file, path[i - 1]);
      }
    }
  }

  // ----- success -----

  /** When all parents succeed, so does each of them, and everything it lists is listed. */
  lemma {:induction false} EachSucceeds(file: File, names: seq<Name>, ancestors: seq<Name>, name: Name)
    requires forall n :: n in names ==> n in Names(file)
    requires InheritedByAll(file, names, ancestors).Success? && name in names
    ensures Inherited(file, name, ancestors).Success?
    ensures forall x :: x in Inherited(file, name, ancestors).value ==> x in InheritedByAll(file, names, ancestors).value
    decreases names
  {
    if name != names[0] {
      EachSucceeds(file, names[1..], ancestors, name);
    }
  }

  lemma {:induction false} ListedByOne(file: File, names: seq<Name>, ancestors: seq<Name>, x: Name) returns (name: Name)
    requires forall n :: n in names ==> n in Names(file)
    requires InheritedByAll(file, names, ancestors).Success? && x in InheritedByAll(file, names, ancestors).value
    ensures name in names && Inherited(file, name, ancestors).Success? && x in Inherited(file, name, ancestors).value
    decreases names
  {
    if x in Inherited(file, names[0], ancestors).value {
      name := names[0];
    } else {
      name := ListedByOne(file, names[1..], ancestors, x);
    }
  }

  /** After a success no way up comes back to itself or to the ancestors, and it ends at a listed, declared interface. */
  lemma {:induction false} PathsAreListed(file: File, path: seq<Name>, ancestors: seq<Name>)
    requires Path(file, path) && Inherited(file, path[0], ancestors).Success?
    ensures forall x :: x in path ==> x !in ancestors && x in Names(file)
    ensures !Repeats(path)
    ensures path[|path| - 1] in Inherited(file, path[0], ancestors).value
    ensures forall b :: b in Bases(file, path[|path| - 1]) ==> b in Names(file)
    decreases path
  {
    if |path| > 1 {
      var current, tail := path[0], path[1..];
      assert path[1] in Bases(file, path[0]);
      PathTail(file, path);
      Narrows(file, current, ancestors);
      EachSucceeds(file, Bases(file, current), ancestors + [current], tail[0]);
      PathsAreListed(file, tail, ancestors + [current]);
      assert path == [current] + tail;
      forall i, j | 0 <= i < j < |path|
        ensures path[i] != path[j]
      {
        assert path[j] == tail[j - 1];
        if i > 0 {
          assert path[i] == tail[i - 1];
        }
      }
    }
  }

  lemma {:induction false} ListedIsReached(file: File, current: Name, ancestors: seq<Name>, x: Name) returns (path: seq<Name>)
    requires current in Names(file) && Inherited(file, current, ancestors).Success?
    requires x in Inherited(file, current, ancestors).value
    ensures PathTo(file, path, current, x)
    decreases |Names(file) - ToSet(ancestors)|
  {
    if x == current {
      path := [current];
    } else {
      Narrows(file, current, ancestors);
      var parent := ListedByOne(file, Bases(file, current), ancestors + [current], x);
      var tail := ListedIsReached(file, parent, ancestors + [current], x);
      PathCons(file, current, tail);
      path := [current] + tail;
    }
  }

  // ----- failure -----

  /** A failed parent fails for a reason: the way up to a missing base, or back to an ancestor or to itself. */
  predicate Explains(file: File, path: seq<Name>, ancestors: seq<Name>, error: Error) {
    Path(file, path) &&
    match error
    case Cyclic => path[|path| - 1] in ancestors + path[..|path| - 1]
    case Missing(base, derived) => path[|path| - 1] == derived && base in Bases(file, derived) && base !in Names(file)
  }

  lemma {:induction false} FailedParent(file: File, names: seq<Name>, ancestors: seq<Name>) returns (name: Name)
    requires forall n :: n in names ==> n in Names(file)
    requires InheritedByAll(file, names, ancestors).Failure?
    ensures name in names && Inherited(file, name, ancestors) == InheritedByAll(file, names, ancestors)
    decreases names
  {
    if Inherited(file, names[0], ancestors).Failure? {
      name := names[0];
    } else {
      name := FailedParent(file, names[1..], ancestors);
    }
  }

  lemma {:induction false} FailureIsExplained(file: File, current: Name, ancestors: seq<Name>) returns (path: seq<Name>)
    requires current in Names(file) && Inherited(file, current, ancestors).Failure?
    ensures path != [] && path[0] == current && Explains(file, path, ancestors, Inherited(file, current, ancestors).error)
    decreases |Names(file) - ToSet(ancestors)|
  {
    if current in ancestors || FirstMissing(file, Bases(file, current)).Some? {
      path := [current];
    } else {
      Narrows(file, current, ancestors);
      var parent := FailedParent(file, Bases(file, current), ancestors + [current]);
      var tail := FailureIsExplained(file, parent, ancestors + [current]);
      PathCons(file, current, tail);
      path := [current] + tail;
      assert path[..|path| - 1] == [current] + tail[..|tail| - 1];
    }
  }

  /** The contract cannot be read exactly when a base is missing or a cycle can be reached; the message names the right one of them. */
  lemma FailsExactlyOnMissingOrCycle(file: File, contract: Name)
    requires contract in Names(file)
    ensures Declarations(file, contract).Failure? <==> MissesBase(file, contract) || HasCycle(file, contract)
    ensures Declarations(file, contract) == Failure(Cyclic) ==> HasCycle(file, contract)
    ensures Declarations(file, contract).Failure? && Declarations(file, contract).error.Missing? ==> MissesBase(file, contract)
  {
    var inherited := Inherited(file, contract, []);
    if inherited.Failure? {
      var path := FailureIsExplained(file, contract, []);
      var end := path[|path| - 1];
      assert PathTo(file, path, contract, end);
      if inherited.error.Cyclic? {
        var i :| 0 <= i < |path| - 1 && path[i] == end;
        assert Repeats(path);
      }
    } else {
      if MissesBase(file, contract) {
        var derived, base :| Reaches(file, contract, derived) && base in Bases(file, derived) && base !in Names(file);
        var path :| PathTo(file, path, contract, derived);
        PathsAreListed(file, path, []);
      }
      if HasCycle(file, contract) {
        var path :| Path(file, path) && path[0] == contract && Repeats(path);
        PathsAreListed(file, path, []);
      }
    }
  }

  // ----- order -----

  /** Every base comes before the interfaces that extend it. */
  predicate BasesFirst(file: File, names: seq<Name>) {
    forall i, b :: 0 <= i < |names| && b in Bases(file, names[i]) ==> b in names[..i]
  }

  lemma BasesFirstAppend(file: File, a: seq<Name>, b: seq<Name>)
    requires BasesFirst(file, a) && BasesFirst(file, b)
    ensures BasesFirst(file, a + b)
  {
    var c := a + b;
    forall i, base | 0 <= i < |c| && base in Bases(file, c[i])
      ensures base in c[..i]
    {
      if i < |a| {
        assert c[..i] == a[..i];
      } else {
        assert c[..i] == a + b[..i - |a|];
      }
    }
  }

  lemma BasesFirstSnoc(file: File, a: seq<Name>, x: Name)
    requires BasesFirst(file, a) && forall b :: b in Bases(file, x) ==> b in a
    ensures BasesFirst(file, a + [x])
  {
    var c := a + [x];
    forall i, base | 0 <= i < |c| && base in Bases(file, c[i])
      ensures base in c[..i]
    {
      assert c[..i] == a[..i];
    }
  }

  lemma {:induction false} ListsItself(file: File, current: Name, ancestors: seq<Name>)
    requires current in Names(file) && Inherited(file, current, ancestors).Success?
    ensures current in Inherited(file, current, ancestors).value
  {
  }

  lemma {:induction false} InheritedBasesFirst(file: File, current: Name, ancestors: seq<Name>)
    requires current in Names(file) && Inherited(file, current, ancestors).Success?
    ensures BasesFirst(file, Inherited(file, current, ancestors).value)
    decreases |Names(file) - ToSet(ancestors)|, 0
  {
    var names, longer := Bases(file, current), ancestors + [current];
    Narrows(file, current, ancestors);
    InheritedByAllBasesFirst(file, names, longer);
    forall b | b in names
      ensures b in InheritedByAll(file, names, longer).value
    {
      EachSucceeds(file, names, longer, b);
      ListsItself(file, b, longer);
    }
    BasesFirstSnoc(file, InheritedByAll(file, names, longer).value, current);
  }

  lemma {:induction false} InheritedByAllBasesFirst(file: File, names: seq<Name>, ancestors: seq<Name>)
    requires forall n :: n in names ==> n in Names(file)
    requires InheritedByAll(file, names, ancestors).Success?
    ensures BasesFirst(file, InheritedByAll(file, names, ancestors).value)
    decreases |Names(file) - ToSet(ancestors)|, 1, names
  {
    if names != [] {
      InheritedBasesFirst(file, names[0], ancestors);
      InheritedByAllBasesFirst(file, names[1..], ancestors);
      BasesFirstAppend(file, Inherited(file, names[0], ancestors).value, InheritedByAll(file, names[1..], ancestors).value);
    }
  }

  lemma {:induction false} DistinctKeepsOrder(file: File, names: seq<Name>)
    requires BasesFirst(file, names)
    ensures BasesFirst(file, Distinct(names))
  {
    if names != [] {
      var front, last := names[..|names| - 1], names[|names| - 1];
      assert names == front + [last];
      assert forall i :: 0 <= i < |front| ==> names[..i] == front[..i];
      DistinctKeepsOrder(file, front);
      DistinctHasAll(front);
      if last !in Distinct(front) {
        BasesFirstSnoc(file, Distinct(front), last);
      }
    }
  }

  /**
   Otherwise the declarations are exactly the interfaces that can be reached from the contract, each once, every base before the
   interfaces that extend it.
   */
  lemma DeclarationsAreLinearised(file: File, contract: Name)
    requires contract in Names(file) && Declarations(file, contract).Success?
    ensures NoTwice(Declarations(file, contract).value)
    ensures BasesFirst(file, Declarations(file, contract).value)
    ensures forall x :: x in Declarations(file, contract).value <==> Reaches(file, contract, x)
  {
    InheritedBasesFirst(file, contract, []);
    var inherited := Inherited(file, contract, []).value;
    DistinctKeepsOrder(file, inherited);
    DistinctHasAll(inherited);
    forall x
      ensures x in inherited <==> Reaches(file, contract, x)
    {
      if x in inherited {
        var path := ListedIsReached(file, contract, [], x);
      }
      if Reaches(file, contract, x) {
        var path :| PathTo(file, path, contract, x);
        PathsAreListed(file, path, []);
      }
    }
  }

  // ----- the order of bases -----

  lemma BasesAreNames(file: File, contract: Name, ancestors: seq<Name>)
    requires contract in Names(file) && Inherited(file, contract, ancestors).Success?
    ensures forall n :: n in Bases(file, contract) ==> n in Names(file)
    ensures InheritedByAll(file, Bases(file, contract), ancestors + [contract]).Success?
  {
  }

  lemma {:induction false} InheritedAppend(file: File, a: seq<Name>, b: seq<Name>, ancestors: seq<Name>)
    requires (forall n :: n in a ==> n in Names(file)) && (forall n :: n in b ==> n in Names(file))
    requires InheritedByAll(file, a + b, ancestors).Success?
    ensures InheritedByAll(file, a, ancestors).Success? && InheritedByAll(file, b, ancestors).Success?
    ensures InheritedByAll(file, a + b, ancestors).value
      == InheritedByAll(file, a, ancestors).value + InheritedByAll(file, b, ancestors).value
    decreases a
  {
    if a == [] {
      assert a + b == b;
    } else {
      assert (a + b)[0] == a[0] && (a + b)[1..] == a[1..] + b;
      InheritedAppend(file, a[1..], b, ancestors);
    }
  }

  /** One of the first bases of the contract leads to the interface. */
  ghost predicate ReachedByFirst(file: File, contract: Name, count: nat, x: Name)
    requires count <= |Bases(file, contract)|
  {
    exists k :: 0 <= k < count && Reaches(file, Bases(file, contract)[k], x)
  }

  lemma ListedByFirst(file: File, contract: Name, ancestors: seq<Name>, count: nat, x: Name)
    requires contract in Names(file) && count <= |Bases(file, contract)|
    requires Inherited(file, contract, ancestors).Success?
    ensures forall n :: n in Bases(file, contract)[..count] ==> n in Names(file)
    ensures InheritedByAll(file, Bases(file, contract)[..count], ancestors + [contract]).Success?
    ensures x in InheritedByAll(file, Bases(file, contract)[..count], ancestors + [contract]).value <==>
      ReachedByFirst(file, contract, count, x)
  {
    var bases, longer := Bases(file, contract), ancestors + [contract];
    var first := bases[..count];
    assert bases == first + bases[count..];
    BasesAreNames(file, contract, ancestors);
    InheritedAppend(file, first, bases[count..], longer);
    if x in InheritedByAll(file, first, longer).value {
      var base := ListedByOne(file, first, longer, x);
      var path := ListedIsReached(file, base, longer, x);
      var k :| 0 <= k < count && bases[k] == base;
      assert Reaches(file, bases[k], x);
    }
    if ReachedByFirst(file, contract, count, x) {
      var k :| 0 <= k < count && Reaches(file, bases[k], x);
      var path :| PathTo(file, path, bases[k], x);
      assert first[k] == bases[k];
      EachSucceeds(file, first, longer, bases[k]);
      PathsAreListed(file, path, longer);
    }
  }

  /**
   The bases of a contract are read in the order in which it names them: whatever one of the first bases leads to is listed before
   everything that only the later ones lead to.
   */
  lemma BasesKeepOrder(file: File, contract: Name, count: nat, x: Name, y: Name)
    requires contract in Names(file) && Declarations(file, contract).Success? && count <= |Bases(file, contract)|
    requires ReachedByFirst(file, contract, count, x) && Reaches(file, contract, y) && !ReachedByFirst(file, contract, count, y)
    ensures Precedes(Declarations(file, contract).value, x, y)
  {
    var bases := Bases(file, contract);
    var first, last := bases[..count], bases[count..];
    assert bases == first + last;
    assert [] + [contract] == [contract];
    BasesAreNames(file, contract, []);
    InheritedAppend(file, first, last, [contract]);
    ListedByFirst(file, contract, [], count, x);
    ListedByFirst(file, contract, [], count, y);
    var front := InheritedByAll(file, first, [contract]).value;
    var back := InheritedByAll(file, last, [contract]).value + [contract];
    assert Inherited(file, contract, []).value == front + back;
    DeclarationsAreLinearised(file, contract);
    DistinctHasAll(Inherited(file, contract, []).value);
    DistinctKeepsFirst(front, back, x, y);
  }

  // ----- a declaration inside generated text -----

  datatype TextError = NoDeclaration | Incomplete

  /** `indexOf`: the first place at or after `from` where the pattern stands. */
  function IndexOf(text: string, pattern: string, from: nat): (found: Option<nat>)
    requires from <= |text|
    ensures found.Some? ==> from <= found.value <= |text|
    decreases |text| - from
  {
    if pattern <= text[from..] then Some(from) else if from == |text| then None else IndexOf(text, pattern, from + 1)
  }

  /** The pattern stands at this place. */
  predicate StandsAt(text: string, pattern: string, at: nat) {
    at + |pattern| <= |text| && text[at..at + |pattern|] == pattern
  }

  lemma {:induction false} IndexOfIsFirst(text: string, pattern: string, from: nat, at: nat)
    requires from <= |text|
    ensures IndexOf(text, pattern, from) == Some(at) <==>
      from <= at && StandsAt(text, pattern, at) && forall i :: from <= i < at ==> !StandsAt(text, pattern, i)
    decreases |text| - from
  {
    assert pattern <= text[from..] <==> StandsAt(text, pattern, from);
    if from < |text| {
      IndexOfIsFirst(text, pattern, from + 1, at);
    }
  }

  /** A text without the mention has no declaration to cut out. */
  lemma {:induction false} NoMention(text: string, pattern: string, from: nat)
    requires from <= |text|
    ensures IndexOf(text, pattern, from) == None <==> forall i :: from <= i <= |text| ==> !StandsAt(text, pattern, i)
    decreases |text| - from
  {
    assert pattern <= text[from..] <==> StandsAt(text, pattern, from);
    if from < |text| {
      NoMention(text, pattern, from + 1);
    }
  }

  lemma {:induction false} FirstBrace(text: string, from: nat, at: nat)
    requires from <= at < |text| && text[at] == '{' && forall i :: from <= i < at ==> text[i] != '{'
    ensures IndexOf(text, "{", from) == Some(at)
    decreases at - from
  {
    assert text[from..][0] == text[from];
    if from < at {
      FirstBrace(text, from + 1, at);
    }
  }

  /** The brace that brings the depth back to zero. */
  function Closing(source: string, index: nat, depth: int): (closing: Option<nat>)
    requires index <= |source|
    ensures closing.Some? ==> index <= closing.value < |source| && source[closing.value] == '}'
    decreases |source| - index
  {
    if index == |source| then None
    else if source[index] == '{' then Closing(source, index + 1, depth + 1)
    else if source[index] == '}' then if depth == 1 then Some(index) else Closing(source, index + 1, depth - 1)
    else Closing(source, index + 1, depth)
  }

  /** `slice`, empty when the end lies before the start. */
  function Slice(source: string, start: nat, end: nat): string
    requires start <= |source| && end <= |source|
  {
    if start <= end then source[start..end] else ""
  }

  function Mention(name: Name): string {
    "interface " + name
  }

  /** Without an opening brace after the name the search starts at the beginning of the text. */
  function Embedded(source: string, mention: string): Result<string, TextError> {
    var start := IndexOf(source, mention, 0);
    if start.None? then Failure(NoDeclaration)
    else
      var brace := IndexOf(source, "{", start.value);
      var closing := Closing(source, if brace.Some? then brace.value else 0, 0);
      if closing.None? then Failure(Incomplete) else Success(Slice(source, start.value, closing.value + 1))
  }

  method EmbeddedDeclaration(source: string, name: Name) returns (text: Result<string, TextError>)
    ensures text == Embedded(source, Mention(name))
  {
    var start := IndexOf(source, Mention(name), 0);
    if start.None? {
      return Failure(NoDeclaration);
    }
    var brace := IndexOf(source, "{", start.value);
    var depth := 0;
    var index := if brace.Some? then brace.value else 0;
    ghost var closing := Closing(source, index, 0);
    while index < |source|
      invariant index <= |source|
      invariant Closing(source, index, depth) == closing
    {
      if source[index] == '{' {
        depth := depth + 1;
      }
      if source[index] == '}' {
        depth := depth - 1;
        if depth == 0 {
          return Success(Slice(source, start.value, index + 1));
        }
      }
      index := index + 1;
    }
    return Failure(Incomplete);
  }

  /** Every brace of the text is matched, given the number of braces open before it. */
  predicate Nested(text: string, depth: nat) {
    if text == "" then depth == 0
    else if text[0] == '{' then Nested(text[1..], depth + 1)
    else if text[0] == '}' then depth > 0 && Nested(text[1..], depth - 1)
    else Nested(text[1..], depth)
  }

  /** The closing brace is found exactly behind the text that closes what is open. */
  lemma {:induction false} ClosesAfterNested(source: string, index: nat, end: nat, depth: nat)
    requires index <= end < |source|
    ensures Closing(source, index, depth + 1) == Some(end) <==> source[end] == '}' && Nested(source[index..end], depth)
    decreases end - index
  {
    if index < end {
      assert source[index..end][1..] == source[index + 1..end];
      if source[index] == '{' {
        ClosesAfterNested(source, index + 1, end, depth + 1);
      } else if source[index] != '}' {
        ClosesAfterNested(source, index + 1, end, depth);
      } else if depth > 0 {
        ClosesAfterNested(source, index + 1, end, depth - 1);
      }
    } else {
      assert source[index..end] == "";
      if source[end] != '}' {
        NeverBefore(source, end, depth);
      }
    }
  }

  lemma NeverBefore(source: string, end: nat, depth: nat)
    requires end < |source| && source[end] != '}'
    ensures Closing(source, end, depth + 1) != Some(end)
  {
  }

  function Declared(mention: string, header: string, body: string): string {
    mention + header + "{" + body + "}"
  }

  lemma DeclaredAt(before: string, mention: string, header: string, body: string, after: string)
    ensures var source, opening := before + Declared(mention, header, body) + after, |before| + |mention| + |header|;
      && opening + |body| + 1 < |source|
      && source[opening] == '{' && source[opening + 1..opening + 1 + |body|] == body && source[opening + 1 + |body|] == '}'
      && source[|before|..opening + |body| + 2] == Declared(mention, header, body)
      && source[|before|..opening] == mention + header
  {
  }

  /** Of two slices from the same place, the longer one is another text. */
  lemma LengthTells(source: string, start: nat, opening: nat, length: nat)
    requires start <= opening && opening + length + 1 < |source| && source[opening] == '{'
    ensures forall closing :: Closing(source, opening, 0) == Some(closing) ==>
      (|Slice(source, start, closing + 1)| == opening + length + 2 - start <==> closing == opening + 1 + length)
  {
  }

  lemma EmbeddedAt(source: string, mention: string, start: nat, opening: nat, length: nat)
    requires IndexOf(source, mention, 0) == Some(start)
    requires start <= opening && opening + length + 1 < |source|
    requires source[opening] == '{' && source[opening + 1 + length] == '}' && forall i :: start <= i < opening ==> source[i] != '{'
    ensures Embedded(source, mention) == Success(source[start..opening + length + 2])
      <==> Nested(source[opening + 1..opening + 1 + length], 0)
  {
    FirstBrace(source, start, opening);
    ClosesAfterNested(source, opening + 1, opening + 1 + length, 0);
    LengthTells(source, start, opening, length);
  }

  /**
   For text whose first mention of the name opens a declaration, with no brace before the opening one: the declaration is returned
   exactly when the braces of its body match.
   */
  lemma EmbeddedIsFound(before: string, mention: string, header: string, body: string, after: string)
    requires IndexOf(before + Declared(mention, header, body) + after, mention, 0) == Some(|before|)
    requires '{' !in mention + header
    ensures Embedded(before + Declared(mention, header, body) + after, mention) == Success(Declared(mention, header, body))
      <==> Nested(body, 0)
  {
    var source, opening := before + Declared(mention, header, body) + after, |before| + |mention| + |header|;
    DeclaredAt(before, mention, header, body, after);
    forall i | |before| <= i < opening
      ensures source[i] != '{'
    {
      assert source[i] == source[|before|..opening][i - |before|];
    }
    EmbeddedAt(source, mention, |before|, opening, |body|);
  }

  /** The same for the interface of a name. */
  lemma EmbeddedInterfaceIsFound(before: string, name: Name, header: string, body: string, after: string)
    requires IndexOf(before + Declared("interface " + name, header, body) + after, "interface " + name, 0) == Some(|before|)
    requires '{' !in "interface " + name + header
    ensures Embedded(before + Declared("interface " + name, header, body) + after, Mention(name))
        == Success(Declared("interface " + name, header, body))
      <==> Nested(body, 0)
  {
    EmbeddedIsFound(before, "interface " + name, header, body, after);
  }
}
