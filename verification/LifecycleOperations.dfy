/**
 * Start, stop and restart of one computer, journalled so that recovery acts on the recorded containers
 * only. The process may die or fail at any effect, and Docker may apply a command to part of its list.
 * Models packages/cli/src/lifecycle-operations.ts.
 */
module LifecycleOperations {
  import opened Wrappers
  import opened Sorting
  import opened ManagedRuntime

  datatype Operation = Start | Stop | Restart
  datatype Source = WasAbsent | Retained
  datatype Verb = DoUnpause | DoStart | DoStop | DoRestart

  datatype Journal = Journal(operationId: string, installationId: string, computerId: string, operation: Operation,
                             source: Source, containers: seq<Binding>)

  /** parseComputerLifecycleJournal accepts the document. */
  predicate JournalParses(j: Journal) {
    && (j.source == WasAbsent ==> j.operation == Start && j.containers == [])
    && (j.source == Retained ==> j.containers != [])
    && UniqueBy(j.containers, BindingId) && UniqueBy(j.containers, BindingName)
  }

  predicate Safe(status: Status) {
    status in {IsRunning, IsRestarting, IsPaused, IsExited, IsCreated}
  }

  /** sameRuntimeBindings: the same immutable containers, whatever their status. */
  predicate SameBindings(left: seq<Binding>, right: seq<Binding>) {
    |left| == |right| && forall x :: x in left ==> exists y :: y in right && SameContainer(x, y)
  }

  // ----- Docker's contract for one container -----

  function After(verb: Verb, status: Status): Status {
    match verb
    case DoUnpause => if status == IsPaused then IsRunning else status
    case DoStart => if status in {IsExited, IsCreated} then IsRunning else status
    case DoStop => if status in {IsRunning, IsRestarting, IsPaused} then IsExited else status
    case DoRestart => IsRunning
  }

  function Apply(runtime: seq<Binding>, ids: seq<string>, verb: Verb): seq<Binding> {
    Map(runtime, (b: Binding) => if b.id in ids then b.(status := After(verb, b.status)) else b)
  }

  /** The state an operation leads every one of its containers to. */
  function Goal(operation: Operation): Status {
    if operation == Stop then IsExited else IsRunning
  }

  predicate Fits(operation: Operation, verb: Verb) {
    match operation
    case Start => verb in {DoUnpause, DoStart}
    case Stop => verb == DoStop
    case Restart => verb == DoRestart
  }

  /** The states the journalled containers are in when the operation begins. */
  predicate Begun(operation: Operation, status: Status) {
    match operation
    case Start => status in {IsPaused, IsExited, IsCreated}
    case Stop => status in {IsRunning, IsRestarting, IsPaused}
    case Restart => Safe(status)
  }

  predicate DesiredStatus(operation: Operation, status: Status) {
    if operation == Stop then status in {IsExited, IsCreated} else status == IsRunning
  }

  /**
   * A retained group part of the way from its recorded state to the goal; a restart may have stopped and not yet
   * started.
   */
  predicate Underway(j: Journal, runtime: seq<Binding>) {
    && |runtime| == |j.containers|
    && forall i :: 0 <= i < |runtime| ==>
         && SameContainer(j.containers[i], runtime[i])
         && Begun(j.operation, j.containers[i].status)
         && (|| runtime[i].status == j.containers[i].status || runtime[i].status == Goal(j.operation)
             || (j.operation == Restart && runtime[i].status == IsExited))
  }

  /** What Compose may have created for an absent computer, in any part. */
  predicate Created(expected: seq<string>, image: string, runtime: seq<Binding>) {
    && |runtime| <= |expected|
    && forall b :: b in runtime ==> b.name in expected && b.imageId == image && Safe(b.status)
  }

  lemma CommandStaysUnderway(j: Journal, runtime: seq<Binding>, ids: seq<string>, verb: Verb)
    requires Underway(j, runtime) && Fits(j.operation, verb)
    ensures Underway(j, Apply(runtime, ids, verb))
  {
  }

  lemma HalfRestartStaysUnderway(j: Journal, runtime: seq<Binding>, ids: seq<string>)
    requires Underway(j, runtime) && j.operation == Restart
    ensures Underway(j, Apply(runtime, ids, DoStop))
  {
  }

  /** An operation applied to part of its containers, then to all of them, has reached its goal everywhere. */
  lemma CommandReaches(j: Journal, runtime: seq<Binding>, ids: seq<string>, verb: Verb)
    requires Underway(j, runtime) && j.operation in {Stop, Restart} && Fits(j.operation, verb)
    requires ids == Map(j.containers, BindingId)
    ensures forall b :: b in Apply(runtime, ids, verb) ==> b.status == Goal(j.operation)
  {
    var after := Apply(runtime, ids, verb);
    forall i | 0 <= i < |after|
      ensures after[i].status == Goal(j.operation)
    {
      assert ids[i] == runtime[i].id;
    }
  }

  predicate Shows(runtime: seq<Binding>, id: string, statuses: set<Status>) {
    exists b :: b in runtime && b.id == id && b.status in statuses
  }

  /** The recorded containers that are currently in one of some states, in recorded order. */
  function IdsWith(containers: seq<Binding>, runtime: seq<Binding>, statuses: set<Status>): seq<string> {
    if containers == [] then []
    else (if Shows(runtime, containers[0].id, statuses) then [containers[0].id] else [])
         + IdsWith(containers[1..], runtime, statuses)
  }

  predicate Names(containers: seq<Binding>, id: string) {
    exists x :: x in containers && x.id == id
  }

  lemma {:induction false} IdsWithAre(containers: seq<Binding>, runtime: seq<Binding>, statuses: set<Status>,
                                      id: string)
    ensures id in IdsWith(containers, runtime, statuses) <==> Names(containers, id) && Shows(runtime, id, statuses)
  {
    if containers != [] {
      IdsWithAre(containers[1..], runtime, statuses, id);
      assert containers == [containers[0]] + containers[1..];
    }
  }

  function Reversed(ids: seq<string>): seq<string> {
    if ids == [] then [] else Reversed(ids[1..]) + [ids[0]]
  }

  lemma {:induction false} ReversedElements(ids: seq<string>)
    ensures forall id :: id in Reversed(ids) <==> id in ids
  {
    if ids != [] {
      ReversedElements(ids[1..]);
      assert ids == [ids[0]] + ids[1..];
    }
  }

  /** Unpausing what was paused and starting what was stopped runs the whole retained group. */
  lemma StartReaches(j: Journal, runtime: seq<Binding>, paused: seq<string>, stopped: seq<string>)
    requires Underway(j, runtime) && j.operation == Start
    requires paused == IdsWith(j.containers, runtime, {IsPaused})
    requires stopped == Reversed(IdsWith(j.containers, runtime, {IsExited, IsCreated}))
    ensures forall b :: b in Apply(Apply(runtime, paused, DoUnpause), stopped, DoStart) ==> b.status == IsRunning
  {
    hide IdsWith, Reversed;
    var after := Apply(Apply(runtime, paused, DoUnpause), stopped, DoStart);
    forall i | 0 <= i < |after|
      ensures after[i].status == IsRunning
    {
      var id := runtime[i].id;
      assert j.containers[i] in j.containers && runtime[i] in runtime;
      IdsWithAre(j.containers, runtime, {IsPaused}, id);
      IdsWithAre(j.containers, runtime, {IsExited, IsCreated}, id);
      ReversedElements(IdsWith(j.containers, runtime, {IsExited, IsCreated}));
      assert runtime[i].status == IsPaused ==> id in paused;
      assert runtime[i].status in {IsExited, IsCreated} ==> id in stopped;
    }
  }

  lemma UnderwayMatches(j: Journal, runtime: seq<Binding>)
    requires Underway(j, runtime)
    ensures SameBindings(j.containers, runtime)
    ensures forall b :: b in runtime ==> Safe(b.status)
  {
    forall x | x in j.containers
      ensures exists y :: y in runtime && SameContainer(x, y)
    {
      var i :| 0 <= i < |j.containers| && j.containers[i] == x;
      assert runtime[i] in runtime;
    }
  }

  lemma NamesObserved(expected: seq<string>, runtime: seq<Binding>)
    requires forall b :: b in runtime ==> b.name in expected
    ensures Observe(expected, runtime).containers == runtime
    ensures runtime != [] && |runtime| == |expected| && Uniform(runtime) ==>
              Observe(expected, runtime) == Observation(runtime[0].status, Complete, runtime)
  {
  }

  lemma SameNames(j: Journal, runtime: seq<Binding>, expected: seq<string>)
    requires Underway(j, runtime) && forall x :: x in j.containers ==> x.name in expected
    ensures forall b :: b in runtime ==> b.name in expected
  {
    forall b | b in runtime
      ensures b.name in expected
    {
      var i :| 0 <= i < |runtime| && runtime[i] == b;
      assert j.containers[i] in j.containers;
    }
  }

  /** A group that is the same everywhere is observed complete in that state. */
  lemma ReachedObserved(expected: seq<string>, runtime: seq<Binding>, status: Status)
    requires runtime != [] && |runtime| == |expected|
    requires forall b :: b in runtime ==> b.name in expected && b.status == status
    ensures Observe(expected, runtime) == Observation(status, Complete, runtime)
  {
    assert runtime[0] in runtime;
    assert Uniform(runtime);
    NamesObserved(expected, runtime);
  }

  lemma ApplyOneMore(runtime: seq<Binding>, ids: seq<string>, i: nat, verb: Verb)
    requires i < |ids|
    ensures Apply(Apply(runtime, ids[..i], verb), [ids[i]], verb) == Apply(runtime, ids[..i + 1], verb)
  {
    assert ids[..i + 1] == ids[..i] + [ids[i]];
  }

  lemma ApplyNothing(runtime: seq<Binding>, verb: Verb)
    ensures Apply(runtime, [], verb) == runtime
  {
  }

  predicate DockerUnique(runtime: seq<Binding>) {
    UniqueBy(runtime, BindingId) && UniqueBy(runtime, BindingName)
  }

  lemma BegunIsUnderway(j: Journal, runtime: seq<Binding>)
    requires j.containers == runtime && forall b :: b in runtime ==> Begun(j.operation, b.status)
    ensures Underway(j, runtime)
  {
    forall i | 0 <= i < |runtime|
      ensures Begun(j.operation, runtime[i].status)
    {
      assert runtime[i] in runtime;
    }
  }

  lemma CompleteObservation(expected: seq<string>, runtime: seq<Binding>)
    ensures var o := Observe(expected, runtime);
            o.group == Complete ==>
              && o.containers == runtime && |runtime| == |expected| && runtime != []
              && forall b :: b in runtime ==> b.name in expected && b.status == o.status
  {
  }

  function Fresh(image: string): string -> Binding {
    name => Binding(name, name, IsRunning, image, "computer", None)
  }

  /** The configured computer, its containers, and the process that operates on them. */
  class Computer {
    const installationId: string
    const computerId: string
    const expected: seq<string>
    /** The pinned bytes of the configured image, and the bytes Compose resolves it to. */
    const contentId: Option<string>
    const image: string
    /** When false, no effect fails, the process does not die, and nobody else changes the containers. */
    var faulty: bool
    var runtime: seq<Binding>
    var journal: Option<Journal>

    ghost predicate Consistent(j: Journal)
      reads this`runtime
    {
      && JournalParses(j) && j.installationId == installationId && j.computerId == computerId
      && (j.source == Retained ==>
            && Underway(j, runtime) && |j.containers| == |expected|
            && forall x :: x in j.containers ==> x.name in expected)
      && (j.source == WasAbsent ==>
            Created(expected, image, runtime) && (contentId.Some? ==> contentId.value == image))
    }

    /** What holds between any two effects. */
    ghost predicate Recoverable()
      reads this`runtime, this`journal
    {
      expected != [] && (journal.Some? ==> Consistent(journal.value))
    }

    constructor (installationId: string, computerId: string, expected: seq<string>, contentId: Option<string>,
                 image: string, runtime: seq<Binding>)
      requires expected != []
      ensures Recoverable() && journal.None? && this.runtime == runtime
    {
      this.installationId, this.computerId, this.expected := installationId, computerId, expected;
      this.contentId, this.image, this.runtime, faulty, journal := contentId, image, runtime, true, None;
    }

    /** assertRecoverableAbsentStart */
    predicate RecoverableAbsent(o: Observation) {
      || (o.group == AbsentGroup && o.status == IsAbsent)
      || (o.containers != [] && contentId.Some?
         && forall b :: b in o.containers ==> b.imageId == contentId.value && Safe(b.status))
    }

    /** The complete group is observed in the desired state, with the recorded or the pinned containers. */
    predicate Desired(j: Journal)
      reads this`runtime
    {
      var o := Observe(expected, runtime);
      && o.group == Complete && DesiredStatus(j.operation, o.status)
      && (j.source == Retained ==> SameBindings(j.containers, o.containers))
      && (j.source == WasAbsent ==> RecoverableAbsent(o))
    }

    // ----- effects -----

    /** Gateway, network, health and policy calls that change none of this computer's containers. */
    method External() returns (e: Effect)
      ensures !faulty ==> e.Ok?
    {
      var failed, died: bool := *, *;
      return if faulty && failed then if died then Crashed else Failed else Ok;
    }

    /** Preparation before any journal exists; the containers may change meanwhile. */
    method Prepare() returns (e: Effect)
      requires journal.None? && DockerUnique(runtime)
      modifies this`runtime
      ensures DockerUnique(runtime)
      ensures !faulty ==> e.Ok? && runtime == old(runtime)
    {
      var other: seq<Binding> := *;
      if faulty && DockerUnique(other) { runtime := other; }
      e := External();
    }

    method Observed() returns (e: Effect, o: Observation)
      ensures o == Observe(expected, runtime)
      ensures !faulty ==> e.Ok?
    {
      var failed: bool := *;
      return if faulty && failed then Failed else Ok, Observe(expected, runtime);
    }

    method WriteJournal(next: Journal) returns (e: Effect)
      modifies this`journal
      ensures journal == old(journal) || journal == Some(next)
      ensures e.Ok? ==> journal == Some(next)
      ensures !faulty ==> e.Ok?
    {
      var failed, lost, died: bool := *, *, *;
      if faulty && failed {
        if !lost { journal := Some(next); }
        return if died then Crashed else Failed;
      }
      journal := Some(next);
      return Ok;
    }

    /** clearComputerLifecycleJournal: only its own journal, only in the desired state. */
    method ClearJournal(j: Journal) returns (e: Effect)
      requires journal == Some(j) && Desired(j)
      modifies this`journal
      ensures journal == old(journal) || journal.None?
      ensures e.Ok? ==> journal.None?
      ensures !faulty ==> e.Ok?
    {
      var failed, lost, died: bool := *, *, *;
      if faulty && failed {
        if !lost { journal := None; }
        return if died then Crashed else Failed;
      }
      journal := None;
      return Ok;
    }

    /**
     * A container command: allowed only for recorded containers of the operation, and cut anywhere, also
     * between the stop and the start of a restart.
     */
    method Command(verb: Verb, ids: seq<string>) returns (e: Effect)
      requires Recoverable() && journal.Some? && journal.value.source == Retained && Fits(journal.value.operation, verb)
      requires forall id :: id in ids ==> Names(journal.value.containers, id)
      modifies this`runtime
      ensures Recoverable()
      ensures e.Ok? ==> runtime == Apply(old(runtime), ids, verb)
      ensures !faulty ==> e.Ok?
    {
      hide Apply, Underway, After;
      ApplyNothing(runtime, verb);
      for i := 0 to |ids|
        invariant Recoverable() && runtime == Apply(old(runtime), ids[..i], verb)
      {
        var cut, died: bool := *, *;
        if faulty && cut {
          var stopped: bool := *;
          if verb == DoRestart && stopped {
            HalfRestartStaysUnderway(journal.value, runtime, [ids[i]]);
            runtime := Apply(runtime, [ids[i]], DoStop);
          }
          return if died then Crashed else Failed;
        }
        CommandStaysUnderway(journal.value, runtime, [ids[i]], verb);
        ApplyOneMore(old(runtime), ids, i, verb);
        runtime := Apply(runtime, [ids[i]], verb);
      }
      assert ids[..|ids|] == ids;
      var late: bool := *;
      return if faulty && late then Crashed else Ok;
    }

    /** `compose up` of an absent computer: creates and starts any part of it, or all of it. */
    method StartAbsent() returns (e: Effect)
      requires Recoverable() && journal.Some? && journal.value.source == WasAbsent
      modifies this`runtime
      ensures Recoverable()
      ensures e.Ok? ==> |runtime| == |expected| && forall b :: b in runtime ==> b.status == IsRunning
      ensures !faulty ==> e.Ok?
    {
      var failed, died: bool := *, *;
      var next: seq<Binding> := *;
      if faulty && failed {
        if Created(expected, image, next) { runtime := next; }
        return if died then Crashed else Failed;
      }
      if Created(expected, image, next) && |next| == |expected| && forall b :: b in next ==> b.status == IsRunning {
        runtime := next;
      } else {
        runtime := Map(expected, Fresh(image));
      }
      e := External();
    }

    // ----- shared steps -----

    /** assertRecoveredRuntimeState */
    method AssertRecovered(j: Journal) returns (e: Effect)
      ensures e.Ok? ==> Desired(j)
      ensures !faulty ==> (e.Ok? <==> Desired(j))
    {
      var o;
      e, o := Observed();
      if !e.Ok? { return; }
      if !Desired(j) { return Failed; }
    }

    /** startRetainedRuntime: unpause what is paused, start what is stopped, in reverse order. */
    method StartRetained(j: Journal, o: Observation) returns (e: Effect)
      requires Recoverable() && journal == Some(j) && j.source == Retained && j.operation == Start
      requires o.containers == runtime
      modifies this`runtime
      ensures Recoverable()
      ensures e.Ok? ==> forall b :: b in runtime ==> b.status == IsRunning
      ensures !faulty ==> e.Ok?
    {
      UnderwayMatches(j, runtime);
      ghost var before := runtime;
      var paused := IdsWith(j.containers, o.containers, {IsPaused});
      var stopped := Reversed(IdsWith(j.containers, o.containers, {IsExited, IsCreated}));
      IdsNamed(j.containers, runtime);
      ReversedElements(IdsWith(j.containers, o.containers, {IsExited, IsCreated}));
      hide Apply, Underway, IdsWith, Reversed;
      e := Command(DoUnpause, paused);
      if !e.Ok? { return; }
      e := Command(DoStart, stopped);
      if !e.Ok? { return; }
      StartReaches(j, before, paused, stopped);
      e := External();
    }

    /** `docker stop` or `docker restart` of every recorded container. */
    method CommandAll(j: Journal) returns (e: Effect)
      requires Recoverable() && journal == Some(j) && j.source == Retained && j.operation in {Stop, Restart}
      modifies this`runtime
      ensures Recoverable()
      ensures e.Ok? ==> forall b :: b in runtime ==> b.status == Goal(j.operation)
      ensures !faulty ==> e.Ok?
    {
      hide Apply, Underway, After;
      var ids := Map(j.containers, BindingId);
      AllNamed(j.containers);
      ghost var before := runtime;
      var verb := if j.operation == Stop then DoStop else DoRestart;
      e := Command(verb, ids);
      if !e.Ok? { return; }
      CommandReaches(j, before, ids, verb);
    }

    lemma Reached(j: Journal)
      requires Consistent(j) && j.source == Retained && expected != []
      requires forall b :: b in runtime ==> b.status == Goal(j.operation)
      ensures Desired(j)
    {
      SameNames(j, runtime, expected);
      UnderwayMatches(j, runtime);
      ReachedObserved(expected, runtime, Goal(j.operation));
    }

    lemma AbsentReached(j: Journal)
      requires Consistent(j) && j.source == WasAbsent && expected != []
      requires |runtime| == |expected| && forall b :: b in runtime ==> b.status == IsRunning
      ensures Desired(j) <==> contentId.Some?
    {
      ReachedObserved(expected, runtime, IsRunning);
    }

    /** Whatever becomes of it, an absent start of an unpinned image never reaches the state that ends it. */
    lemma UnpinnedStartNeverEnds(j: Journal)
      requires j.source == WasAbsent && contentId.None?
      ensures !Desired(j)
    {
      CompleteObservation(expected, runtime);
    }

    // ----- recovery -----

    /** recoverPendingComputerLifecycle */
    method Recover() returns (e: Effect)
      requires Recoverable()
      modifies this`runtime, this`journal
      ensures Recoverable()
      ensures journal == old(journal) || (journal.None? && Desired(old(journal).value))
      ensures e.Ok? ==> journal.None?
      ensures !faulty ==> (e.Ok? <==> old(journal).None? || old(journal).value.source == Retained || contentId.Some?)
    {
      hide Underway, Observe, SameBindings;
      if journal.None? { return Ok; }
      var j := journal.value;
      if j.installationId != installationId || j.computerId != computerId { return Failed; }
      e := External();
      if !e.Ok? { return; }
      var o;
      e, o := Observed();
      if !e.Ok? { return; }
      if j.source == Retained {
        e := RecoverRetained(j, o);
      } else {
        e := RecoverAbsent(j, o);
      }
      if !e.Ok? { return; }
      e := ClearJournal(j);
    }

    method RecoverRetained(j: Journal, o: Observation) returns (e: Effect)
      requires Recoverable() && journal == Some(j) && j.source == Retained && o == Observe(expected, runtime)
      modifies this`runtime
      ensures Recoverable()
      ensures e.Ok? ==> Desired(j)
      ensures !faulty ==> e.Ok?
    {
      UnderwayMatches(j, runtime);
      SameNames(j, runtime, expected);
      NamesObserved(expected, runtime);
      hide Underway, Observe, SameBindings, Apply, Desired;
      if !SameBindings(j.containers, o.containers) || exists b :: b in o.containers && !Safe(b.status) {
        return Failed;
      }
      if j.operation == Start {
        e := StartRetained(j, o);
        if !e.Ok? { return; }
      } else {
        e := CommandAll(j);
        if !e.Ok? { return; }
        e := External();
        if !e.Ok? { return; }
      }
      Reached(j);
      e := AssertRecovered(j);
    }

    method RecoverAbsent(j: Journal, o: Observation) returns (e: Effect)
      requires Recoverable() && journal == Some(j) && j.source == WasAbsent && o == Observe(expected, runtime)
      modifies this`runtime
      ensures Recoverable()
      ensures e.Ok? ==> Desired(j)
      ensures !faulty ==> (e.Ok? <==> contentId.Some?)
    {
      CreatedObserved(expected, image, runtime);
      if !RecoverableAbsent(o) { return Failed; }
      if o.group != Complete || o.status != IsRunning {
        e := StartAbsent();
        if !e.Ok? { return; }
      } else {
        CompleteObservation(expected, runtime);
      }
      AbsentReached(j);
      hide Observe, Desired;
      e := AssertRecovered(j);
      if !e.Ok? { return; }
      e := External();
    }

    // ----- the operations -----

    /** assertLifecycleGroup */
    predicate LifecycleGroup(o: Observation, allowAbsent: bool) {
      match o.group
      case Partial => false
      case Inconsistent => false
      case AbsentGroup => allowAbsent && o.status == IsAbsent
      case Complete => Safe(o.status)
    }

    /** A start can end on what is observed; an absent computer also needs its pinned bytes. */
    predicate CanStart(o: Observation) {
      LifecycleGroup(o, true) && (o.group == AbsentGroup ==> contentId == Some(image))
    }

    /** startManagedComputer */
    method StartComputer(operationId: string) returns (e: Effect)
      requires Recoverable() && DockerUnique(runtime)
      modifies this`runtime, this`journal
      ensures Recoverable()
      ensures old(journal).Some? ==> e.Failed? && journal == old(journal) && runtime == old(runtime)
      ensures e.Ok? ==>
                journal.None? && Observe(expected, runtime).group == Complete
                  && Observe(expected, runtime).status in {IsRunning, IsRestarting}
      ensures !faulty && old(journal).None? ==> (e.Ok? <==> CanStart(Observe(expected, old(runtime))))
    {
      SameBindingsReflexive(Observe(expected, runtime).containers);
      hide Underway, Observe, SameBindings, Apply;
      if journal.Some? { return Failed; }
      var o;
      e, o := Observed();
      if !e.Ok? { return; }
      if !LifecycleGroup(o, true) { return Failed; }
      var absent := o.group == AbsentGroup;
      if absent && contentId.Some? && contentId.value != image { return Failed; }
      e := Prepare();
      if !e.Ok? { return; }
      var current;
      e, current := Observed();
      if !e.Ok? { return; }
      if absent {
        if current.group != AbsentGroup || current.status != IsAbsent { return Failed; }
        e := StartWasAbsent(operationId);
        return;
      }
      if !LifecycleGroup(current, false) || !SameBindings(o.containers, current.containers) { return Failed; }
      if current.status in {IsPaused, IsExited, IsCreated} {
        e := StartWasRetained(operationId, current);
        return;
      }
      e := External();
    }

    method StartWasAbsent(operationId: string) returns (e: Effect)
      requires Recoverable() && journal.None? && Observe(expected, runtime).group == AbsentGroup
      requires contentId.Some? ==> contentId.value == image
      modifies this`runtime, this`journal
      ensures Recoverable()
      ensures e.Ok? ==>
                journal.None? && Observe(expected, runtime).group == Complete
                  && Observe(expected, runtime).status == IsRunning
      ensures !faulty ==> (e.Ok? <==> contentId.Some?)
    {
      AbsentObservation(expected, runtime);
      var j := Journal(operationId, installationId, computerId, Start, WasAbsent, []);
      e := WriteJournal(j);
      if !e.Ok? { return; }
      e := StartAbsent();
      if !e.Ok? { return; }
      AbsentReached(j);
      e := AssertRecovered(j);
      if !e.Ok? { return; }
      e := External();
      if !e.Ok? { return; }
      e := ClearJournal(j);
    }

    /** The journal of an operation on retained containers records exactly what was observed. */
    method Begin(operation: Operation, operationId: string, o: Observation) returns (e: Effect, j: Journal)
      requires Recoverable() && journal.None? && DockerUnique(runtime)
      requires o == Observe(expected, runtime) && o.group == Complete && Begun(operation, o.status)
      modifies this`journal
      ensures j.source == Retained && j.operation == operation && j.containers == runtime
      ensures Recoverable() && (journal.None? || journal == Some(j))
      ensures e.Ok? ==> journal == Some(j)
      ensures !faulty ==> e.Ok?
    {
      j := Journal(operationId, installationId, computerId, operation, Retained, o.containers);
      CompleteObservation(expected, runtime);
      BegunIsUnderway(j, runtime);
      e := WriteJournal(j);
    }

    method StartWasRetained(operationId: string, o: Observation) returns (e: Effect)
      requires Recoverable() && journal.None? && DockerUnique(runtime)
      requires o == Observe(expected, runtime) && o.group == Complete && o.status in {IsPaused, IsExited, IsCreated}
      modifies this`runtime, this`journal
      ensures Recoverable()
      ensures e.Ok? ==>
                journal.None? && Observe(expected, runtime).group == Complete
                  && Observe(expected, runtime).status == IsRunning
      ensures !faulty ==> e.Ok?
    {
      CompleteObservation(expected, runtime);
      var j;
      e, j := Begin(Start, operationId, o);
      if !e.Ok? { return; }
      hide Underway, Observe;
      e := StartRetained(j, o);
      if !e.Ok? { return; }
      Reached(j);
      e := AssertRecovered(j);
      if !e.Ok? { return; }
      e := External();
      if !e.Ok? { return; }
      e := ClearJournal(j);
    }

    /** stopManagedComputer */
    method StopComputer(operationId: string) returns (e: Effect)
      requires Recoverable() && DockerUnique(runtime)
      modifies this`runtime, this`journal
      ensures Recoverable()
      ensures old(journal).Some? ==> e.Failed? && journal == old(journal) && runtime == old(runtime)
      ensures e.Ok? ==>
                journal.None? && Observe(expected, runtime).group == Complete
                  && Observe(expected, runtime).status in {IsExited, IsCreated}
      ensures !faulty && old(journal).None? ==> (e.Ok? <==> LifecycleGroup(Observe(expected, old(runtime)), false))
    {
      hide Underway, Observe;
      if journal.Some? { return Failed; }
      e := External();
      if !e.Ok? { return; }
      var o;
      e, o := Observed();
      if !e.Ok? { return; }
      if !LifecycleGroup(o, false) { return Failed; }
      if o.status in {IsExited, IsCreated} { return Ok; }
      var j;
      e, j := Begin(Stop, operationId, o);
      if !e.Ok? { return; }
      e := CommandAll(j);
      if !e.Ok? { return; }
      Reached(j);
      e := AssertRecovered(j);
      if !e.Ok? { return; }
      e := ClearJournal(j);
    }

    /** restartManagedComputer */
    method RestartComputer(operationId: string) returns (e: Effect)
      requires Recoverable() && DockerUnique(runtime)
      modifies this`runtime, this`journal
      ensures Recoverable()
      ensures old(journal).Some? ==> e.Failed? && journal == old(journal) && runtime == old(runtime)
      ensures e.Ok? ==>
                journal.None? && Observe(expected, runtime).group == Complete
                  && Observe(expected, runtime).status == IsRunning
      ensures !faulty && old(journal).None? ==> (e.Ok? <==> LifecycleGroup(Observe(expected, old(runtime)), false))
    {
      SameBindingsReflexive(Observe(expected, runtime).containers);
      hide Underway, Observe, SameBindings;
      if journal.Some? { return Failed; }
      var o, current;
      e, o := Observed();
      if !e.Ok? { return; }
      if !LifecycleGroup(o, false) { return Failed; }
      e := Prepare();
      if !e.Ok? { return; }
      e, current := Observed();
      if !e.Ok? { return; }
      if !LifecycleGroup(current, false) || !SameBindings(o.containers, current.containers) { return Failed; }
      var j;
      e, j := Begin(Restart, operationId, current);
      if !e.Ok? { return; }
      e := CommandAll(j);
      if !e.Ok? { return; }
      Reached(j);
      e := External();
      if !e.Ok? { return; }
      e := AssertRecovered(j);
      if !e.Ok? { return; }
      e := ClearJournal(j);
    }

    /** After any number of cut recoveries, one without faults ends exactly the operations that can end. */
    method RecoverEventually(crashes: nat)
      requires Recoverable() && journal.Some?
      modifies this`faulty, this`runtime, this`journal
      ensures Recoverable()
      ensures journal.None? <== old(journal).value.source == Retained || contentId.Some?
      ensures journal.None? ==> Desired(old(journal).value)
      ensures journal == old(journal) || journal.None?
    {
      hide Desired;
      faulty := true;
      var attempt := 0;
      while attempt < crashes && journal.Some?
        invariant Recoverable()
        invariant journal == old(journal) || (journal.None? && Desired(old(journal).value))
      {
        var _ := Recover();
        attempt := attempt + 1;
      }
      faulty := false;
      if journal.Some? {
        var _ := Recover();
      }
    }
  }

  lemma SameBindingsReflexive(containers: seq<Binding>)
    ensures SameBindings(containers, containers)
  {
    assert forall x :: x in containers ==> SameContainer(x, x);
  }

  lemma AbsentObservation(expected: seq<string>, runtime: seq<Binding>)
    requires Observe(expected, runtime).group == AbsentGroup
    ensures runtime == []
  {
  }

  lemma AllNamed(containers: seq<Binding>)
    ensures forall id :: id in Map(containers, BindingId) ==> Names(containers, id)
  {
    forall id | id in Map(containers, BindingId)
      ensures Names(containers, id)
    {
      var i :| 0 <= i < |containers| && Map(containers, BindingId)[i] == id;
      assert containers[i] in containers;
    }
  }

  lemma IdsNamed(containers: seq<Binding>, runtime: seq<Binding>)
    ensures forall statuses, id :: id in IdsWith(containers, runtime, statuses) ==> Names(containers, id)
  {
    forall statuses, id {
      IdsWithAre(containers, runtime, statuses, id);
    }
  }

  /** A partly created group shows its containers, unless there are none. */
  lemma CreatedObserved(expected: seq<string>, image: string, runtime: seq<Binding>)
    requires Created(expected, image, runtime)
    ensures var o := Observe(expected, runtime);
            && o.containers == runtime
            && (runtime == [] <==> o.group == AbsentGroup) && (runtime == [] ==> o.status == IsAbsent)
  {
  }
}
