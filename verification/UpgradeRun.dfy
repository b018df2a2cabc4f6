/**
 * `upgrade --all` as it runs: acceptance, acquisition, the journalled step loop and recovery, with
 * the process allowed to die or fail at every awaited effect.
 * Models packages/cli/src/lifecycle-update.ts and packages/cli/src/lifecycle-command.ts.
 */
module UpgradeRun {
  import opened Wrappers
  import opened ManagedRuntime
  import opened UpgradeAcceptance
  import opened Sorting
  import opened UpgradePlan
  import opened UpgradeSteps
  import opened UpgradeProtocol
  import opened UpgradeSettling
  import opened UpgradeResumption

  /** The installation on disk, its Docker host, and the process working on them. */
  class Machine {
    const world: World
    /** When false, no effect fails and the process does not die. */
    var faulty: bool
    var host: Host
    var journal: Option<Journal>
    var transaction: Option<Transaction>
    ghost var run: Run
    ghost var history: seq<Acceptance>

    /** A state the protocol may be found in, between any two of its effects. */
    ghost predicate Recoverable()
      reads this
    {
      match transaction
      case None =>
        && Ready(world, host)
        && (journal.Some? ==> Settled(world, host, journal.value, run) && Reviewed(journal.value.accepted, history))
      case Some(t) =>
        && Preserving(t, host)
        && journal.Some? && Reviewed(journal.value.accepted, history)
        && Pending(world, host, t, journal.value, run) && AtCut(host, t, journal.value, run)
    }

    /** Mid-run, between two steps. */
    ghost predicate Accepted(plan: Plan)
      reads this
    {
      && transaction.None? && journal.Some?
      && Settled(world, host, journal.value, run) && run.plan == plan
      && Reviewed(journal.value.accepted, history)
    }

    constructor (world: World, host: Host)
      requires Ready(world, host)
      ensures Recoverable() && journal.None? && transaction.None? && this.host == host
    {
      this.world, this.host, faulty, journal, transaction := world, host, true, None, None;
      history := [];
    }

    // ----- effects -----

    method WriteJournal(next: Journal) returns (e: Effect)
      modifies this`journal
      ensures e.Ok? ==> journal == Some(next)
      ensures journal == old(journal) || journal == Some(next)
      ensures !faulty ==> e.Ok?
    {
      var died, before: bool := *, *;
      if faulty && died && before { return Crashed; }
      journal := Some(next);
      if faulty && died { return Crashed; }
      return Ok;
    }

    method RemoveJournal() returns (e: Effect)
      modifies this`journal
      ensures e.Ok? ==> journal == None
      ensures journal == old(journal) || journal == None
      ensures !faulty ==> e.Ok?
    {
      var died, before: bool := *, *;
      if faulty && died && before { return Crashed; }
      journal := None;
      if faulty && died { return Crashed; }
      return Ok;
    }

    /** obtainImage and inspection: a local reference is used as it is, an absent one is obtained. */
    method Obtain(reference: string) returns (e: Effect, contentId: string)
      modifies this`host
      ensures Grown(world, {}, old(host), host)
      ensures e.Ok? ==>
                reference in host.images
                  && contentId == host.images[reference] == Bytes(world, old(host.images), reference)
      ensures !faulty ==> e.Ok?
    {
      var failed: bool := *;
      contentId := "";
      if faulty && failed { return Failed, contentId; }
      if reference !in host.images {
        host := host.(images := host.images[reference := world.content(reference)]);
      }
      contentId := host.images[reference];
      var died: bool := *;
      return if faulty && died then Crashed else Ok, contentId;
    }

    /**
     * buildSoftwareImage and inspection of its tag: the build gives the tag whatever bytes it made, the same
     * as before or others, and it does so also when the tag existed.
     */
    method Build(id: string, base: Image) returns (e: Effect, contentId: string)
      requires world.owner(world.softwareTag(id, base).resolved) == Some(id)
      modifies this`host
      ensures Grown(world, {id}, old(host), host)
      ensures e.Ok? ==> LocalBuild(world.softwareTag(id, base).(contentId := Some(contentId)), host.images)
      ensures !faulty ==> e.Ok?
    {
      var failed: bool := *;
      contentId := "";
      if faulty && failed { return Failed, contentId; }
      var bytes: string := *;
      host := host.(images := host.images[world.softwareTag(id, base).resolved := bytes]);
      contentId := bytes;
      var died: bool := *;
      return if faulty && died then Crashed else Ok, contentId;
    }

    /** A replaced runtime: a complete group of new containers in the preserved state. */
    function Replacement(state: RuntimeState, created: seq<Binding>): Observation {
      match state
      case Running => Observation(IsRunning, Complete, created)
      case Stopped => Observation(IsCreated, Complete, created)
      case _ => Observation(IsAbsent, AbsentGroup, [])
    }

    /** executeStateTransaction: journalled first, then rolled forward; a cut leaves it pending. */
    method Commit(t: Transaction) returns (e: Effect)
      requires transaction.None? && Preserving(t, host) && SubjectState(host, t.key) == t.state
      modifies this`host, this`transaction
      ensures transaction.None? ==> host == old(host) || RolledForward(old(host), t, host)
      ensures transaction.Some? ==> transaction == Some(t) && Interrupted(old(host), t, host)
      ensures e.Ok? ==> transaction.None? && RolledForward(old(host), t, host)
      ensures !faulty ==> e.Ok?
    {
      var failed: bool := *;
      if faulty && failed { return Failed; }
      transaction := Some(t);
      var cut: bool := *;
      if faulty && cut { return Crashed; }
      e := RollForward(t);
    }

    method RollForward(t: Transaction) returns (e: Effect)
      requires transaction == Some(t) && Preserving(t, host)
      modifies this`host, this`transaction
      ensures transaction.None? ==> RolledForward(old(host), t, host)
      ensures transaction.Some? ==> transaction == Some(t) && Interrupted(old(host), t, host)
      ensures e.Ok? ==> transaction.None?
      ensures !faulty ==> e.Ok?
    {
      host := host.(config := t.next);
      var cut: bool := *;
      if faulty && cut { return Crashed; }
      if t.work {
        var names: seq<Binding> := *;
        var created := if ValidContainers(names) then names else [];
        if t.key == GATEWAY_STEP {
          host := host.(gatewayRuntime := Replacement(t.state, created));
        } else {
          host := host.(runtimes := host.runtimes[t.key[9..] := Replacement(t.state, created)]);
        }
      }
      var late: bool := *;
      if faulty && late { return Failed; }
      transaction := None;
      var died: bool := *;
      return if faulty && died then Crashed else Ok;
    }

    // ----- one step -----

    /** recordStepStarted */
    method RecordStepStarted(ghost plan: Plan, key: string, expected: Config) returns (e: Effect)
      requires Accepted(plan) && host.config == journal.value.checkpoint
      requires Done(run) < |Steps(plan)| && key == Steps(plan)[Done(run)]
      modifies this`journal
      ensures Accepted(plan)
      ensures e.Ok? ==> journal == Some(Started(old(journal).value, key, expected)) && old(journal).value.active.None?
      ensures !faulty && old(journal).value.active.None? ==> e.Ok?
    {
      hide Settled;
      StartedStaysSettled(world, host, journal.value, run, key, expected);
      if journal.value.active.Some? { return Failed; }
      e := WriteJournal(Started(journal.value, key, expected));
    }

    /** recordStepCompleted */
    method RecordStepCompleted(ghost plan: Plan, key: string, config: Config) returns (e: Effect)
      requires Accepted(plan) && host.config == config && journal.value.active == Some(ActiveStep(key, config))
      modifies this`journal
      ensures Accepted(plan)
      ensures e.Ok? ==> journal == Some(Completed(old(journal).value, config))
      ensures !faulty ==> e.Ok?
    {
      hide Settled;
      CompletedStaysSettled(world, host, journal.value, run);
      e := WriteJournal(Completed(journal.value, config));
    }

    /** The state transaction of the next step; a cut leaves it pending, and pending is recoverable. */
    method CommitStep(ghost plan: Plan, t: Transaction) returns (e: Effect)
      requires Accepted(plan) && Done(run) < |Steps(plan)| && Preserving(t, host)
               && SubjectState(host, t.key) == t.state
      requires Pending(world, host, t, journal.value, Advance(run, t.next))
               && AtCut(host, t, journal.value, Advance(run, t.next))
      modifies this`host, this`transaction, this`run
      ensures Recoverable() && journal.Some? && run.plan == plan && Done(run) >= old(Done(run))
      ensures e.Ok? ==> Accepted(plan) && RolledForward(old(host), t, host) && run == Advance(old(run), t.next)
      ensures !faulty ==> e.Ok?
    {
      hide Settled, RolledForward, Interrupted, Preserving, AtCut;
      ghost var before := host;
      SettledIsReady(world, host, journal.value, run);
      e := Commit(t);
      if transaction.Some? {
        run := Advance(run, t.next);
        PendingSurvivesCut(world, before, t, host, journal.value, run);
        CutStays(before, t, host, journal.value, run);
      } else if e.Ok? || host != before {
        run := Advance(run, t.next);
        SettledIsReady(world, host, journal.value, run);
      }
    }

    /** assertRuntimeState: the reviewed state and the very containers that were reviewed. */
    predicate RuntimeUnchanged(observation: Option<Observation>, state: RuntimeState, containers: seq<Binding>) {
      RuntimeStateOf(observation) == state && Containers(observation) == containers
    }

    /** synchronizeStartedSkillPolicies, after a running computer was replaced. */
    method SynchronizePolicies() returns (e: Effect)
      ensures !faulty ==> e.Ok?
    {
      var failed: bool := *;
      return if faulty && failed then Failed else Ok;
    }

    /** The checks of applyComputerUpgrade before its first write. */
    predicate ComputerUnchanged(computer: Computer, row: Row, gatewayBinding: seq<Binding>)
      reads this`host
    {
      && computer in host.config.computers
      && RuntimeUnchanged(Lookup(host.runtimes, computer.id), row.runtimeState, row.runtimeContainers)
      && (row.runtimeState == Running ==> RuntimeUnchanged(Some(host.gatewayRuntime), Running, gatewayBinding))
    }

    /** The computer branch of the step loop, from start record to completion record. */
    method StepComputer(ghost plan: Plan, key: string, computer: Computer, row: Row, evidence: Evidence, built: Image,
                        gatewayBinding: seq<Binding>)
      returns (e: Effect)
      requires Accepted(plan) && host.config == journal.value.checkpoint && journal.value.active.None?
      requires Done(run) < |Steps(plan)| && key == Steps(plan)[Done(run)] && key == RowKeyOf(computer.id)
      requires Managed(computer) && TargetAvailable(computer, world.catalog)
      requires row.target == Some(Target(computer, world.catalog)) && row.runtimeState in {Running, Stopped, Absent}
      requires Local(evidence, host.images) && row.target.value.contract.image.resolved in evidence
      requires computer.software.Some? ==>
                 LocalBuild(built, host.images) && world.owner(built.resolved) == Some(computer.id)
      modifies this`host, this`transaction, this`journal, this`run
      ensures Recoverable() && journal.Some? && run.plan == plan && Done(run) >= old(Done(run))
      ensures e.Ok? ==> Accepted(plan) && host.config == journal.value.checkpoint && journal.value.active.None?
      ensures e.Ok? ==> Done(run) == old(Done(run)) + 1
      ensures e.Ok? ==>
                ComputerStepped(old(host), host, world.catalog, evidence, computer, built)
                  && host.images == old(host.images)
      ensures !faulty && old(ComputerUnchanged(computer, row, gatewayBinding)) ==> e.Ok?
    {
      hide Settled, RolledForward, ComputerTransaction, ComputerNext, WithComputer, Preserving, ComputerStepped,
        Drifts, AtCut, Target, TargetAvailable, Managed, Reviewed, Ready, Pending, Steps, SubjectState, RuntimeStateOf,
        LocalBuild, Local;
      SettledIsReady(world, host, journal.value, run);
      var next := ComputerNext(computer, row.target.value.contract, evidence, built);
      var expected := WithComputer(host.config, next);
      ghost var before := host;
      e := RecordStepStarted(plan, key, expected);
      if !e.Ok? { return; }
      if !ComputerUnchanged(computer, row, gatewayBinding) { return Failed; }
      var t := Transaction(expected, key, row.runtimeState, row.runtimeState != Absent);
      ComputerTransactionReady(world, host, t, computer, evidence, built);
      ComputerStepCuts(world, host, t, computer, evidence, built, journal.value, run);
      e := CommitStep(plan, t);
      if !e.Ok? { return; }
      ComputerStepDone(world, before, t, computer, evidence, built, host);
      if row.runtimeState == Running {
        e := SynchronizePolicies();
        if !e.Ok? { return; }
      }
      e := RecordStepCompleted(plan, key, expected);
    }

    /** The checks of applyGatewayAndDefaults before its first write. */
    predicate GatewayUnchanged(config: Config, gateway: Row)
      reads this`host
    {
      && host.config.gateway == config.gateway && host.config.defaults == config.defaults
      && RuntimeUnchanged(Some(host.gatewayRuntime), gateway.runtimeState, gateway.runtimeContainers)
    }

    /** managedGatewayRuntimeObservation of the replaced gateway. */
    method ObserveGateway() returns (e: Effect, containers: seq<Binding>)
      ensures e.Ok? ==> containers == host.gatewayRuntime.containers
      ensures !faulty ==> e.Ok?
    {
      var failed: bool := *;
      return if faulty && failed then Failed else Ok, host.gatewayRuntime.containers;
    }

    /** The gateway branch of the step loop. */
    method StepGateway(ghost plan: Plan, config: Config, gateway: Row, default: Row, evidence: Evidence)
      returns (e: Effect, gatewayBinding: seq<Binding>)
      requires Accepted(plan) && host.config == journal.value.checkpoint && journal.value.active.None?
      requires Done(run) < |Steps(plan)| && GATEWAY_STEP == Steps(plan)[Done(run)]
      requires config == host.config && Plannable(config, world.catalog)
      requires SameGatewayStep(host, world.catalog, gateway, default)
      requires gateway.runtimeState in {Running, Stopped, Absent}
      requires Local(evidence, host.images) && TargetsAcquired(world.catalog, gateway, default, evidence)
      modifies this`host, this`transaction, this`journal, this`run
      ensures Recoverable() && journal.Some? && run.plan == plan && Done(run) >= old(Done(run))
      ensures e.Ok? ==> Accepted(plan) && host.config == journal.value.checkpoint && journal.value.active.None?
      ensures e.Ok? ==> Done(run) == old(Done(run)) + 1 && gatewayBinding == host.gatewayRuntime.containers
      ensures e.Ok? ==> GatewayStepped(old(host), host)
      ensures !faulty && old(GatewayUnchanged(config, gateway)) ==> e.Ok?
    {
      hide Settled, RolledForward, GatewayTransaction, GatewayNext, Preserving, GatewayStepped, PlanOf, AtCut,
        SameGatewayStep, Reviewed, Ready, Pending, Steps, SubjectState, RuntimeStateOf, Local, Plannable,
        TargetsAcquired;
      GatewayNextDefined(host, world.catalog, gateway, default, evidence);
      gatewayBinding := [];
      SettledIsReady(world, host, journal.value, run);
      var expected := GatewayNext(gateway, default, config, evidence);
      ghost var before := host;
      e := RecordStepStarted(plan, GATEWAY_STEP, expected);
      if !e.Ok? { return; }
      if !GatewayUnchanged(config, gateway) { return Failed, gatewayBinding; }
      var t :=
        Transaction(expected, GATEWAY_STEP, gateway.runtimeState,
                    Mutates(gateway.action) && gateway.runtimeState != Absent);
      GatewayTransactionReady(world, host, t, gateway, default, evidence);
      GatewayStepPending(world, host, t, evidence, journal.value, run);
      CutBegins(world, host, t, journal.value, run);
      e := CommitStep(plan, t);
      if !e.Ok? { return; }
      GatewayRolledForward(world, before, t, evidence, host);
      RolledForwardConfig(before, t, host);
      e, gatewayBinding := ObserveGateway();
      if !e.Ok? { return; }
      e := RecordStepCompleted(plan, GATEWAY_STEP, expected);
    }

    // ----- acquisition -----

    /** The acquisition loop: every exact target is local and inspected before the first mutation. */
    method AcquireTargets(plan: Plan) returns (e: Effect, evidence: Evidence)
      requires Accepted(run.plan) && PlanFor(world, host, plan)
      requires plan.exactTargets == ExactTargets(Consumers(plan.Rows()))
      modifies this`host
      ensures Accepted(run.plan)
      ensures Grown(world, {}, old(host), host)
      ensures e.Ok? ==> Local(evidence, host.images) && AllAcquired(plan.Rows(), evidence) && Unowned(world, evidence)
      ensures e.Ok? ==> BasesIntact(world, old(host.images), plan.Rows())
      ensures !faulty ==> (e.Ok? <==> BasesIntact(world, old(host.images), plan.Rows()))
    {
      hide Settled, ExactTargets, Consumers, PlanOf, PlanFor, Ready, Changed;
      evidence := map[];
      GrownByNothing(world, {}, host);
      var i := 0;
      while i < |plan.exactTargets|
        invariant 0 <= i <= |plan.exactTargets|
        invariant Accepted(run.plan)
        invariant Grown(world, {}, old(host), host)
        invariant Local(evidence, host.images) && Unowned(world, evidence)
        invariant forall t :: t in plan.exactTargets[..i] ==> t.exactTarget in evidence
        invariant forall t :: t in plan.exactTargets[..i] ==>
                    MatchesRecorded(plan.Rows(), t.exactTarget, Bytes(world, old(host.images), t.exactTarget))
      {
        var target := plan.exactTargets[i];
        var reference := target.exactTarget;
        ghost var before := host;
        var contentId;
        e, contentId := Obtain(reference);
        SameBytes(world, old(host), before, reference);
        ObtainingSettles(world, before, host, journal.value, run);
        GrownTransitive(world, {}, old(host), before, host);
        LocalGrows(world, {}, evidence, before, host);
        if !e.Ok? { return; }
        assert contentId == Bytes(world, old(host.images), reference);
        if !MatchesRecorded(plan.Rows(), reference, contentId) { return Failed, evidence; }
        PlannedTargetUnowned(world, old(host), plan, target);
        evidence := evidence[reference := contentId];
        i := i + 1;
      }
      AcquiredEveryTarget(plan, evidence);
      EveryTargetMatched(world, old(host.images), plan);
      e := Ok;
    }

    // ----- software builds -----

    /** prepareUpgradeSoftware: a saved build is reused byte for byte, a new one is saved at once. */
    method PrepareUpgradeSoftware(c: Computer, base: Image) returns (e: Effect, image: Image)
      requires Accepted(run.plan) && c in host.config.computers && c.software.Some?
      requires Managed(c) && TargetAvailable(c, world.catalog) && StillMutates(c, host, world.catalog)
      requires Target(c, world.catalog).contract.image.resolved in host.images
      requires base == Bind(Target(c, world.catalog).contract.image, host.images)
      modifies this`host, this`journal
      ensures Accepted(run.plan)
      ensures Grown(world, {c.id}, old(host), host)
      ensures journal.value == old(journal).value.(prepared := journal.value.prepared)
      ensures c.id in old(journal).value.prepared ==> host == old(host) && journal == old(journal)
      ensures e.Ok? ==> LocalBuild(image, host.images) && world.owner(image.resolved) == Some(c.id)
      ensures !faulty ==> e.Ok?
    {
      hide Settled, StillMutates, Changed, Target, Reviewed, Ready, TargetAvailable, Managed, Rebuilding, Grown;
      image := base;
      GrownByNothing(world, {c.id}, host);
      if c.id in journal.value.prepared {
        UsablePreparation(world, host, journal.value, run, c);
        var saved := journal.value.prepared[c.id];
        var failed: bool := *;
        if faulty && failed { return Failed, image; }
        return if saved.base == base && LocalBuild(saved.built, host.images) then Ok else Failed, saved.built;
      }
      ghost var before := host;
      SettledIsReady(world, host, journal.value, run);
      RebuildingOne(world, host, journal.value.prepared, c);
      TagOwned(world, host, c, base);
      var contentId;
      e, contentId := Build(c.id, base);
      GrowingSettles(world, {c.id}, before, host, journal.value, run);
      if !e.Ok? { return; }
      image := world.softwareTag(c.id, base).(contentId := Some(contentId));
      BuildMatches(world, before, host, c, base, image);
      PreparedStaysSettled(world, host, journal.value, run, c, Prepared(base, image));
      e := WriteJournal(SavePrepared(journal.value, c.id, Prepared(base, image)));
    }

    /** One row of the preparation loop. */
    method PrepareRow(plan: Plan, i: nat, config: Config, evidence: Evidence, ghost planned: Host,
                      ghost ids: set<string>)
      returns (e: Effect, image: Image, ghost id: string)
      requires Accepted(run.plan) && PlanFor(world, planned, plan) && Grown(world, ids, planned, host)
               && config == planned.config
      requires i < |plan.computers| && NeedsBuild(plan.computers[i])
      requires forall id :: id in ids ==> RowKeyOf(id) != plan.computers[i].key
      requires Local(evidence, host.images) && AllAcquired(plan.Rows(), evidence)
      modifies this`host, this`journal
      ensures Accepted(run.plan) && Grown(world, {id}, old(host), host) && RowKeyOf(id) == plan.computers[i].key
      ensures journal.value == old(journal).value.(prepared := journal.value.prepared)
      ensures e.Ok? ==> LocalBuild(image, host.images) && OwnBuild(world, plan.computers[i].key, image)
      ensures !faulty ==> e.Ok?
    {
      hide Settled, PlanOf, PlanFor, StillMutates, Target, Grown, Local, AllAcquired, FindComputer, NeedsBuild, Ready;
      GrownKeepsConfig(world, ids, planned, host);
      ListedBuild(world, planned, plan, i, evidence, host.images);
      var computer := FindComputer(config.computers, plan.computers[i].key).value;
      id := computer.id;
      PlanForReady(world, planned, plan);
      StillToBuild(world, planned, ids, host, computer);
      e, image := PrepareUpgradeSoftware(computer, Bind(plan.computers[i].targetImage.value, evidence));
    }

    /** The preparation loop: every software image is built before the first mutation. */
    method PrepareSoftware(plan: Plan, config: Config, evidence: Evidence, ghost planned: Host)
      returns (e: Effect, software: map<string, Image>)
      requires Accepted(run.plan) && PlanFor(world, planned, plan) && Grown(world, {}, planned, host)
               && config == planned.config
      requires Local(evidence, host.images) && AllAcquired(plan.Rows(), evidence) && Unowned(world, evidence)
      modifies this`host, this`journal
      ensures Accepted(run.plan) && Begun(world, planned, host, plan)
      ensures journal.value == old(journal).value.(prepared := journal.value.prepared)
      ensures e.Ok? ==> Provisioned(world, plan, evidence, software, host.images)
      ensures !faulty ==> e.Ok?
    {
      hide Settled, PlanOf, PlanFor, Begun, BuiltFor, Local, AllAcquired, LocalBuild, Ready, Grown, Unowned;
      software := map[];
      ghost var ids: set<string> := {};
      PlannedKeys(world, planned, plan);
      NothingBuilt(world, plan.computers, host.images);
      var i := 0;
      while i < |plan.computers|
        invariant 0 <= i <= |plan.computers|
        invariant Accepted(run.plan) && Grown(world, ids, planned, host) && Local(evidence, host.images)
        invariant journal.value == old(journal).value.(prepared := journal.value.prepared)
        invariant forall id :: id in ids ==> exists k :: 0 <= k < i && RowKeyOf(id) == plan.computers[k].key
        invariant BuiltFor(world, plan.computers[..i], software, host.images)
      {
        if NeedsBuild(plan.computers[i]) {
          ghost var before := host;
          EarlierKeysDiffer(plan.computers, i);
          assert forall id :: id in ids ==> RowKeyOf(id) != plan.computers[i].key by {
            EarlierIdsDiffer(plan.computers, i, ids);
          }
          var image;
          ghost var id;
          e, image, id := PrepareRow(plan, i, config, evidence, planned, ids);
          GrownAlso(world, ids, id, planned, before, host);
          LocalGrows(world, {id}, evidence, before, host);
          ids := ids + {id};
          if !e.Ok? {
            BegunAfterGrowth(world, planned, ids, host, plan);
            return;
          }
          BuiltForGrows(world, plan.computers[..i], software, id, before, host);
          BuiltForExtends(world, plan.computers, i, software, image, host.images);
          software := software[plan.computers[i].key := image];
        } else {
          BuiltForExtends(world, plan.computers, i, software, plan.computers[i].currentImage, host.images);
        }
        i := i + 1;
      }
      assert plan.computers[..i] == plan.computers;
      BegunAfterGrowth(world, planned, ids, host, plan);
      e := Ok;
    }

    // ----- the step loop -----

    /** Between two steps of the loop, which began at `start` with a plan made on `planned`. */
    ghost predicate BetweenSteps(plan: Plan, i: nat, planned: Host, start: Host)
      reads this
    {
      && Accepted(plan) && Done(run) == i <= |Steps(plan)|
      && host.config == journal.value.checkpoint && journal.value.active.None?
      && Begun(world, planned, start, plan) && Underway(start, host, plan, i)
    }

    /** One turn of the step loop. */
    method RunStep(plan: Plan, i: nat, config: Config, evidence: Evidence, software: map<string, Image>,
                   gatewayBinding: seq<Binding>, ghost planned: Host, ghost start: Host)
      returns (e: Effect, binding: seq<Binding>)
      requires BetweenSteps(plan, i, planned, start) && i < |Steps(plan)| && config == planned.config
      requires Provisioned(world, plan, evidence, software, start.images)
      requires gatewayBinding == host.gatewayRuntime.containers
      modifies this`host, this`transaction, this`journal, this`run
      ensures Recoverable() && journal.Some? && run.plan == plan && Done(run) >= old(Done(run))
      ensures e.Ok? ==> BetweenSteps(plan, i + 1, planned, start) && binding == host.gatewayRuntime.containers
      ensures !faulty ==> e.Ok?
    {
      hide Settled, PlanFor, Steps, Underway, Ahead, ComputerStepped, GatewayStepped, BuiltFor, AllAcquired, PlanOf,
        Target, Local, ComputerPreview, GatewayPreview, RuntimeStateOf, TargetAvailable, Managed, SameGatewayStep,
        Begun, LocalBuild, Ready;
      binding := gatewayBinding;
      ghost var before := host;
      BegunParts(world, planned, start, plan);
      StepKinds(world, planned, plan, i);
      UnderwayFacts(start, host, plan, i);
      var key := Steps(plan)[i];
      if key == GATEWAY_STEP {
        GatewayStepInputs(world, planned, start, plan, evidence, software, start.images);
        GatewayObserved(world, planned, plan);
        e, binding := StepGateway(plan, config, plan.gateway, plan.default, evidence);
        if !e.Ok? { return; }
        UnderwayAfterGateway(world, planned, start, before, host, plan, i);
      } else {
        ComputerStepInputs(world, planned, plan, key, evidence, software, start.images);
        var computer, row := FindComputer(config.computers, key).value, FindRow(plan.computers, key).value;
        var built := if computer.software.Some? then software[key] else computer.contract.image;
        StillUnchanged(world, planned, start, host, plan, i, computer);
        e := StepComputer(plan, key, computer, row, evidence, built, gatewayBinding);
        if !e.Ok? { return; }
        UnderwayAfterComputer(world, planned, start, before, host, plan, i, evidence, computer, built);
      }
    }

    method RunSteps(plan: Plan, config: Config, evidence: Evidence, software: map<string, Image>, ghost planned: Host)
      returns (e: Effect)
      requires BetweenSteps(plan, 0, planned, host) && config == planned.config
      requires Provisioned(world, plan, evidence, software, host.images)
      modifies this`host, this`transaction, this`journal, this`run
      ensures Recoverable() && journal.Some? && run.plan == plan && Done(run) >= old(Done(run))
      ensures e.Ok? ==> Accepted(plan) && Left(run) == 0
      ensures !faulty ==> e.Ok?
    {
      hide Settled, PlanFor, Steps, Underway, Provisioned, PlanOf, Begun, Ready;
      ghost var start := host;
      BegunParts(world, planned, start, plan);
      GatewayObserved(world, planned, plan);
      var binding := plan.gateway.runtimeContainers;
      var i := 0;
      while i < |Steps(plan)|
        invariant 0 <= i <= |Steps(plan)|
        invariant BetweenSteps(plan, i, planned, start) && Done(run) >= old(Done(run))
                  && binding == host.gatewayRuntime.containers
      {
        e, binding := RunStep(plan, i, config, evidence, software, binding, planned, start);
        if !e.Ok? { return; }
        i := i + 1;
      }
      SettledIsReady(world, host, journal.value, run);
      e := Ok;
    }

    // ----- execution -----

    ghost predicate Finished()
      reads this
    {
      transaction.None? && NothingLeft(world, host)
    }

    /** The acceptance recorded last is that of this plan. */
    ghost predicate LastReview(plan: Plan)
      reads this`history
    {
      history != [] && history[|history| - 1] == Accept(plan)
    }

    /** recordAccepted: the journal of a new acceptance replaces the one it resumes. */
    method RecordAccepted(plan: Plan) returns (e: Effect)
      requires Recoverable() && transaction.None? && PlanFor(world, host, plan)
      modifies this`journal, this`run, this`history
      ensures Recoverable()
      ensures old(journal).Some? ==> journal.Some? && Left(run) <= old(Left(run)) && old(history) <= history
      ensures e.Ok? ==>
                Accepted(plan) && Done(run) == 0 && host.config == journal.value.checkpoint
                  && journal.value.active.None?
      ensures (!e.Ok? && journal == old(journal)) || LastReview(plan)
      ensures !faulty ==> e.Ok?
    {
      hide Settled, PlanOf, PlanFor, Ready, Steps, Reviewed, Accept, AcceptedJournal, Left;
      var prepared := if journal.Some? then journal.value.prepared else map[];
      ghost var next := AcceptedJournal(plan, prepared);
      ghost var reviews := (if journal.Some? then history else []) + [Accept(plan)];
      if journal.Some? {
        AcceptanceResumes(world, host, journal.value, run, history, plan);
      } else {
        AcceptanceBegins(world, host, plan);
      }
      AcceptanceStarts(world, host, plan, prepared);
      e := WriteJournal(AcceptedJournal(plan, prepared));
      if journal == Some(next) {
        run, history := Start(plan), reviews;
      }
    }

    /** What a recovery or an execution guarantees at every exit, crashed or not. */
    twostate predicate Advanced()
      reads this
    {
      && Recoverable()
      && (journal.None? ==>
            Finished()
              || (old(journal).None? && host.config == old(host).config && host.runtimes == old(host).runtimes))
      && (old(journal).Some? ==> old(history) <= history && (journal.Some? ==> Left(run) <= old(Left(run))))
    }

    /** The review still describes the host exactly, and nothing blocks it. */
    ghost predicate UpToDate(reviewed: Plan, config: Config)
      reads this`host
    {
      && Plannable(host.config, world.catalog) && reviewed == PlanOf(host, world.catalog, false)
      && config == host.config && reviewed.blockers == []
    }

    /** And every recorded recipe base the plan binds again still names its recorded bytes. */
    ghost predicate Runs(reviewed: Plan, config: Config)
      reads this`host
    {
      UpToDate(reviewed, config) && BasesIntact(world, host.images, reviewed.Rows())
    }

    /** executeUpgradeAll */
    method ExecuteUpgradeAll(reviewed: Plan, config: Config, confirmed: bool) returns (e: Effect)
      requires Recoverable() && transaction.None?
      modifies this`host, this`transaction, this`journal, this`run, this`history
      ensures Advanced()
      ensures e.Ok? && confirmed ==> journal.None? && Finished()
      ensures !confirmed ==> host == old(host) && journal == old(journal) && transaction.None?
      ensures !old(UpToDate(reviewed, config)) && confirmed ==> !e.Ok? && host == old(host) && journal == old(journal)
      ensures (host == old(host) && journal == old(journal)) || LastReview(reviewed)
      ensures !faulty && confirmed ==> (e.Ok? <==> old(Runs(reviewed, config)))
    {
      hide Settled, PlanOf, Steps, Plannable, NothingLeft, Ready, PreparedUsable, BasesIntact;
      if UpToDate(reviewed, config) { PlannedConfig(host, world.catalog, reviewed); }
      if reviewed.blockers != [] || config != reviewed.config { return Failed; }
      if !confirmed { return Ok; }
      var replanned := BuildUpgradeAllPlan(host, world.catalog, transaction.Some?);
      if replanned.Failure? { return Failed; }
      var plan := replanned.value;
      if plan.blockers != [] || plan != reviewed { return Failed; }
      PlannedConfig(host, world.catalog, plan);
      if journal.Some? { SettledIsReady(world, host, journal.value, run); }
      PlanForFresh(world, host, plan);
      e := RecordAccepted(plan);
      if !e.Ok? { return; }
      e := RunAccepted(plan, config);
      if !e.Ok? { return; }
      LeftIsReplanned(world, host, journal.value, run);
      e := RemoveJournal();
    }

    /** From the accepted journal to the last completed step. */
    method RunAccepted(plan: Plan, config: Config) returns (e: Effect)
      requires Accepted(plan) && Done(run) == 0 && config == host.config == journal.value.checkpoint
               && journal.value.active.None?
      requires Plannable(host.config, world.catalog) && plan == PlanOf(host, world.catalog, false)
      modifies this`host, this`transaction, this`journal, this`run
      ensures Recoverable() && journal.Some? && run.plan == plan && Done(run) >= 0
      ensures e.Ok? ==> Accepted(plan) && Left(run) == 0
      ensures !faulty ==> (e.Ok? <==> BasesIntact(world, old(host.images), plan.Rows()))
    {
      hide Settled, PlanOf, Steps, Plannable, PlanFor, Ready, PreparedUsable, BasesIntact, Underway, Grown, Local,
        AllAcquired, BuiltFor, Begun, Unowned, Provisioned;
      ghost var planned := host;
      PlanForSettled(world, host, journal.value, run, plan);
      var evidence, software;
      e, evidence := AcquireTargets(plan);
      GrownKeepsConfig(world, {}, planned, host);
      SettledIsReady(world, host, journal.value, run);
      if !e.Ok? { return; }
      e, software := PrepareSoftware(plan, config, evidence, planned);
      SettledIsReady(world, host, journal.value, run);
      if !e.Ok? { return; }
      BegunParts(world, planned, host, plan);
      UnderwayAtStart(host, plan);
      e := RunSteps(plan, config, evidence, software, planned);
    }

    // ----- recovery -----

    /** Recovery of the pending state transaction: rolled forward again from wherever it was cut. */
    method RecoverTransaction() returns (e: Effect)
      requires Recoverable() && transaction.Some?
      modifies this`host, this`transaction
      ensures Recoverable()
      ensures e.Ok? ==> transaction.None?
      ensures !faulty ==> e.Ok?
    {
      hide Settled, RolledForward, Interrupted, Preserving, AtCut;
      var t := transaction.value;
      ghost var before := host;
      e := RollForward(t);
      if transaction.Some? {
        PendingSurvivesCut(world, before, t, host, journal.value, run);
        CutStays(before, t, host, journal.value, run);
      } else {
        SettledIsReady(world, host, journal.value, run);
      }
    }

    /** recoverPendingUpgradeAll: true when there was an accepted upgrade to resume. */
    method RecoverPendingUpgradeAll() returns (e: Effect, resumed: bool)
      requires Recoverable()
      modifies this`host, this`transaction, this`journal, this`run, this`history
      ensures Advanced()
      ensures e.Ok? && resumed ==> journal.None? && Finished()
      ensures resumed == old(journal).Some? && (!resumed ==> host == old(host) && journal.None?)
      ensures !faulty ==> (e.Ok? <==> old(journal).None? || (old(transaction).None? && old(Resumable())))
    {
      hide Settled, PlanOf, Steps, Plannable, Ready, PreparedUsable, BasesIntact, JournalParses, Admits;
      resumed := false;
      if journal.None? { return Ok, false; }
      resumed := true;
      if transaction.Some? { return Failed, resumed; }
      SettledIsRecoverable(world, host, journal.value, run);
      LeftIsReplanned(world, host, journal.value, run);
      if !JournalParses(journal.value) || journal.value.installationId != host.config.installationId {
        return Failed, resumed;
      }
      var planned := BuildUpgradeAllPlan(host, world.catalog, false);
      if planned.Failure? { return Failed, resumed; }
      var plan := planned.value;
      if !AtCheckpoint(host.config, journal.value) { return Failed, resumed; }
      if !Admits(journal.value.accepted, Accept(plan)) { return Failed, resumed; }
      if plan.blockers != [] { return Failed, resumed; }
      if Steps(plan) == [] {
        e := RemoveJournal();
        return;
      }
      e := ExecuteUpgradeAll(plan, host.config, true);
    }

    /** Nothing is left to do, or the recipe bases to be bound still name their recorded bytes. */
    ghost predicate Resumable()
      reads this`host
    {
      Plannable(host.config, world.catalog) ==>
        var plan := PlanOf(host, world.catalog, false);
        Steps(plan) == [] || BasesIntact(world, host.images, plan.Rows())
    }

    /** upgradeAllCommand: an accepted upgrade is resumed, otherwise a reviewed plan is executed. */
    method UpgradeAll(confirmed: bool) returns (e: Effect)
      requires Recoverable()
      modifies this`host, this`transaction, this`journal, this`run, this`history
      ensures Advanced()
      ensures e.Ok? && confirmed ==> journal.None? && Finished()
      ensures !confirmed ==> host == old(host) && journal == old(journal)
      ensures !faulty && confirmed ==>
                (e.Ok? <==> if old(journal).Some? then old(transaction).None? && old(Resumable()) else old(Startable()))
    {
      hide Settled, PlanOf, Steps, NothingLeft, Ready, BasesIntact;
      if journal.Some? {
        if !confirmed { return Failed; }
        var resumed;
        e, resumed := RecoverPendingUpgradeAll();
        return;
      }
      var planned := BuildUpgradeAllPlan(host, world.catalog, transaction.Some?);
      if planned.Failure? { return Failed; }
      e := ExecuteUpgradeAll(planned.value, host.config, confirmed);
    }

    /** A fresh upgrade can be planned, is not blocked, and the recipe bases to be bound are intact. */
    ghost predicate Startable()
      reads this`host
    {
      && Plannable(host.config, world.catalog)
      && var plan := PlanOf(host, world.catalog, false);
         plan.blockers == [] && BasesIntact(world, host.images, plan.Rows())
    }

    /**
     * Any number of recoveries that crash or fail anywhere, then one without faults: the accepted upgrade is
     * finished and its journal is gone, or work is left whose recorded recipe bases no longer hold.
     */
    method RecoverEventually(crashes: nat) returns (e: Effect)
      requires Recoverable() && journal.Some?
      modifies this
      ensures Recoverable() && old(history) <= history
      ensures journal.Some? ==> Left(run) <= old(Left(run))
      ensures e.Ok? ==> journal.None? && Finished()
      ensures !e.Ok? ==> !world.intact
      ensures crashes == 0 && old(transaction).None? ==> (e.Ok? <==> old(Resumable()))
    {
      hide Settled, Reviewed, Ready, Pending, Preserving, NothingLeft, BasesIntact, PlanOf, Plannable, Steps, AtCut;
      faulty := true;
      var attempt, done := 0, false;
      while attempt < crashes && !done
        invariant Recoverable() && old(history) <= history
        invariant done == journal.None?
        invariant done ==> Finished()
        invariant !done ==> Left(run) <= old(Left(run))
        invariant attempt <= crashes
        invariant attempt == 0 ==> !done && host == old(host) && transaction == old(transaction)
      {
        if transaction.Some? {
          var _ := RecoverTransaction();
        } else {
          var _, _ := RecoverPendingUpgradeAll();
          done := journal.None?;
        }
        attempt := attempt + 1;
      }
      faulty := false;
      if done { return Ok; }
      if transaction.Some? {
        var _ := RecoverTransaction();
      }
      SettledIsReady(world, host, journal.value, run);
      if world.intact { IntactBases(world, host); }
      var resumed;
      e, resumed := RecoverPendingUpgradeAll();
    }
  }
}
