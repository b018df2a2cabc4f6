/**
 * Why every state the upgrade protocol leaves is one its recovery accepts: each step, once its
 * transaction has rolled forward, leads from a settled state to a settled state one step further.
 * Models packages/cli/src/lifecycle-update.ts and packages/cli/src/lifecycle-command.ts.
 */
module UpgradeSettling {
  import opened Wrappers
  import opened ManagedRuntime
  import opened UpgradeAcceptance
  import opened Sorting
  import opened ToolPolicy
  import opened UpgradePlan
  import opened UpgradeSteps
  import opened UpgradeProtocol

  // ----- steps of a plan are distinct -----

  lemma {:induction false} ComputerStepsDistinct(rows: seq<Row>)
    requires UniqueBy(rows, PreviewKey)
    ensures NoDuplicates(ComputerSteps(rows))
    ensures forall key :: key in ComputerSteps(rows) ==> exists row :: row in rows && row.key == key
  {
    if rows != [] {
      forall i, j | 0 <= i < j < |rows[1..]|
        ensures PreviewKey(rows[1..][i]) != PreviewKey(rows[1..][j])
      {
        assert PreviewKey(rows[i + 1]) != PreviewKey(rows[j + 1]);
      }
      ComputerStepsDistinct(rows[1..]);
      forall key | key in ComputerSteps(rows[1..])
        ensures key != rows[0].key
      {
        var row :| row in rows[1..] && row.key == key;
        var i :| 0 <= i < |rows[1..]| && rows[1..][i] == row;
        assert PreviewKey(rows[0]) != PreviewKey(rows[i + 1]);
      }
      PrependDistinct(rows[0].key, ComputerSteps(rows[1..]));
    }
  }

  lemma PrependDistinct(key: string, keys: seq<string>)
    requires NoDuplicates(keys) && key !in keys
    ensures NoDuplicates([key] + keys) && NoDuplicates([] + keys)
  {
    assert [] + keys == keys;
  }

  lemma {:induction false} WithoutAbsent(keys: seq<string>, key: string)
    requires key !in keys
    ensures Without(keys, key) == keys
  {
    if keys != [] {
      WithoutAbsent(keys[1..], key);
    }
  }

  lemma {:induction false} StepComputer(computers: seq<Computer>, host: Host, catalog: Catalog, key: string)
    requires forall c :: c in computers ==> TargetAvailable(c, catalog)
    requires key in ComputerSteps(ComputerRows(computers, host, catalog))
    ensures exists c :: c in computers && key == RowKeyOf(c.id) && StillMutates(c, host, catalog)
  {
    var rows := ComputerRows(computers, host, catalog);
    assert rows[1..] == ComputerRows(computers[1..], host, catalog);
    if ComputerMutates(rows[0]) && rows[0].key == key {
      assert StillMutates(computers[0], host, catalog);
    } else {
      StepComputer(computers[1..], host, catalog, key);
    }
  }

  lemma NotTheGatewayStep(id: string)
    ensures RowKeyOf(id) != GATEWAY_STEP && RowKeyOf(id)[9..] == id
  {
    assert RowKeyOf(id)[0] == 'c' && GATEWAY_STEP[0] == 'g';
  }

  /** No computer step is mistaken for the gateway step. */
  lemma ComputerStepKeys(computers: seq<Computer>, host: Host, catalog: Catalog)
    requires forall c :: c in computers ==> TargetAvailable(c, catalog)
    ensures forall key :: key in ComputerSteps(ComputerRows(computers, host, catalog)) ==>
              key != GATEWAY_STEP && key != ""
  {
    hide ComputerRows, ComputerSteps, TargetAvailable;
    forall key | key in ComputerSteps(ComputerRows(computers, host, catalog))
      ensures key != GATEWAY_STEP && key != ""
    {
      StepComputer(computers, host, catalog, key);
      var c :| c in computers && key == RowKeyOf(c.id);
      NotTheGatewayStep(c.id);
    }
  }

  lemma WithoutKeeps(keys: seq<string>, key: string, k: string)
    ensures k in Without(keys, key) <==> k in keys && k != key
  {
  }

  lemma WithinTail(keys: seq<string>, ahead: seq<string>)
    requires ahead != [] && Within(keys, ahead) && ahead[0] !in keys
    ensures Within(keys, ahead[1..])
  {
    assert ahead == [ahead[0]] + ahead[1..];
  }

  lemma WithoutFirstStep(keys: seq<string>, ahead: seq<string>)
    requires ahead != [] && Within(keys, ahead)
    ensures Within(Without(keys, ahead[0]), ahead[1..])
  {
    forall key {
      WithoutKeeps(keys, ahead[0], key);
    }
    WithinTail(Without(keys, ahead[0]), ahead);
  }

  lemma NoGatewayAhead(steps: seq<string>, i: nat)
    requires i < |steps| && steps[i] != GATEWAY_STEP && forall k :: 0 < k < |steps| ==> steps[k] != GATEWAY_STEP
    ensures GATEWAY_STEP !in steps[i..]
  {
    forall k | 0 <= k < |steps[i..]|
      ensures steps[i..][k] != GATEWAY_STEP
    {
      assert steps[i..][k] == steps[i + k];
    }
  }

  lemma GatewayStepListed(plan: Plan)
    ensures GatewayMutates(plan) ==> GATEWAY_STEP in Steps(plan)
  {
    if GatewayMutates(plan) { assert Steps(plan)[0] == GATEWAY_STEP; }
  }

  /** Where the next accepted step is a computer's, a fresh plan has no gateway step any more. */
  lemma NextComputerStep(run: Run, plan: Plan, id: string)
    requires Recordable(run.plan) && 0 <= Done(run) < |Steps(run.plan)| && Steps(run.plan)[Done(run)] == RowKeyOf(id)
    requires Within(Steps(plan), Steps(run.plan)[Done(run)..])
    ensures !GatewayMutates(plan)
    ensures Within(Without(Steps(plan), RowKeyOf(id)), Steps(run.plan)[Done(run) + 1..])
  {
    var ahead := Steps(run.plan)[Done(run)..];
    NotTheGatewayStep(id);
    NoGatewayAhead(Steps(run.plan), Done(run));
    GatewayStepListed(plan);
    hide Steps, GatewayMutates, Recordable;
    WithoutFirstStep(Steps(plan), ahead);
    assert ahead[1..] == Steps(run.plan)[Done(run) + 1..];
  }

  /** In a stable plan no configured computer is in a state that cannot be preserved. */
  lemma SubjectPreservable(host: Host, catalog: Catalog, c: Computer)
    requires Plannable(host.config, catalog) && c in host.config.computers
             && PlanOf(host, catalog, false).blockers == []
    ensures RuntimeStateOf(Lookup(host.runtimes, c.id)) != Blocked
  {
    var plan, sorted := PlanOf(host, catalog, false), SortedComputers(host.config);
    PlanUnblockedIffStable(host, catalog, plan);
    var i :| 0 <= i < |sorted| && sorted[i] == c;
    assert plan.computers[i] in plan.computers;
  }

  // ----- a computer step -----

  ghost predicate Local(evidence: Evidence, images: map<string, string>) {
    forall r :: r in evidence ==> r in images && images[r] == evidence[r]
  }

  /** The mutation at hand: bound to local bytes, in the runtime state that was reviewed. */
  ghost predicate ComputerTransaction(world: World, host: Host, t: Transaction, c: Computer, evidence: Evidence,
                                      built: Image)
    requires Ready(world, host)
  {
    && c in host.config.computers && Managed(c) && t.key == RowKeyOf(c.id)
    && Local(evidence, host.images)
    && Target(c, world.catalog).contract.image.resolved in evidence
    && (c.software.Some? ==> LocalBuild(built, host.images) && world.owner(built.resolved) == Some(c.id))
    && t.next == WithComputer(host.config, ComputerNext(c, Target(c, world.catalog).contract, evidence, built))
    && t.state == RuntimeStateOf(Lookup(host.runtimes, c.id))
  }

  lemma ComputerTransactionSteps(world: World, host: Host, t: Transaction, c: Computer, evidence: Evidence,
                                 built: Image, after: Host)
    requires Ready(world, host) && ComputerTransaction(world, host, t, c, evidence, built)
    requires RolledForward(host, t, after)
    ensures ComputerStepped(host, after, world.catalog, evidence, c, built)
  {
    hide UpgradedAccess;
    NotTheGatewayStep(c.id);
    forall id | id != c.id
      ensures Lookup(after.runtimes, id) == Lookup(host.runtimes, id)
    {
      RowKeyInjective(id, c.id);
    }
  }

  lemma ReplacedComputers(config: Config, next: Computer)
    requires UniqueBy(config.computers, ComputerId)
    ensures UniqueBy(WithComputer(config, next).computers, ComputerId)
    ensures forall d :: d in WithComputer(config, next).computers ==>
              d == next || (d in config.computers && d.id != next.id)
  {
    var replaced := WithComputer(config, next).computers;
    forall i, j | 0 <= i < j < |replaced|
      ensures ComputerId(replaced[i]) != ComputerId(replaced[j])
    {
      assert ComputerId(config.computers[i]) != ComputerId(config.computers[j]);
    }
    forall d | d in replaced
      ensures d == next || (d in config.computers && d.id != next.id)
    {
      var i :| 0 <= i < |config.computers| && d == Replace(next)(config.computers[i]);
    }
  }

  /** The new image of a stepped computer is local, every other row reads as before. */
  lemma FaithfulAfterComputer(world: World, host: Host, after: Host, next: Computer)
    requires Plannable(host.config, world.catalog) && Plannable(after.config, world.catalog)
    requires Faithful(world, host) && after.images == host.images && after.config == WithComputer(host.config, next)
    requires after.gatewayRuntime == host.gatewayRuntime
    requires forall id :: id != next.id ==> Lookup(after.runtimes, id) == Lookup(host.runtimes, id)
    requires UniqueBy(host.config.computers, ComputerId)
    requires next.contract.image.resolved in host.images
    ensures Faithful(world, after)
  {
    hide ComputerPreview, Target;
    ReplacedComputers(host.config, next);
    forall d | d in after.config.computers && ReadsCurrent(d, after, world.catalog)
      ensures Brings(world, d.contract.image, after.images)
    {
      if d != next { assert ReadsCurrent(d, host, world.catalog); }
    }
  }

  lemma TagsAfterComputer(world: World, config: Config, next: Computer)
    requires Plannable(config, world.catalog) && Plannable(WithComputer(config, next), world.catalog)
    requires UniqueBy(config.computers, ComputerId)
    requires TagsApart(world, config) && TargetAvailable(next, world.catalog) && TagApart(world, next)
    ensures TagsApart(world, WithComputer(config, next))
  {
    hide TagApart;
    ReplacedComputers(config, next);
  }

  /** The base bound by the step is local; the bases of the other computers are as before. */
  lemma BasesAfterComputer(world: World, host: Host, after: Host, c: Computer, target: Contract, evidence: Evidence,
                           built: Image)
    requires RecordedBases(world, host.config.computers, host.images) && after.images == host.images
    requires UniqueBy(host.config.computers, ComputerId)
    requires target.image.resolved in evidence && Local(evidence, host.images)
    requires after.config == WithComputer(host.config, ComputerNext(c, target, evidence, built))
    ensures RecordedBases(world, after.config.computers, after.images)
  {
    ReplacedComputers(host.config, ComputerNext(c, target, evidence, built));
  }

  /** The stepped computer is bound to its target or to a build of its own. */
  lemma SteppedTagApart(world: World, c: Computer, evidence: Evidence, built: Image)
    requires ValidCatalog(world.catalog) && TargetAvailable(c, world.catalog) && Managed(c) && ValidRecipe(c)
             && KeepsBasePreset(c)
    requires Target(c, world.catalog).contract.image.resolved in evidence && TagApart(world, c)
    requires c.software.Some? ==> world.owner(built.resolved) == Some(c.id)
    ensures var next := ComputerNext(c, Target(c, world.catalog).contract, evidence, built);
            TargetAvailable(next, world.catalog) && TagApart(world, next)
  {
  }

  lemma ReadyAfterComputer(world: World, host: Host, t: Transaction, c: Computer, evidence: Evidence, built: Image,
                           after: Host)
    requires Ready(world, host) && ComputerTransaction(world, host, t, c, evidence, built)
    requires RolledForward(host, t, after) && RuntimeStateOf(Lookup(host.runtimes, c.id)) != Blocked
    ensures Ready(world, after)
  {
    hide Faithful, WithComputer, RuntimeStateOf, RecordedBases, TagsApart, TagApart, UpgradedAccess;
    var next := ComputerNext(c, Target(c, world.catalog).contract, evidence, built);
    if world.intact { BasesAfterComputer(world, host, after, c, Target(c, world.catalog).contract, evidence, built); }
    ComputerTransactionSteps(world, host, t, c, evidence, built, after);
    SteppedComputerIsCurrent(c, world.catalog, evidence, built, Lookup(host.runtimes, c.id),
                             Lookup(after.runtimes, c.id), host.images, after.images);
    WithComputerPlannable(host.config, world.catalog, next);
    ReplacedComputers(host.config, next);
    FaithfulAfterComputer(world, host, after, next);
    ConfiguredTagApart(world, host.config, c);
    SteppedTagApart(world, c, evidence, built);
    TagsAfterComputer(world, host.config, next);
  }

  lemma ConfiguredTagApart(world: World, config: Config, c: Computer)
    requires Plannable(config, world.catalog) && TagsApart(world, config) && c in config.computers
    ensures TagApart(world, c)
  {
  }

  function Advance(run: Run, next: Config): Run {
    run.(trail := run.trail + [next])
  }

  lemma PrefixAdvances(catalog: Catalog, run: Run, next: Config)
    requires Prefix(catalog, run) && Done(run) < |Steps(run.plan)|
    requires StepWrites(catalog, run.trail[Done(run)], Steps(run.plan)[Done(run)], next)
    ensures Prefix(catalog, Advance(run, next)) && Done(Advance(run, next)) == Done(run) + 1
    ensures Advance(run, next).trail[Done(run) + 1] == next
  {
    hide StepWrites, Steps;
    var longer := Advance(run, next);
    forall i | 0 <= i < Done(longer)
      ensures StepWrites(catalog, longer.trail[i], Steps(longer.plan)[i], longer.trail[i + 1])
    {
      if i < Done(run) {
        assert StepWrites(catalog, run.trail[i], Steps(run.plan)[i], run.trail[i + 1]);
      }
    }
  }

  /** Whatever progress a step makes, what is left is among the accepted steps behind it. */
  lemma UnblockedAdvances(world: World, host: Host, after: Host, run: Run, next: Config, plan: Plan, later: Plan)
    requires Plannable(host.config, world.catalog) && plan == PlanOf(host, world.catalog, false)
    requires Plannable(after.config, world.catalog) && later == PlanOf(after, world.catalog, false)
    requires 0 <= Done(run) < |Steps(run.plan)| && Unblocked(world, host, run)
    requires WellFormed(plan) && WellFormed(later)
    requires PlanProgresses(plan, later) && later.blockers == []
    requires Within(Steps(later), Steps(run.plan)[Done(run) + 1..])
    ensures Unblocked(world, after, Advance(run, next))
  {
    hide PlanOf, Steps, Admits, PlanProgresses, WellFormed;
    ProgressIsAdmitted(plan, later);
    AdmissionComposes(Accept(run.plan), Accept(plan), Accept(later));
  }

  lemma ComputerUnblocked(world: World, host: Host, t: Transaction, c: Computer, evidence: Evidence, built: Image,
                          after: Host, run: Run)
    requires Ready(world, host) && ComputerTransaction(world, host, t, c, evidence, built)
             && RolledForward(host, t, after)
    requires Ready(world, after) && Recordable(run.plan)
    requires 0 <= Done(run) < |Steps(run.plan)| && Steps(run.plan)[Done(run)] == t.key && Unblocked(world, host, run)
    ensures Unblocked(world, after, Advance(run, t.next))
  {
    hide PlanOf, Faithful, TagsApart, RecordedBases, Recordable, WellFormed, RolledForward, PlanProgresses,
      RuntimeStateOf, Drift;
    var plan, later := PlanOf(host, world.catalog, false), PlanOf(after, world.catalog, false);
    NextComputerStep(run, plan, c.id);
    SubjectPreservable(host, world.catalog, c);
    ComputerTransactionSteps(world, host, t, c, evidence, built, after);
    ReplanAfterComputer(host, after, world.catalog, evidence, c, built, plan, later);
    PlansAreWellFormed(host, world.catalog);
    PlansAreWellFormed(after, world.catalog);
    UnblockedAdvances(world, host, after, run, t.next, plan, later);
  }

  /** The target of a stepped computer is the one it had, and binds to the same base. */
  lemma SteppedTargetKept(catalog: Catalog, c: Computer, evidence: Evidence, built: Image, images: map<string, string>)
    requires ValidCatalog(catalog) && TargetAvailable(c, catalog) && Managed(c) && ValidRecipe(c) && KeepsBasePreset(c)
    requires Target(c, catalog).contract.image.resolved in evidence && Local(evidence, images)
    ensures var next := ComputerNext(c, Target(c, catalog).contract, evidence, built);
            && Managed(next) && TargetAvailable(next, catalog) && (next.software.Some? <==> c.software.Some?)
            && Target(next, catalog).contract.image.resolved == Target(c, catalog).contract.image.resolved
            && Bind(Target(next, catalog).contract.image, images) == Bind(Target(c, catalog).contract.image, images)
  {
  }

  lemma PreparedAfterComputer(world: World, host: Host, t: Transaction, c: Computer, evidence: Evidence, built: Image,
                              after: Host, prepared: map<string, Prepared>)
    requires Ready(world, host) && ComputerTransaction(world, host, t, c, evidence, built)
             && RolledForward(host, t, after)
    requires Ready(world, after)
    requires PreparedUsable(world, host, prepared)
    ensures PreparedUsable(world, after, prepared)
  {
    hide Faithful, TagsApart, RecordedBases, Target, ComputerNext, WithComputer, TargetAvailable, ValidRecipe;
    var next := ComputerNext(c, Target(c, world.catalog).contract, evidence, built);
    forall id | id in prepared
      ensures exists d :: d in after.config.computers && d.id == id
    {
      var d :| d in host.config.computers && d.id == id;
      ReplaceKeepsIds(host.config, next, d);
    }
    ReplacedComputers(host.config, next);
    SteppedTargetKept(world.catalog, c, evidence, built, host.images);
    SteppedId(c, Target(c, world.catalog).contract, evidence, built);
    forall d | d in after.config.computers && d.id in prepared
      ensures Managed(d) && d.software.Some? && PreparationMatches(world, d, prepared[d.id], after.images)
    {
      if d == next { assert PreparationMatches(world, c, prepared[c.id], host.images); }
    }
  }

  lemma SteppedId(c: Computer, target: Contract, evidence: Evidence, built: Image)
    requires target.image.resolved in evidence
    ensures ComputerNext(c, target, evidence, built).id == c.id
  {
  }

  lemma ReplaceKeepsIds(config: Config, next: Computer, d: Computer)
    requires d in config.computers
    ensures exists e :: e in WithComputer(config, next).computers && e.id == d.id
  {
    var i :| 0 <= i < |config.computers| && config.computers[i] == d;
    assert WithComputer(config, next).computers[i] in WithComputer(config, next).computers;
  }

  /** A computer step that has rolled forward leaves a state recovery accepts. */
  lemma ComputerStepSettles(world: World, host: Host, t: Transaction, c: Computer, evidence: Evidence, built: Image,
                            after: Host, journal: Journal, run: Run)
    requires Settled(world, host, journal, run) && Done(run) < |Steps(run.plan)| && Steps(run.plan)[Done(run)] == t.key
    requires journal.active == Some(ActiveStep(t.key, t.next))
    requires ComputerTransaction(world, host, t, c, evidence, built) && RolledForward(host, t, after)
    ensures Settled(world, after, journal, Advance(run, t.next))
  {
    hide PlanOf, Steps, Faithful, TagsApart, RecordedBases, JournalParses, PreparedUsable, RolledForward, Recordable;
    SubjectPreservable(host, world.catalog, c);
    ReadyAfterComputer(world, host, t, c, evidence, built, after);
    ComputerUnblocked(world, host, t, c, evidence, built, after, run);
    PreparedAfterComputer(world, host, t, c, evidence, built, after, journal.prepared);
    ComputerStepWrites(world, host, t, c, evidence, built);
    PrefixAdvances(world.catalog, run, t.next);
    RolledForwardWrites(host, t, after);
  }

  lemma ComputerStepWrites(world: World, host: Host, t: Transaction, c: Computer, evidence: Evidence, built: Image)
    requires Ready(world, host) && ComputerTransaction(world, host, t, c, evidence, built)
    ensures StepWrites(world.catalog, host.config, t.key, t.next)
    ensures t.next.installationId == host.config.installationId
  {
    NotTheGatewayStep(c.id);
    assert WritesComputer(world.catalog, host.config, t.key, t.next, c, evidence, built);
  }

  lemma RolledForwardWrites(host: Host, t: Transaction, after: Host)
    requires RolledForward(host, t, after)
    ensures after.config == t.next && after.images == host.images
  {
  }

  // ----- the gateway step -----

  ghost predicate GatewayTransaction(world: World, host: Host, t: Transaction, evidence: Evidence)
    requires Ready(world, host)
  {
    var plan := PlanOf(host, world.catalog, false);
    && t.key == GATEWAY_STEP && Local(evidence, host.images)
    && TargetsAcquired(world.catalog, plan.gateway, plan.default, evidence)
    && t.next == GatewayNext(plan.gateway, plan.default, host.config, evidence)
    && t.state == RuntimeStateOf(Some(host.gatewayRuntime))
  }

  lemma GatewayImageNotDrifted(world: World, host: Host, t: Transaction, evidence: Evidence, after: Host)
    requires Ready(world, host) && GatewayTransaction(world, host, t, evidence) && RolledForward(host, t, after)
    requires PlanOf(host, world.catalog, false).blockers == []
    ensures !Drift(after.config.gateway.image, after.images)
  {
    PlanUnblockedIffStable(host, world.catalog, PlanOf(host, world.catalog, false));
  }

  /** The gateway step configures acquired bytes of the catalog gateway, or keeps a current image. */
  lemma GatewayWritten(world: World, host: Host, evidence: Evidence, default: Row, next: Config)
    requires TargetsAcquired(world.catalog, GatewayPreview(host, world.catalog), default, evidence)
             && Local(evidence, host.images)
    requires next == GatewayNext(GatewayPreview(host, world.catalog), default, host.config, evidence)
    ensures next.computers == host.config.computers
    ensures || (next.gateway.image.resolved == world.catalog.gateway.resolved
                && world.catalog.gateway.resolved in host.images)
            || (next.gateway.image == host.config.gateway.image
                && GatewayPreview(host, world.catalog).action == Current)
  {
  }

  lemma ReadyAfterGateway(world: World, host: Host, t: Transaction, evidence: Evidence, after: Host)
    requires Ready(world, host) && GatewayTransaction(world, host, t, evidence) && RolledForward(host, t, after)
    ensures Ready(world, after)
  {
    hide PlanOf, ComputerPreview, RuntimeStateOf, Target, TagsApart, RecordedBases, TargetAvailable, Faithful,
      GatewayPreview, DefaultPreview, GatewayNext, ValidContainers;
    var plan := PlanOf(host, world.catalog, false);
    PlanParts(host, world.catalog, plan);
    DefaultRowStepped(plan.gateway, host.config, world.catalog, evidence);
    GatewayWritten(world, host, evidence, plan.default, t.next);
    hide TargetsAcquired, Local;
    assert Plannable(after.config, world.catalog) && ValidHost(after, world.catalog);
    GatewayFaithful(world, host, after);
  }

  lemma GatewayFaithful(world: World, host: Host, after: Host)
    requires Ready(world, host) && Plannable(after.config, world.catalog)
    requires after.runtimes == host.runtimes && after.images == host.images
             && after.config.computers == host.config.computers
    requires || (after.config.gateway.image.resolved == world.catalog.gateway.resolved
                 && world.catalog.gateway.resolved in host.images)
             || (after.config.gateway.image == host.config.gateway.image
                 && GatewayPreview(host, world.catalog).action == Current)
    ensures Faithful(world, after) && TagsApart(world, after.config)
  {
    hide ComputerPreview, Target, TagApart, RecordedBases, ReadsCurrent, TargetAvailable, GatewayPreview;
    forall c | c in after.config.computers && ReadsCurrent(c, after, world.catalog)
      ensures Brings(world, c.contract.image, after.images)
    {
      SameReading(c, host, after, world.catalog);
    }
  }

  lemma SameReading(c: Computer, host: Host, after: Host, catalog: Catalog)
    requires TargetAvailable(c, catalog) && after.runtimes == host.runtimes && after.images == host.images
    ensures ReadsCurrent(c, after, catalog) == ReadsCurrent(c, host, catalog)
  {
  }

  lemma GatewayUnblocked(world: World, host: Host, t: Transaction, evidence: Evidence, after: Host, run: Run)
    requires Ready(world, host) && GatewayTransaction(world, host, t, evidence) && RolledForward(host, t, after)
    requires Ready(world, after) && Recordable(run.plan)
    requires 0 <= Done(run) < |Steps(run.plan)| && Steps(run.plan)[Done(run)] == t.key && Unblocked(world, host, run)
    ensures Unblocked(world, after, Advance(run, t.next))
  {
    hide PlanOf, Faithful, TagsApart, RecordedBases, WellFormed, PlanProgresses, Drift;
    var plan, later := PlanOf(host, world.catalog, false), PlanOf(after, world.catalog, false);
    GatewayImageNotDrifted(world, host, t, evidence, after);
    ReplanAfterGateway(host, after, world.catalog, evidence);
    ComputerStepsBehind(host, world.catalog, run, plan);
    PlansAreWellFormed(host, world.catalog);
    PlansAreWellFormed(after, world.catalog);
    UnblockedAdvances(world, host, after, run, t.next, plan, later);
  }

  /** Computer steps of a fresh plan lie behind the gateway step. */
  lemma ComputerStepsBehind(host: Host, catalog: Catalog, run: Run, plan: Plan)
    requires Plannable(host.config, catalog) && plan == PlanOf(host, catalog, false)
    requires 0 <= Done(run) < |Steps(run.plan)| && Steps(run.plan)[Done(run)] == GATEWAY_STEP
    requires Within(Steps(plan), Steps(run.plan)[Done(run)..])
    ensures Within(ComputerSteps(plan.computers), Steps(run.plan)[Done(run) + 1..])
  {
    var ahead := Steps(run.plan)[Done(run)..];
    PlanParts(host, catalog, plan);
    hide PlanOf, ComputerRows, GatewayMutates, ComputerSteps, TargetAvailable, GatewayPreview, DefaultPreview;
    ComputerStepKeys(SortedComputers(host.config), host, catalog);
    StepsSplit(plan);
    hide Steps;
    WithinTail(ComputerSteps(plan.computers), ahead);
    assert ahead[1..] == Steps(run.plan)[Done(run) + 1..];
  }

  lemma StepsSplit(plan: Plan)
    ensures Within(ComputerSteps(plan.computers), Steps(plan))
    ensures Within(Steps(plan), [GATEWAY_STEP] + ComputerSteps(plan.computers))
  {
  }

  lemma PreparedAfterGateway(world: World, host: Host, t: Transaction, after: Host, prepared: map<string, Prepared>)
    requires Ready(world, host) && Ready(world, after) && RolledForward(host, t, after) && t.key == GATEWAY_STEP
    requires after.config.computers == host.config.computers && PreparedUsable(world, host, prepared)
    ensures PreparedUsable(world, after, prepared)
  {
  }

  /** The gateway step, once rolled forward, leaves a state recovery accepts. */
  lemma GatewayStepSettles(world: World, host: Host, t: Transaction, evidence: Evidence, after: Host, journal: Journal,
                           run: Run)
    requires Settled(world, host, journal, run) && Done(run) < |Steps(run.plan)| && Steps(run.plan)[Done(run)] == t.key
    requires journal.active == Some(ActiveStep(t.key, t.next))
    requires GatewayTransaction(world, host, t, evidence) && RolledForward(host, t, after)
    ensures Settled(world, after, journal, Advance(run, t.next))
  {
    hide PlanOf, Steps, Faithful, TagsApart, RecordedBases, JournalParses, PreparedUsable, Recordable;
    ReadyAfterGateway(world, host, t, evidence, after);
    GatewayUnblocked(world, host, t, evidence, after, run);
    PreparedAfterGateway(world, host, t, after, journal.prepared);
    GatewayStepWrites(world, host, t, evidence);
    PrefixAdvances(world.catalog, run, t.next);
  }

  lemma GatewayStepWrites(world: World, host: Host, t: Transaction, evidence: Evidence)
    requires Ready(world, host) && GatewayTransaction(world, host, t, evidence)
    ensures StepWrites(world.catalog, host.config, t.key, t.next)
    ensures t.next.installationId == host.config.installationId && t.next.computers == host.config.computers
  {
    var plan := PlanOf(host, world.catalog, false);
    assert WritesGateway(world.catalog, host.config, t.next, plan.gateway, plan.default, evidence);
  }

  // ----- acquisition and acceptance -----

  /** The reference is a software tag of one of these computers. */
  predicate OwnedBy(world: World, reference: string, ids: set<string>) {
    world.owner(reference).Some? && world.owner(reference).value in ids
  }

  /** References are added with the bytes they name, and builds move software tags of these computers. */
  ghost predicate Changed(world: World, ids: set<string>, images: map<string, string>, later: map<string, string>) {
    && (forall r :: r in images ==> r in later && (later[r] == images[r] || OwnedBy(world, r, ids)))
    && (forall r :: r in later && r !in images ==> later[r] == world.content(r) || OwnedBy(world, r, ids))
  }

  /** The computers whose tags have moved are to be replaced anyway, and nothing has been saved for them yet. */
  ghost predicate Rebuilding(world: World, host: Host, prepared: map<string, Prepared>, ids: set<string>)
    requires Plannable(host.config, world.catalog)
  {
    forall c :: c in host.config.computers && c.id in ids ==> c.id !in prepared && StillMutates(c, host, world.catalog)
  }

  lemma ChangeIsQuiet(world: World, host: Host, ids: set<string>, images: map<string, string>)
    requires Ready(world, host) && Changed(world, ids, host.images, images)
    requires Rebuilding(world, host, map[], ids)
    ensures CurrentStaysQuiet(host, world.catalog, images)
  {
    hide ComputerPreview, Target, RecordedBases;
    CurrentHasNoDrift(host, world.catalog);
    forall c | c in host.config.computers && ReadsCurrent(c, host, world.catalog)
      ensures !Drifts(c, images)
    {
      assert TagApart(world, c);
      assert !Drifts(c, host.images) && Brings(world, c.contract.image, host.images);
      assert OwnedBy(world, c.contract.image.resolved, ids) ==> c.id in ids;
    }
    assert !OwnedBy(world, host.config.gateway.image.resolved, ids);
  }

  /** An absent image that reads current after the change read current before it. */
  lemma FaithfulAfterChange(world: World, host: Host, ids: set<string>, images: map<string, string>)
    requires Ready(world, host) && Changed(world, ids, host.images, images)
    ensures Faithful(world, host.(images := images))
  {
    hide ComputerPreview, Target, RecordedBases, TagsApart;
    var later := host.(images := images);
    RefreshedGateway(host, later, world.catalog);
    forall c | c in later.config.computers && ReadsCurrent(c, later, world.catalog)
      ensures Brings(world, c.contract.image, images)
    {
      if c.contract.image.resolved !in images {
        RefreshedComputer(c, Lookup(host.runtimes, c.id), images, host.images, world.catalog);
        assert !Drifts(c, host.images);
        assert ReadsCurrent(c, host, world.catalog);
      }
    }
    if host.config.gateway.image.resolved !in images {
      RefreshedGateway(later, host, world.catalog);
    }
  }

  lemma BasesAfterChange(world: World, host: Host, ids: set<string>, images: map<string, string>)
    requires ValidHost(host, world.catalog) && TagsApart(world, host.config) && Changed(world, ids, host.images, images)
    requires RecordedBases(world, host.config.computers, host.images)
    ensures RecordedBases(world, host.config.computers, images)
  {
    forall c | c in host.config.computers && RecordedBase(c).Some?
      ensures RecordedBase(c).value.contentId in {None, Some(Bytes(world, images, RecordedBase(c).value.resolved))}
    {
      assert TagApart(world, c);
    }
  }

  lemma ReadyAfterChange(world: World, host: Host, ids: set<string>, images: map<string, string>)
    requires Ready(world, host) && Changed(world, ids, host.images, images)
    ensures Ready(world, host.(images := images))
  {
    hide Faithful, RecordedBases, TagsApart;
    FaithfulAfterChange(world, host, ids, images);
    if world.intact { BasesAfterChange(world, host, ids, images); }
  }

  lemma PreparedAfterChange(world: World, host: Host, ids: set<string>, images: map<string, string>,
                            prepared: map<string, Prepared>)
    requires Ready(world, host) && Changed(world, ids, host.images, images)
    requires PreparedUsable(world, host, prepared) && Rebuilding(world, host, prepared, ids)
    ensures Plannable(host.config, world.catalog) && PreparedUsable(world, host.(images := images), prepared)
  {
    hide Target, StillMutates, Faithful, RecordedBases;
    forall c | c in host.config.computers && c.id in prepared
      ensures PreparationMatches(world, c, prepared[c.id], images)
    {
      assert TagApart(world, c) && PreparationMatches(world, c, prepared[c.id], host.images);
    }
  }

  lemma UnblockedAfterChange(world: World, host: Host, ids: set<string>, images: map<string, string>, run: Run,
                             plan: Plan, later: Plan)
    requires Ready(world, host) && Changed(world, ids, host.images, images) && Rebuilding(world, host, map[], ids)
    requires Ready(world, host.(images := images))
    requires plan == PlanOf(host, world.catalog, false)
             && later == PlanOf(host.(images := images), world.catalog, false)
    requires 0 <= Done(run) <= |Steps(run.plan)| && Unblocked(world, host, run)
    ensures Unblocked(world, host.(images := images), run)
  {
    hide PlanOf, Faithful, TagsApart, RecordedBases, WellFormed, PlanProgresses, Steps, Admits, Changed, Rebuilding,
      CurrentStaysQuiet;
    var after := host.(images := images);
    ChangeIsQuiet(world, host, ids, images);
    QuietPlanProgresses(host, after, world.catalog, plan, later);
    RefreshedPlan(host, after, world.catalog, plan, later);
    ComputerRowKinds(host, world.catalog, plan);
    ComputerRowKinds(after, world.catalog, later);
    QuietStepsShrink(plan, later);
    PlansAreWellFormed(host, world.catalog);
    PlansAreWellFormed(after, world.catalog);
    ProgressIsAdmitted(plan, later);
    AdmissionComposes(Accept(run.plan), Accept(plan), Accept(later));
  }

  lemma ComputerRowKinds(host: Host, catalog: Catalog, plan: Plan)
    requires Plannable(host.config, catalog) && plan == PlanOf(host, catalog, false)
    ensures forall row :: row in plan.computers ==> row.kind == ComputerRow
  {
    PlanParts(host, catalog, plan);
    hide PlanOf, ComputerRows, ComputerPreview, TargetAvailable;
    forall i | 0 <= i < |plan.computers|
      ensures plan.computers[i].kind == ComputerRow
    {
      var c := SortedComputers(host.config)[i];
      PreviewNamed(c, Lookup(host.runtimes, c.id), host.images, catalog);
    }
  }

  /**
   * Obtaining references and rebuilding the images of computers that are to be replaced, in the middle of a
   * run, leaves a state that recovery accepts.
   */
  lemma ChangeSettles(world: World, host: Host, ids: set<string>, images: map<string, string>, journal: Journal,
                      run: Run)
    requires Settled(world, host, journal, run) && Changed(world, ids, host.images, images)
    requires Rebuilding(world, host, journal.prepared, ids)
    ensures Settled(world, host.(images := images), journal, run)
  {
    hide PlanOf, Faithful, TagsApart, RecordedBases, Steps, Admits, Changed, PreparedUsable, JournalParses,
      Recordable, StillMutates;
    ReadyAfterChange(world, host, ids, images);
    PreparedAfterChange(world, host, ids, images, journal.prepared);
    UnblockedAfterChange(world, host, ids, images, run, PlanOf(host, world.catalog, false),
                         PlanOf(host.(images := images), world.catalog, false));
  }

  lemma {:induction false} RowTargetsNonEmpty(computers: seq<Computer>, host: Host, catalog: Catalog)
    requires ValidCatalog(catalog)
    requires forall c :: c in computers ==> TargetAvailable(c, catalog) && ValidRecipe(c) && NonEmptyBase(c)
    ensures NonEmptyTargets(ComputerRows(computers, host, catalog))
  {
    if computers != [] {
      RowTargetsNonEmpty(computers[1..], host, catalog);
      var rows := ComputerRows(computers, host, catalog);
      assert rows == [rows[0]] + ComputerRows(computers[1..], host, catalog);
      assert computers[0] in computers;
    }
  }

  lemma PlanTargetsNonEmpty(world: World, host: Host)
    requires Ready(world, host)
    ensures NonEmptyTargets(PlanOf(host, world.catalog, false).Rows())
  {
    RowTargetsNonEmpty(SortedComputers(host.config), host, world.catalog);
    OuterRowsNonEmpty(PlanOf(host, world.catalog, false));
  }

  lemma OuterRowsNonEmpty(plan: Plan)
    requires NonEmptyTargets([plan.gateway]) && NonEmptyTargets([plan.default]) && NonEmptyTargets(plan.computers)
    ensures NonEmptyTargets(plan.Rows())
  {
    forall row | row in plan.Rows()
      ensures row.key != "" && (row.targetImage.Some? ==> row.targetImage.value.resolved != "")
    {
      assert row in [plan.gateway] || row in [plan.default] || row in plan.computers;
    }
  }

  lemma ComputerHasRow(host: Host, catalog: Catalog, c: Computer, plan: Plan)
    requires Plannable(host.config, catalog) && c in host.config.computers
    requires plan.computers == ComputerRows(SortedComputers(host.config), host, catalog)
    ensures HasComputerRow(Accept(plan).rows, c.id)
  {
    var sorted := SortedComputers(host.config);
    var i :| 0 <= i < |sorted| && sorted[i] == c;
    ListedRowAccepted(plan, i);
  }

  lemma ListedRowAccepted(plan: Plan, i: nat)
    requires i < |plan.computers|
    ensures AcceptedRowOf(plan.computers[i]) in Accept(plan).rows
  {
    assert plan.Rows()[i + 2] == plan.computers[i];
    assert Accept(plan).rows[i + 2] == AcceptedRowOf(plan.computers[i]);
  }

  lemma PreparedParses(world: World, host: Host, prepared: map<string, Prepared>, plan: Plan)
    requires Ready(world, host) && PreparedUsable(world, host, prepared)
    requires plan.computers == ComputerRows(SortedComputers(host.config), host, world.catalog)
    ensures forall id :: id in prepared ==> HasComputerRow(Accept(plan).rows, id)
  {
    forall id | id in prepared
      ensures HasComputerRow(Accept(plan).rows, id)
    {
      var c :| c in host.config.computers && c.id == id;
      ComputerHasRow(host, world.catalog, c, plan);
    }
  }

  lemma AcceptsItself(world: World, host: Host)
    requires Ready(world, host)
    ensures var accepted := Accept(PlanOf(host, world.catalog, false));
            AcceptanceParses(accepted) && Admits(accepted, accepted)
  {
    var plan := PlanOf(host, world.catalog, false);
    PlansAreWellFormed(host, world.catalog);
    PlanTargetsNonEmpty(world, host);
    AcceptedPlanParses(plan);
    forall i | 0 <= i < |plan.Rows()|
      ensures Progresses(plan.Rows()[i], plan.Rows()[i])
    {
    }
    ProgressIsAdmitted(plan, plan);
  }

  function AcceptedJournal(plan: Plan, prepared: map<string, Prepared>): Journal {
    Journal(plan.config.installationId, plan.config, None, Accept(plan), prepared)
  }

  lemma AcceptedJournalParses(plan: Plan, prepared: map<string, Prepared>)
    requires AcceptanceParses(Accept(plan))
    requires forall id :: id in prepared ==>
               && HasComputerRow(Accept(plan).rows, id)
               && prepared[id].base.contentId.Some? && prepared[id].built.contentId.Some?
    ensures JournalParses(AcceptedJournal(plan, prepared))
  {
  }

  function Start(plan: Plan): Run {
    Run(plan, [plan.config])
  }

  lemma StartsUnblocked(world: World, host: Host, plan: Plan)
    requires Plannable(host.config, world.catalog) && plan == PlanOf(host, world.catalog, false) && plan.blockers == []
    requires Admits(Accept(plan), Accept(plan))
    ensures Unblocked(world, host, Start(plan)) && Prefix(world.catalog, Start(plan))
  {
    assert Steps(plan)[0..] == Steps(plan);
  }

  /** The steps of a fresh unblocked plan may be recorded one by one. */
  lemma FreshPlanIsRecordable(host: Host, catalog: Catalog, plan: Plan)
    requires ValidHost(host, catalog) && plan == PlanOf(host, catalog, false) && plan.blockers == []
    ensures Recordable(plan)
  {
    hide PlanOf, ComputerPreview, ComputerRows, ComputerSteps, InsideAcceptedPlan, Accept, TargetAvailable,
      GatewayPreview, DefaultPreview, SortedComputers, Steps;
    PlanParts(host, catalog, plan);
    PlanKeys(host, catalog, plan);
    ComputerKeysUnique(host, catalog);
    ComputerStepsDistinct(plan.computers);
    ComputerStepKeys(SortedComputers(host.config), host, catalog);
    DistinctSteps(plan);
    forall key | key in Steps(plan)
      ensures InsideAcceptedPlan(Accept(plan).rows, key)
    {
      StepsAreInsideAcceptedPlan(plan, key);
    }
  }

  lemma DistinctSteps(plan: Plan)
    requires NoDuplicates(ComputerSteps(plan.computers))
    requires forall key :: key in ComputerSteps(plan.computers) ==> key != GATEWAY_STEP && key != ""
    ensures NoDuplicates(Steps(plan)) && "" !in Steps(plan)
    ensures forall i :: 0 < i < |Steps(plan)| ==> Steps(plan)[i] != GATEWAY_STEP
  {
    hide ComputerSteps, GatewayMutates;
    PrependDistinct(GATEWAY_STEP, ComputerSteps(plan.computers));
    var steps := Steps(plan);
    forall i | 0 < i < |steps|
      ensures steps[i] != GATEWAY_STEP
    {
      assert steps[i] in ComputerSteps(plan.computers);
    }
  }

  lemma PlanKeys(host: Host, catalog: Catalog, plan: Plan)
    requires Plannable(host.config, catalog) && plan == PlanOf(host, catalog, false) && plan.blockers == []
    ensures plan.gateway.action in {Current, Upgrade, RepairContentDrift}
    ensures plan.gateway.key == "gateway" && plan.default.key == "default"
  {
    UnblockedStates(host, catalog, plan);
    PlanParts(host, catalog, plan);
    hide PlanOf, ComputerRows;
  }

  /** Accepting an unblocked plan starts a run from a settled state. */
  lemma AcceptanceSettles(world: World, host: Host, plan: Plan, prepared: map<string, Prepared>)
    requires Ready(world, host) && plan == PlanOf(host, world.catalog, false) && plan.blockers == []
    requires PreparedUsable(world, host, prepared)
    ensures Settled(world, host, AcceptedJournal(plan, prepared), Start(plan))
  {
    hide Faithful, TagsApart, RecordedBases, Recordable, JournalParses, AcceptanceParses, Admits, Steps,
      ExactTargets, Consumers, ComputerRows, GatewayPreview, DefaultPreview, VerifiedPresent, PlanBlockers, Sort,
      TargetAvailable;
    AcceptsItself(world, host);
    PreparedParses(world, host, prepared, plan);
    AcceptedJournalParses(plan, prepared);
    StartsUnblocked(world, host, plan);
    FreshPlanIsRecordable(host, world.catalog, plan);
  }

  // ----- journal records -----

  lemma UnblockedStates(host: Host, catalog: Catalog, plan: Plan)
    requires Plannable(host.config, catalog) && plan == PlanOf(host, catalog, false) && plan.blockers == []
    ensures plan.gateway.runtimeState in {Running, Stopped, Absent}
    ensures plan.gateway.action in {Current, Upgrade, RepairContentDrift}
    ensures forall row :: row in plan.computers ==>
              row.runtimeState != Blocked && (row.runtimeState == Running ==> plan.gateway.runtimeState == Running)
  {
    PlanUnblockedIffStable(host, catalog, plan);
    PlanParts(host, catalog, plan);
    hide PlanOf, ComputerRows, DefaultPreview, Drift, SameGatewayTarget;
  }

  function Started(journal: Journal, key: string, expected: Config): Journal {
    journal.(active := Some(ActiveStep(key, expected)))
  }

  function Completed(journal: Journal, config: Config): Journal {
    journal.(checkpoint := config, active := None)
  }

  /** The start record of the next step parses, and the checkpoint still identifies the configuration. */
  lemma StartedStaysSettled(world: World, host: Host, journal: Journal, run: Run, key: string, expected: Config)
    requires Settled(world, host, journal, run) && host.config == journal.checkpoint
    requires Done(run) < |Steps(run.plan)| && key == Steps(run.plan)[Done(run)]
    ensures Settled(world, host, Started(journal, key, expected), run)
  {
    hide PlanOf, Ready, PreparedUsable, Unblocked, AcceptanceParses;
    assert key in Steps(run.plan);
  }

  lemma CompletedStaysSettled(world: World, host: Host, journal: Journal, run: Run)
    requires Settled(world, host, journal, run)
    ensures Settled(world, host, Completed(journal, host.config), run)
  {
  }

  function SavePrepared(journal: Journal, id: string, prepared: Prepared): Journal {
    journal.(prepared := journal.prepared[id := prepared])
  }

  lemma PreparedUsableExtends(world: World, host: Host, saved: map<string, Prepared>, c: Computer, prepared: Prepared)
    requires Ready(world, host) && PreparedUsable(world, host, saved)
    requires c in host.config.computers && Managed(c) && c.software.Some?
    requires PreparationMatches(world, c, prepared, host.images)
    ensures PreparedUsable(world, host, saved[c.id := prepared])
  {
    hide Faithful, Target, TagsApart, RecordedBases;
    forall d | d in host.config.computers && d.id == c.id
      ensures d == c
    {
      UniqueElement(host.config.computers, d, c);
    }
  }

  /** A saved build is of a computer of the accepted plan and matches what acquisition binds again. */
  lemma PreparedStaysSettled(world: World, host: Host, journal: Journal, run: Run, c: Computer, prepared: Prepared)
    requires Settled(world, host, journal, run)
    requires c in host.config.computers && Managed(c) && c.software.Some?
    requires PreparationMatches(world, c, prepared, host.images)
    ensures Settled(world, host, SavePrepared(journal, c.id, prepared), run)
  {
    var plan := PlanOf(host, world.catalog, false);
    PlanParts(host, world.catalog, plan);
    hide PlanOf, Faithful, TagsApart, RecordedBases, Admits, PreparedUsable, JournalParses;
    PreparedUsableExtends(world, host, journal.prepared, c, prepared);
    ComputerHasRow(host, world.catalog, c, plan);
    RowKeptByAdmission(journal.accepted, Accept(plan), c.id);
    SavedParses(journal, c.id, prepared);
  }

  lemma SavedParses(journal: Journal, id: string, prepared: Prepared)
    requires JournalParses(journal) && HasComputerRow(journal.accepted.rows, id)
    requires prepared.base.contentId.Some? && prepared.built.contentId.Some?
    ensures JournalParses(SavePrepared(journal, id, prepared))
  {
  }

  lemma RowKeptByAdmission(accepted: Acceptance, current: Acceptance, id: string)
    requires Admits(accepted, current) && HasComputerRow(current.rows, id)
    ensures HasComputerRow(accepted.rows, id)
  {
    var row :| row in current.rows && row.kind == ComputerRow && row.key == RowKeyOf(id);
    assert AdmittedBySome(accepted.rows, row);
  }
}
