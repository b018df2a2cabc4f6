/**
 * The journal of an accepted `upgrade --all`, the states it may leave on disk, and why recovery
 * accepts every one of them. Models packages/cli/src/lifecycle-command.ts.
 */
module UpgradeProtocol {
  import opened Wrappers
  import opened ManagedRuntime
  import opened UpgradeAcceptance
  import opened Sorting
  import opened UpgradePlan
  import opened UpgradeSteps

  // ----- the journal -----

  /** Configuration digests are represented by the configuration they identify. */
  datatype ActiveStep = ActiveStep(key: string, expected: Config)
  datatype Prepared = Prepared(base: Image, built: Image)
  datatype Journal = Journal(installationId: string, checkpoint: Config, active: Option<ActiveStep>,
                             accepted: Acceptance, prepared: map<string, Prepared>)

  predicate InsideAcceptedPlan(rows: seq<AcceptedRow>, key: string) {
    exists row :: row in rows
      && (row.key == key || (key == GATEWAY_STEP && (row.key == "gateway" || row.key == "default")))
      && (Mutates(row.action) || row.action == UpdateDefault)
  }

  predicate HasComputerRow(rows: seq<AcceptedRow>, id: string) {
    exists row :: row in rows && row.kind == ComputerRow && row.key == RowKeyOf(id)
  }

  predicate AcceptanceParses(accepted: Acceptance) {
    && (forall row :: row in accepted.rows ==>
          row.key != "" && ValidContainers(row.runtimeContainers) && row.exactTarget != Some(""))
    && UniqueBy(accepted.rows, RowKey)
    && (forall target :: target in accepted.exactTargets ==>
          target.exactTarget != "" && NoDuplicates(target.consumerIds) && "" !in target.consumerIds)
    && UniqueBy(accepted.exactTargets, TargetKey)
  }

  /** parseUpgradeAllJournal accepts the document. */
  predicate JournalParses(journal: Journal) {
    && AcceptanceParses(journal.accepted)
    && (journal.active.Some? ==>
          journal.active.value.key != "" && InsideAcceptedPlan(journal.accepted.rows, journal.active.value.key))
    && forall id :: id in journal.prepared ==>
         && HasComputerRow(journal.accepted.rows, id)
         && journal.prepared[id].base.contentId.Some? && journal.prepared[id].built.contentId.Some?
  }

  lemma {:induction false} ConsumerIdsUnique(rows: seq<Row>)
    requires UniqueBy(rows, PreviewKey)
    ensures UniqueBy(Consumers(rows), ConsumerIdOf)
    ensures forall consumer :: consumer in Consumers(rows) ==>
              exists row :: row in rows && row.targetImage.Some? && consumer.id == row.key
                            && consumer.exactTarget == row.targetImage.value.resolved
  {
    if rows != [] {
      var rest := Consumers(rows[1..]);
      forall i, j | 0 <= i < j < |rows[1..]|
        ensures PreviewKey(rows[1..][i]) != PreviewKey(rows[1..][j])
      {
        assert PreviewKey(rows[i + 1]) != PreviewKey(rows[j + 1]);
      }
      ConsumerIdsUnique(rows[1..]);
      forall consumer | consumer in rest
        ensures consumer.id != rows[0].key
      {
        var row :| row in rows[1..] && consumer.id == row.key;
        var i :| 0 <= i < |rows[1..]| && rows[1..][i] == row;
        assert PreviewKey(rows[0]) != PreviewKey(rows[i + 1]);
      }
      if rows[0].targetImage.Some? {
        var consumers := Consumers(rows);
        assert consumers[1..] == rest;
        forall i, j | 0 <= i < j < |consumers|
          ensures ConsumerIdOf(consumers[i]) != ConsumerIdOf(consumers[j])
        {
          if i > 0 {
            assert ConsumerIdOf(rest[i - 1]) != ConsumerIdOf(rest[j - 1]);
          } else {
            assert consumers[j] == rest[j - 1];
          }
        }
      }
    }
  }

  lemma {:induction false} ConsumersOfUnique(consumers: seq<Consumer>, target: string)
    requires UniqueBy(consumers, ConsumerIdOf)
    ensures UniqueBy(ConsumersOf(consumers, target), ConsumerIdOf)
    ensures forall consumer :: consumer in ConsumersOf(consumers, target) ==> consumer in consumers
  {
    if consumers != [] {
      forall i, j | 0 <= i < j < |consumers[1..]|
        ensures ConsumerIdOf(consumers[1..][i]) != ConsumerIdOf(consumers[1..][j])
      {
        assert ConsumerIdOf(consumers[i + 1]) != ConsumerIdOf(consumers[j + 1]);
      }
      ConsumersOfUnique(consumers[1..], target);
      if consumers[0].exactTarget == target {
        var picked, rest := ConsumersOf(consumers, target), ConsumersOf(consumers[1..], target);
        assert picked == [consumers[0]] + rest;
        forall i, j | 0 <= i < j < |picked|
          ensures ConsumerIdOf(picked[i]) != ConsumerIdOf(picked[j])
        {
          if i > 0 {
            assert ConsumerIdOf(rest[i - 1]) != ConsumerIdOf(rest[j - 1]);
          } else {
            assert picked[j] in consumers[1..];
            var k :| 0 <= k < |consumers[1..]| && consumers[1..][k] == picked[j];
            assert ConsumerIdOf(consumers[0]) != ConsumerIdOf(consumers[k + 1]);
          }
        }
      }
    }
  }

  lemma {:induction false} DistinctTargetsMembers(consumers: seq<Consumer>, target: string)
    requires target in DistinctTargets(consumers)
    ensures exists consumer :: consumer in consumers && consumer.exactTarget == target
  {
    if consumers[0].exactTarget != target {
      DistinctTargetsMembers(consumers[1..], target);
    }
  }

  lemma TargetConsumersParse(consumers: seq<Consumer>, target: string)
    requires UniqueBy(consumers, ConsumerIdOf) && forall c :: c in consumers ==> c.id != ""
    ensures var ids := Map(Sort(ConsumersOf(consumers, target), ConsumerLe), ConsumerIdOf);
            NoDuplicates(ids) && "" !in ids
  {
    var picked := ConsumersOf(consumers, target);
    var sorted := Sort(picked, ConsumerLe);
    var ids := Map(sorted, ConsumerIdOf);
    ConsumersOfUnique(consumers, target);
    SortKeepsKeyUnique(picked, ConsumerLe, ConsumerIdOf);
    SortKeepsElements(picked, ConsumerLe);
    forall i, j | 0 <= i < j < |ids|
      ensures ids[i] != ids[j]
    {
      assert ConsumerIdOf(sorted[i]) != ConsumerIdOf(sorted[j]);
    }
    forall i | 0 <= i < |ids|
      ensures ids[i] != ""
    {
      assert sorted[i] in sorted;
    }
  }

  ghost predicate NonEmptyTargets(rows: seq<Row>) {
    forall row :: row in rows ==> row.key != "" && (row.targetImage.Some? ==> row.targetImage.value.resolved != "")
  }

  /** What `recordAccepted` writes is read back by the strict parser. */
  lemma AcceptedPlanParses(plan: Plan)
    requires WellFormed(plan) && NonEmptyTargets(plan.Rows())
    ensures AcceptanceParses(Accept(plan))
  {
    var accepted, consumers := Accept(plan), Consumers(plan.Rows());
    AcceptedKeysUnique(plan);
    ExactTargetsUnique(consumers);
    ConsumerIdsUnique(plan.Rows());
    forall target | target in accepted.exactTargets
      ensures target.exactTarget != "" && NoDuplicates(target.consumerIds) && "" !in target.consumerIds
    {
      SortKeepsElements(DistinctTargets(consumers), TextLe);
      assert target.exactTarget in Sort(DistinctTargets(consumers), TextLe);
      DistinctTargetsMembers(consumers, target.exactTarget);
      TargetConsumersParse(consumers, target.exactTarget);
    }
    forall row | row in accepted.rows
      ensures row.key != "" && ValidContainers(row.runtimeContainers) && row.exactTarget != Some("")
    {
      var i :| 0 <= i < |plan.Rows()| && AcceptedRowOf(plan.Rows()[i]) == row;
      assert plan.Rows()[i] in plan.Rows();
    }
  }

  lemma {:induction false} StepRow(rows: seq<Row>, key: string)
    requires key in ComputerSteps(rows)
    ensures exists row :: row in rows && row.key == key && ComputerMutates(row)
  {
    if !(ComputerMutates(rows[0]) && rows[0].key == key) {
      StepRow(rows[1..], key);
    }
  }

  /** Every step of an unblocked plan may be recorded as the active step. */
  lemma StepsAreInsideAcceptedPlan(plan: Plan, key: string)
    requires key in Steps(plan)
    requires plan.gateway.action in {Current, Upgrade, RepairContentDrift}
    requires plan.gateway.key == "gateway" && plan.default.key == "default"
    ensures InsideAcceptedPlan(Accept(plan).rows, key)
  {
    var rows := Accept(plan).rows;
    if GatewayMutates(plan) && key == GATEWAY_STEP {
      assert rows[0] == AcceptedRowOf(plan.gateway) && rows[1] == AcceptedRowOf(plan.default);
      assert plan.gateway.action != Current ==> rows[0] in rows && Mutates(rows[0].action);
      assert plan.default.action == UpdateDefault ==> rows[1] in rows && rows[1].action == UpdateDefault;
    } else {
      StepRow(plan.computers, key);
      var row :| row in plan.computers && row.key == key && ComputerMutates(row);
      var i :| 0 <= i < |plan.computers| && plan.computers[i] == row;
      assert plan.Rows()[i + 2] == row;
      assert rows[i + 2] == AcceptedRowOf(row);
      assert rows[i + 2] in rows;
    }
  }

  // ----- transactions -----

  /** One roll-forward state transaction: the configuration it writes and the runtime it replaces. */
  datatype Transaction = Transaction(next: Config, key: string, state: RuntimeState, work: bool)

  /** Only the runtime the step is about may differ, and only if the step replaces it. */
  ghost predicate OthersUntouched(before: Host, t: Transaction, after: Host) {
    && after.images == before.images
    && (!t.work ==> after.gatewayRuntime == before.gatewayRuntime && after.runtimes == before.runtimes)
    && if t.key == GATEWAY_STEP then after.runtimes == before.runtimes
       else && after.gatewayRuntime == before.gatewayRuntime
            && forall id :: RowKeyOf(id) != t.key ==> Lookup(after.runtimes, id) == Lookup(before.runtimes, id)
  }

  ghost predicate ValidRuntimes(host: Host) {
    && ValidContainers(host.gatewayRuntime.containers)
    && forall id :: id in host.runtimes ==> ValidContainers(host.runtimes[id].containers)
  }

  function SubjectState(host: Host, key: string): RuntimeState {
    if key == GATEWAY_STEP then RuntimeStateOf(Some(host.gatewayRuntime))
    else if |key| >= 9 then RuntimeStateOf(Lookup(host.runtimes, key[9..]))
    else Blocked
  }

  /** The transaction has run to its end: configuration written, runtime back in its preserved state. */
  ghost predicate RolledForward(before: Host, t: Transaction, after: Host) {
    && after.config == t.next
    && OthersUntouched(before, t, after)
    && ValidRuntimes(after)
    && SubjectState(after, t.key) == t.state
  }

  /** The transaction is journalled and may have been cut anywhere. */
  ghost predicate Interrupted(before: Host, t: Transaction, during: Host) {
    && (during.config == before.config || during.config == t.next)
    && OthersUntouched(before, t, during) && ValidRuntimes(during)
  }

  /** The state a transaction preserves is one that can be preserved, and it is the observed one. */
  ghost predicate Preserving(t: Transaction, host: Host) {
    && t.state in {Running, Stopped, Absent}
    && (t.key == GATEWAY_STEP || (|t.key| >= 9 && RowKeyOf(t.key[9..]) == t.key))
    && ValidRuntimes(host)
    && (!t.work ==> SubjectState(host, t.key) == t.state)
  }

  lemma RollForwardForgetsInterruption(before: Host, t: Transaction, during: Host, after: Host)
    requires Interrupted(before, t, during) && RolledForward(during, t, after)
    ensures RolledForward(before, t, after)
  {
    if t.key != GATEWAY_STEP {
      forall id | RowKeyOf(id) != t.key
        ensures Lookup(after.runtimes, id) == Lookup(before.runtimes, id)
      {
        assert Lookup(during.runtimes, id) == Lookup(before.runtimes, id);
      }
    }
  }

  // ----- environment -----

  /**
   * What references name when they are obtained, the tag a software build gives its result, and the
   * computer whose software tag a reference is. When `intact`, the recorded recipe bases that an upgrade
   * binds again still name their recorded bytes.
   */
  datatype World = World(catalog: Catalog, content: string -> string, softwareTag: (string, Image) -> Image,
                         owner: string -> Option<string>, intact: bool)

  /** What a reference names: its local bytes, or the bytes obtaining it would bring. */
  function Bytes(world: World, images: map<string, string>, reference: string): string {
    if reference in images then images[reference] else world.content(reference)
  }

  /** Obtaining the reference of this image, if it is absent, brings the bytes recorded for it. */
  predicate Brings(world: World, image: Image, images: map<string, string>) {
    image.contentId.Some? && image.resolved !in images ==> world.content(image.resolved) == image.contentId.value
  }

  /** Obtaining an absent image of a row that reads current brings the bytes recorded for it. */
  ghost predicate Faithful(world: World, host: Host)
    requires Plannable(host.config, world.catalog)
  {
    && (GatewayPreview(host, world.catalog).action == Current ==> Brings(world, host.config.gateway.image, host.images))
    && forall c :: c in host.config.computers && ReadsCurrent(c, host, world.catalog) ==>
         Brings(world, c.contract.image, host.images)
  }

  /** Software tags carry the identity of their computer: nothing else is configured with them or built on them. */
  ghost predicate TagsApart(world: World, config: Config)
    requires Plannable(config, world.catalog)
  {
    && (forall id, base :: world.owner(world.softwareTag(id, base).resolved) == Some(id))
    && world.owner(world.catalog.gateway.resolved).None? && world.owner(config.gateway.image.resolved).None?
    && (forall p :: p in world.catalog.presets ==> world.owner(world.catalog.presets[p].contract.image.resolved).None?)
    && forall c :: c in config.computers ==> TagApart(world, c)
  }

  ghost predicate TagApart(world: World, c: Computer)
    requires TargetAvailable(c, world.catalog)
  {
    && world.owner(c.contract.image.resolved) in {None, Some(c.id)}
    && (Managed(c) ==> world.owner(Target(c, world.catalog).contract.image.resolved).None?)
  }

  /** The base identity that a recipe of no catalog preset is upgraded to again. */
  function RecordedBase(c: Computer): Option<Image> {
    if c.software.Some? && BasePreset(c) == Custom then c.software.value.baseIdentity else None
  }

  ghost predicate RecordedBases(world: World, computers: seq<Computer>, images: map<string, string>) {
    forall c :: c in computers && RecordedBase(c).Some? ==>
      RecordedBase(c).value.contentId in {None, Some(Bytes(world, images, RecordedBase(c).value.resolved))}
  }

  ghost predicate Ready(world: World, host: Host) {
    && ValidCatalog(world.catalog) && ValidHost(host, world.catalog)
    && Faithful(world, host) && TagsApart(world, host.config)
    && (world.intact ==> RecordedBases(world, host.config.computers, host.images))
    && forall c :: c in host.config.computers ==> KeepsBasePreset(c)
  }

  // ----- progress of a run -----

  /** A computer step writes one computer, bound to acquired bytes of its catalog target. */
  ghost predicate WritesComputer(catalog: Catalog, before: Config, key: string, after: Config, c: Computer,
                                 evidence: Evidence, built: Image)
  {
    && c in before.computers && RowKeyOf(c.id) == key && Managed(c) && TargetAvailable(c, catalog)
    && Target(c, catalog).contract.image.resolved in evidence
    && after == WithComputer(before, ComputerNext(c, Target(c, catalog).contract, evidence, built))
  }

  ghost predicate WritesGateway(catalog: Catalog, before: Config, after: Config, gateway: Row, default: Row,
                                evidence: Evidence)
  {
    && (gateway.action != Current ==>
          gateway.targetImage == Some(catalog.gateway) && catalog.gateway.resolved in evidence)
    && (default.action == UpdateDefault ==>
          && before.defaults.contract.preset in catalog.presets
          && default.target == Some(catalog.presets[before.defaults.contract.preset])
          && default.target.value.contract.image.resolved in evidence)
    && after == GatewayNext(gateway, default, before, evidence)
  }

  ghost predicate StepWrites(catalog: Catalog, before: Config, key: string, after: Config) {
    if key == GATEWAY_STEP
    then exists gateway, default, evidence :: WritesGateway(catalog, before, after, gateway, default, evidence)
    else exists c, evidence, built :: WritesComputer(catalog, before, key, after, c, evidence, built)
  }

  /** The plan accepted last, and every configuration the run has had on disk since. */
  datatype Run = Run(plan: Plan, trail: seq<Config>)

  function Done(run: Run): int { |run.trail| - 1 }

  ghost predicate Prefix(catalog: Catalog, run: Run) {
    && 0 <= Done(run) <= |Steps(run.plan)|
    && run.trail[0] == run.plan.config
    && forall i :: 0 <= i < Done(run) ==> StepWrites(catalog, run.trail[i], Steps(run.plan)[i], run.trail[i + 1])
  }

  predicate AtCheckpoint(config: Config, journal: Journal) {
    config == journal.checkpoint || (journal.active.Some? && config == journal.active.value.expected)
  }

  predicate LocalBuild(image: Image, images: map<string, string>) {
    image.resolved in images && image.contentId == Some(images[image.resolved])
  }

  /** Every saved build is one that recovery may use again for its computer. */
  ghost predicate PreparedUsable(world: World, host: Host, prepared: map<string, Prepared>)
    requires Plannable(host.config, world.catalog)
  {
    && (forall id :: id in prepared ==>
          && prepared[id].base.contentId.Some? && prepared[id].built.contentId.Some?
          && exists c :: c in host.config.computers && c.id == id)
    && forall c :: c in host.config.computers && c.id in prepared ==>
         Managed(c) && c.software.Some? && PreparationMatches(world, c, prepared[c.id], host.images)
  }

  predicate StillMutates(c: Computer, host: Host, catalog: Catalog)
    requires TargetAvailable(c, catalog)
  {
    Managed(c) && ComputerMutates(ComputerPreview(c, Lookup(host.runtimes, c.id), host.images, catalog))
  }

  /** A saved build is of the very base that acquisition will bind again, under its computer's tag, and local. */
  ghost predicate PreparationMatches(world: World, c: Computer, prepared: Prepared, images: map<string, string>)
    requires Managed(c) && TargetAvailable(c, world.catalog)
  {
    var target := Target(c, world.catalog).contract.image;
    && target.resolved in images && prepared.base == Bind(target, images)
    && world.owner(prepared.built.resolved) == Some(c.id) && LocalBuild(prepared.built, images)
  }

  /** Every step of the plan may be recorded as active, once, and the gateway step comes first. */
  ghost predicate Recordable(plan: Plan) {
    && NoDuplicates(Steps(plan))
    && (forall i :: 0 < i < |Steps(plan)| ==> Steps(plan)[i] != GATEWAY_STEP)
    && forall key :: key in Steps(plan) ==> key != "" && InsideAcceptedPlan(Accept(plan).rows, key)
  }

  /**
   * A state between transactions that the protocol may leave: the configuration is the accepted one
   * with a prefix of the steps applied, and recovery accepts it.
   */
  ghost predicate Settled(world: World, host: Host, journal: Journal, run: Run) {
    && Ready(world, host)
    && JournalParses(journal) && journal.installationId == host.config.installationId
    && AtCheckpoint(host.config, journal)
    && Recordable(run.plan) && Prefix(world.catalog, run)
    && run.trail[Done(run)] == host.config && journal.accepted == Accept(run.plan)
    && Unblocked(world, host, run)
    && PreparedUsable(world, host, journal.prepared)
  }

  ghost predicate Within(keys: seq<string>, ahead: seq<string>) {
    forall key :: key in keys ==> key in ahead
  }

  /** A fresh plan is admitted, is not blocked, and asks for no step but accepted ones still ahead. */
  ghost predicate Unblocked(world: World, host: Host, run: Run)
    requires Plannable(host.config, world.catalog) && 0 <= Done(run) <= |Steps(run.plan)|
  {
    var plan := PlanOf(host, world.catalog, false);
    && plan.blockers == []
    && Within(Steps(plan), Steps(run.plan)[Done(run)..])
    && Admits(Accept(run.plan), Accept(plan))
  }
}
