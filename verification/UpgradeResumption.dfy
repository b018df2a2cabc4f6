/**
 * What the running upgrade relies on between its effects: pending transactions that can only end in
 * settled states, the chain of reviews, and how a step finds its row and its computer.
 * Models packages/cli/src/lifecycle-update.ts and packages/cli/src/lifecycle-command.ts.
 */
module UpgradeResumption {
  import opened Wrappers
  import opened ManagedRuntime
  import opened UpgradeAcceptance
  import opened Sorting
  import opened UpgradePlan
  import opened UpgradeSteps
  import opened UpgradeProtocol
  import opened UpgradeSettling

  /** Every acceptance so far was rebuilt from a plan that the one before it admits. */
  ghost predicate Reviewed(accepted: Acceptance, history: seq<Acceptance>) {
    history != [] && history[|history| - 1] == accepted && RecoveryChain(history)
  }

  lemma ReviewExtends(history: seq<Acceptance>, accepted: Acceptance, next: Acceptance)
    requires Reviewed(accepted, history) && Admits(accepted, next)
    ensures Reviewed(next, history + [next])
  {
    var longer := history + [next];
    forall i | 0 <= i < |longer| - 1
      ensures Admits(longer[i], longer[i + 1])
    {
      if i < |history| - 1 {
        assert Admits(history[i], history[i + 1]);
      }
    }
  }

  /** However the journalled transaction is rolled forward from here, the result is a settled state. */
  ghost predicate Pending(world: World, host: Host, t: Transaction, journal: Journal, run: Run) {
    forall after :: RolledForward(host, t, after) ==> Settled(world, after, journal, run)
  }

  lemma PendingSurvivesCut(world: World, host: Host, t: Transaction, during: Host, journal: Journal, run: Run)
    requires Pending(world, host, t, journal, run) && Interrupted(host, t, during) && Preserving(t, host)
    ensures Pending(world, during, t, journal, run) && Preserving(t, during)
  {
    hide Settled;
    forall after | RolledForward(during, t, after)
      ensures Settled(world, after, journal, run)
    {
      RollForwardForgetsInterruption(host, t, during, after);
    }
  }

  /**
   * Wherever the transaction is cut, the configuration on disk is one of the last two of the run, and both
   * it and the one to be written are identified by the journal.
   */
  ghost predicate AtCut(host: Host, t: Transaction, journal: Journal, run: Run) {
    && AtCheckpoint(host.config, journal) && AtCheckpoint(t.next, journal)
    && Done(run) >= 1 && run.trail[Done(run)] == t.next
    && (host.config == run.trail[Done(run) - 1] || host.config == run.trail[Done(run)])
  }

  lemma CutStays(before: Host, t: Transaction, during: Host, journal: Journal, run: Run)
    requires AtCut(before, t, journal, run) && Interrupted(before, t, during)
    ensures AtCut(during, t, journal, run)
  {
  }

  lemma CutBegins(world: World, host: Host, t: Transaction, journal: Journal, run: Run)
    requires Settled(world, host, journal, run) && journal.active == Some(ActiveStep(t.key, t.next))
    ensures AtCut(host, t, journal, Advance(run, t.next))
  {
    hide Ready, PreparedUsable, Unblocked, Recordable, JournalParses, StepWrites, Steps;
  }

  lemma ComputerStepPending(world: World, host: Host, t: Transaction, c: Computer, evidence: Evidence, built: Image,
                            journal: Journal, run: Run)
    requires Settled(world, host, journal, run) && Done(run) < |Steps(run.plan)| && Steps(run.plan)[Done(run)] == t.key
    requires journal.active == Some(ActiveStep(t.key, t.next))
    requires ComputerTransaction(world, host, t, c, evidence, built)
    ensures Pending(world, host, t, journal, Advance(run, t.next))
  {
    hide Settled, ComputerTransaction;
    forall after | RolledForward(host, t, after)
      ensures Settled(world, after, journal, Advance(run, t.next))
    {
      ComputerStepSettles(world, host, t, c, evidence, built, after, journal, run);
    }
  }

  /** A computer's transaction may be cut anywhere, and recovery knows where the configuration stands. */
  lemma ComputerStepCuts(world: World, host: Host, t: Transaction, c: Computer, evidence: Evidence, built: Image,
                         journal: Journal, run: Run)
    requires Settled(world, host, journal, run) && Done(run) < |Steps(run.plan)| && Steps(run.plan)[Done(run)] == t.key
    requires journal.active == Some(ActiveStep(t.key, t.next))
    requires ComputerTransaction(world, host, t, c, evidence, built)
    ensures Pending(world, host, t, journal, Advance(run, t.next)) && AtCut(host, t, journal, Advance(run, t.next))
  {
    hide Settled, ComputerTransaction, Pending, AtCut;
    ComputerStepPending(world, host, t, c, evidence, built, journal, run);
    CutBegins(world, host, t, journal, run);
  }

  lemma ComputerStepDone(world: World, before: Host, t: Transaction, c: Computer, evidence: Evidence, built: Image,
                         after: Host)
    requires Ready(world, before) && ComputerTransaction(world, before, t, c, evidence, built)
             && RolledForward(before, t, after)
    ensures ComputerStepped(before, after, world.catalog, evidence, c, built)
    ensures after.config == t.next && after.images == before.images
  {
    ComputerTransactionSteps(world, before, t, c, evidence, built, after);
  }

  lemma GatewayStepPending(world: World, host: Host, t: Transaction, evidence: Evidence, journal: Journal, run: Run)
    requires Settled(world, host, journal, run) && Done(run) < |Steps(run.plan)| && Steps(run.plan)[Done(run)] == t.key
    requires journal.active == Some(ActiveStep(t.key, t.next))
    requires GatewayTransaction(world, host, t, evidence)
    ensures Pending(world, host, t, journal, Advance(run, t.next))
  {
    hide Settled, GatewayTransaction;
    forall after | RolledForward(host, t, after)
      ensures Settled(world, after, journal, Advance(run, t.next))
    {
      GatewayStepSettles(world, host, t, evidence, after, journal, run);
    }
  }

  lemma SettledIsReady(world: World, host: Host, journal: Journal, run: Run)
    requires Settled(world, host, journal, run)
    ensures Ready(world, host) && Plannable(host.config, world.catalog)
    ensures 0 <= Done(run) <= |Steps(run.plan)| && run.trail[Done(run)] == host.config
  {
  }

  lemma RolledForwardConfig(before: Host, t: Transaction, after: Host)
    requires RolledForward(before, t, after)
    ensures after.config == t.next && after.images == before.images
  {
  }

  lemma ComputerTransactionReady(world: World, host: Host, t: Transaction, c: Computer, evidence: Evidence,
                                 built: Image)
    requires Ready(world, host)
    requires c in host.config.computers && Managed(c) && t.key == RowKeyOf(c.id)
    requires Local(evidence, host.images) && Target(c, world.catalog).contract.image.resolved in evidence
    requires c.software.Some? ==> LocalBuild(built, host.images) && world.owner(built.resolved) == Some(c.id)
    requires t.next == WithComputer(host.config, ComputerNext(c, Target(c, world.catalog).contract, evidence, built))
    requires t.state == RuntimeStateOf(Lookup(host.runtimes, c.id)) && t.state in {Running, Stopped, Absent}
    ensures ComputerTransaction(world, host, t, c, evidence, built)
    ensures Preserving(t, host) && SubjectState(host, t.key) == t.state
  {
    NotTheGatewayStep(c.id);
  }

  /** The rows of the gateway step decide as fresh rows would; their drift verdict may be older. */
  ghost predicate SameGatewayStep(host: Host, catalog: Catalog, gateway: Row, default: Row)
    requires Plannable(host.config, catalog)
  {
    var current := GatewayPreview(host, catalog);
    && gateway.action == current.action && gateway.targetImage == current.targetImage
    && default == DefaultPreview(host.config.defaults, catalog)
  }

  lemma GatewayTransactionReady(world: World, host: Host, t: Transaction, gateway: Row, default: Row,
                                evidence: Evidence)
    requires Ready(world, host)
    requires SameGatewayStep(host, world.catalog, gateway, default)
    requires t.key == GATEWAY_STEP && t.state == RuntimeStateOf(Some(host.gatewayRuntime))
             && t.state in {Running, Stopped, Absent}
    requires Local(evidence, host.images) && TargetsAcquired(world.catalog, gateway, default, evidence)
    requires t.next == GatewayNext(gateway, default, host.config, evidence)
    ensures GatewayTransaction(world, host, t, evidence)
    ensures Preserving(t, host) && SubjectState(host, t.key) == t.state
  {
  }

  /** What a gateway step leaves alone. */
  ghost predicate GatewayStepped(before: Host, after: Host) {
    && after.config.computers == before.config.computers && after.runtimes == before.runtimes
    && after.images == before.images
    && RuntimeStateOf(Some(after.gatewayRuntime)) == RuntimeStateOf(Some(before.gatewayRuntime))
  }

  lemma GatewayRolledForward(world: World, before: Host, t: Transaction, evidence: Evidence, after: Host)
    requires Ready(world, before) && GatewayTransaction(world, before, t, evidence) && RolledForward(before, t, after)
    ensures GatewayStepped(before, after)
  {
  }

  // ----- finding a step's subject -----

  function FindComputer(computers: seq<Computer>, key: string): Option<Computer> {
    if computers == [] then None
    else if RowKeyOf(computers[0].id) == key then Some(computers[0])
    else FindComputer(computers[1..], key)
  }

  function FindRow(rows: seq<Row>, key: string): Option<Row> {
    if rows == [] then None else if rows[0].key == key then Some(rows[0]) else FindRow(rows[1..], key)
  }

  lemma {:induction false} FindUnique(computers: seq<Computer>, c: Computer)
    requires UniqueBy(computers, ComputerId) && c in computers
    ensures FindComputer(computers, RowKeyOf(c.id)) == Some(c)
  {
    if RowKeyOf(computers[0].id) == RowKeyOf(c.id) {
      RowKeyInjective(computers[0].id, c.id);
      UniqueElement(computers, computers[0], c);
    } else {
      forall i, j | 0 <= i < j < |computers[1..]|
        ensures ComputerId(computers[1..][i]) != ComputerId(computers[1..][j])
      {
        assert ComputerId(computers[i + 1]) != ComputerId(computers[j + 1]);
      }
      FindUnique(computers[1..], c);
    }
  }

  lemma {:induction false} FindRowUnique(rows: seq<Row>, row: Row)
    requires UniqueBy(rows, PreviewKey) && row in rows
    ensures FindRow(rows, row.key) == Some(row)
  {
    if rows[0] != row {
      forall i, j | 0 <= i < j < |rows[1..]|
        ensures PreviewKey(rows[1..][i]) != PreviewKey(rows[1..][j])
      {
        assert PreviewKey(rows[i + 1]) != PreviewKey(rows[j + 1]);
      }
      var i :| 0 <= i < |rows| && rows[i] == row;
      assert PreviewKey(rows[0]) != PreviewKey(rows[i]);
      FindRowUnique(rows[1..], row);
    }
  }

  /** The row and the computer of a listed preview are found by its key. */
  lemma FindSubject(host: Host, catalog: Catalog, c: Computer)
    requires ValidHost(host, catalog) && c in host.config.computers
    ensures FindComputer(host.config.computers, RowKeyOf(c.id)) == Some(c)
    ensures FindRow(ComputerRows(SortedComputers(host.config), host, catalog), RowKeyOf(c.id))
              == Some(ComputerPreview(c, Lookup(host.runtimes, c.id), host.images, catalog))
  {
    FindUnique(host.config.computers, c);
    ComputerKeysUnique(host, catalog);
    var sorted := SortedComputers(host.config);
    var rows := ComputerRows(sorted, host, catalog);
    var i :| 0 <= i < |sorted| && sorted[i] == c;
    assert rows[i] in rows;
    FindRowUnique(rows, rows[i]);
  }

  /** A computer step's key finds a computer that still mutates, and its row. */
  lemma StepSubject(host: Host, catalog: Catalog, rows: seq<Row>, key: string)
    requires ValidHost(host, catalog) && rows == ComputerRows(SortedComputers(host.config), host, catalog)
    requires key in ComputerSteps(rows)
    ensures var c := FindComputer(host.config.computers, key);
            && c.Some? && c.value in host.config.computers && RowKeyOf(c.value.id) == key
            && StillMutates(c.value, host, catalog)
            && FindRow(rows, key)
                 == Some(ComputerPreview(c.value, Lookup(host.runtimes, c.value.id), host.images, catalog))
  {
    StepComputer(SortedComputers(host.config), host, catalog, key);
    var c :| c in host.config.computers && key == RowKeyOf(c.id) && StillMutates(c, host, catalog);
    FindSubject(host, catalog, c);
  }

  // ----- acquisition -----

  /** Only the image store has changed, by obtaining references and moving software tags of these computers. */
  ghost predicate Grown(world: World, ids: set<string>, before: Host, after: Host) {
    after == before.(images := after.images) && Changed(world, ids, before.images, after.images)
  }

  lemma GrownTransitive(world: World, ids: set<string>, a: Host, b: Host, c: Host)
    requires Grown(world, ids, a, b) && Grown(world, ids, b, c)
    ensures Grown(world, ids, a, c)
  {
  }

  lemma GrownWider(world: World, ids: set<string>, more: set<string>, before: Host, after: Host)
    requires Grown(world, ids, before, after) && ids <= more
    ensures Grown(world, more, before, after)
  {
  }

  lemma GrownByNothing(world: World, ids: set<string>, host: Host)
    ensures Grown(world, ids, host, host)
  {
  }

  predicate MatchesRecorded(rows: seq<Row>, reference: string, contentId: string) {
    forall row :: row in rows && row.targetImage.Some? && row.targetImage.value.resolved == reference ==>
      row.targetImage.value.contentId in {None, Some(contentId)}
  }

  /** Every recorded recipe base still names the bytes recorded for it. */
  ghost predicate BasesIntact(world: World, images: map<string, string>, rows: seq<Row>) {
    forall reference :: MatchesRecorded(rows, reference, Bytes(world, images, reference))
  }

  predicate BaseIntact(world: World, images: map<string, string>, target: Option<Image>) {
    target.Some? ==> target.value.contentId in {None, Some(Bytes(world, images, target.value.resolved))}
  }

  lemma RowBaseIntact(world: World, host: Host, c: Computer, observation: Option<Observation>)
    requires ValidCatalog(world.catalog) && TargetAvailable(c, world.catalog)
    requires RecordedBases(world, host.config.computers, host.images) && c in host.config.computers
    ensures BaseIntact(world, host.images, ComputerPreview(c, observation, host.images, world.catalog).targetImage)
  {
    if Managed(c) && BasePreset(c) == Custom { assert RecordedBase(c) == c.software.value.baseIdentity; }
  }

  /** In an intact world a fresh plan may be acquired, at any point of a run. */
  lemma IntactBases(world: World, host: Host)
    requires Ready(world, host) && world.intact
    ensures BasesIntact(world, host.images, PlanOf(host, world.catalog, false).Rows())
  {
    hide ComputerPreview, RecordedBases, Faithful, ExactTargets, Consumers, PlanBlockers, TagsApart, TargetAvailable,
      Target;
    var plan := PlanOf(host, world.catalog, false);
    forall row | row in plan.Rows()
      ensures BaseIntact(world, host.images, row.targetImage)
    {
      if row in plan.computers {
        var i :| 0 <= i < |plan.computers| && plan.computers[i] == row;
        var c := SortedComputers(host.config)[i];
        RowBaseIntact(world, host, c, Lookup(host.runtimes, c.id));
      }
    }
    RowsIntact(world, host.images, plan.Rows());
  }

  lemma RowsIntact(world: World, images: map<string, string>, rows: seq<Row>)
    requires forall row :: row in rows ==> BaseIntact(world, images, row.targetImage)
    ensures BasesIntact(world, images, rows)
  {
  }

  ghost predicate AllAcquired(rows: seq<Row>, evidence: Evidence) {
    forall row :: row in rows && row.targetImage.Some? ==> row.targetImage.value.resolved in evidence
  }

  lemma {:induction false} ConsumersListed(rows: seq<Row>, row: Row)
    requires row in rows && row.targetImage.Some?
    ensures Consumer(row.key, row.kind, row.targetImage.value.resolved) in Consumers(rows)
  {
    if rows[0] != row {
      ConsumersListed(rows[1..], row);
    }
  }

  lemma {:induction false} DistinctTargetsListed(consumers: seq<Consumer>, consumer: Consumer)
    requires consumer in consumers
    ensures consumer.exactTarget in DistinctTargets(consumers)
  {
    if consumers[0] != consumer {
      DistinctTargetsListed(consumers[1..], consumer);
    }
  }

  /** Every row with a target has it among the exact targets that are acquired. */
  lemma TargetListed(rows: seq<Row>, row: Row)
    requires row in rows && row.targetImage.Some?
    ensures exists t :: t in ExactTargets(Consumers(rows)) && t.exactTarget == row.targetImage.value.resolved
  {
    var consumers := Consumers(rows);
    ConsumersListed(rows, row);
    DistinctTargetsListed(consumers, Consumer(row.key, row.kind, row.targetImage.value.resolved));
    var sorted := Sort(DistinctTargets(consumers), TextLe);
    SortKeepsElements(DistinctTargets(consumers), TextLe);
    var i :| 0 <= i < |sorted| && sorted[i] == row.targetImage.value.resolved;
    assert ExactTargets(consumers)[i] in ExactTargets(consumers);
  }

  lemma AcquiredEveryTarget(plan: Plan, evidence: Evidence)
    requires plan.exactTargets == ExactTargets(Consumers(plan.Rows()))
    requires forall t :: t in plan.exactTargets ==> t.exactTarget in evidence
    ensures AllAcquired(plan.Rows(), evidence)
  {
    forall row | row in plan.Rows() && row.targetImage.Some?
      ensures row.targetImage.value.resolved in evidence
    {
      TargetListed(plan.Rows(), row);
    }
  }

  /** If every exact target matched, every recorded base is intact. */
  lemma EveryTargetMatched(world: World, images: map<string, string>, plan: Plan)
    requires plan.exactTargets == ExactTargets(Consumers(plan.Rows()))
    requires forall t :: t in plan.exactTargets ==>
               MatchesRecorded(plan.Rows(), t.exactTarget, Bytes(world, images, t.exactTarget))
    ensures BasesIntact(world, images, plan.Rows())
  {
    hide ExactTargets, Consumers;
    forall reference
      ensures MatchesRecorded(plan.Rows(), reference, Bytes(world, images, reference))
    {
      forall row | row in plan.Rows() && row.targetImage.Some? && row.targetImage.value.resolved == reference
        ensures row.targetImage.value.contentId in {None, Some(Bytes(world, images, reference))}
      {
        TargetListed(plan.Rows(), row);
      }
    }
  }

  /** Evidence is about exact targets, and none of them is a software tag. */
  ghost predicate Unowned(world: World, evidence: Evidence) {
    forall r :: r in evidence ==> world.owner(r).None?
  }

  lemma TargetUnowned(world: World, host: Host, plan: Plan, t: AcceptedTarget)
    requires Ready(world, host) && plan == PlanOf(host, world.catalog, false) && t in plan.exactTargets
    ensures world.owner(t.exactTarget).None?
  {
    PlansAreWellFormed(host, world.catalog);
    PlanParts(host, world.catalog, plan);
    hide PlanOf, Faithful, RecordedBases, ComputerRows, WellFormed, TagApart, Plannable, TargetAvailable,
      ComputerPreview;
    var row := TargetRow(plan, t);
    if row in plan.computers {
      ListedTargetUnowned(world, host, plan.computers, row);
    } else {
      assert row == plan.gateway || row == plan.default;
    }
  }

  lemma ListedTargetUnowned(world: World, host: Host, rows: seq<Row>, row: Row)
    requires Plannable(host.config, world.catalog) && TagsApart(world, host.config)
    requires rows == ComputerRows(SortedComputers(host.config), host, world.catalog) && row in rows
             && row.targetImage.Some?
    ensures world.owner(row.targetImage.value.resolved).None?
  {
    hide TagsApart, ComputerPreview, TargetAvailable;
    var i :| 0 <= i < |rows| && rows[i] == row;
    RowTargetUnowned(world, SortedComputers(host.config)[i], host);
  }

  /** Every exact target is that of some row. */
  lemma TargetRow(plan: Plan, t: AcceptedTarget) returns (row: Row)
    requires WellFormed(plan) && t in plan.exactTargets
    ensures row in plan.Rows() && row.targetImage.Some? && row.targetImage.value.resolved == t.exactTarget
  {
    var consumers := Consumers(plan.Rows());
    ConsumerIdsUnique(plan.Rows());
    SortKeepsElements(DistinctTargets(consumers), TextLe);
    assert t.exactTarget in Sort(DistinctTargets(consumers), TextLe);
    DistinctTargetsMembers(consumers, t.exactTarget);
    var consumer :| consumer in consumers && consumer.exactTarget == t.exactTarget;
    row :| row in plan.Rows() && row.targetImage.Some? && consumer.id == row.key
      && consumer.exactTarget == row.targetImage.value.resolved;
  }

  lemma RowTargetUnowned(world: World, c: Computer, host: Host)
    requires Plannable(host.config, world.catalog) && c in host.config.computers && TagsApart(world, host.config)
    ensures var row := ComputerPreview(c, Lookup(host.runtimes, c.id), host.images, world.catalog);
            row.targetImage.Some? ==> world.owner(row.targetImage.value.resolved).None?
  {
    assert TagApart(world, c);
  }

  lemma GrowingSettles(world: World, ids: set<string>, host: Host, later: Host, journal: Journal, run: Run)
    requires Settled(world, host, journal, run) && Grown(world, ids, host, later)
    requires Rebuilding(world, host, journal.prepared, ids)
    ensures Settled(world, later, journal, run)
  {
    hide Settled, Changed, Rebuilding;
    ChangeSettles(world, host, ids, later.images, journal, run);
  }

  lemma ObtainingSettles(world: World, host: Host, later: Host, journal: Journal, run: Run)
    requires Settled(world, host, journal, run) && Grown(world, {}, host, later)
    ensures Settled(world, later, journal, run)
  {
    hide Grown, Settled, Ready, StillMutates;
    SettledIsReady(world, host, journal, run);
    assert Rebuilding(world, host, journal.prepared, {});
    GrowingSettles(world, {}, host, later, journal, run);
  }

  lemma LocalGrows(world: World, ids: set<string>, evidence: Evidence, before: Host, after: Host)
    requires Local(evidence, before.images) && Unowned(world, evidence) && Grown(world, ids, before, after)
    ensures Local(evidence, after.images)
  {
  }

  // ----- software builds -----

  /** The build prepared for every software computer that is to be replaced, under its own tag, by row key. */
  ghost predicate BuiltFor(world: World, rows: seq<Row>, software: map<string, Image>, images: map<string, string>) {
    forall row :: row in rows && NeedsBuild(row) ==>
      row.key in software && LocalBuild(software[row.key], images) && OwnBuild(world, row.key, software[row.key])
  }

  predicate NeedsBuild(row: Row) {
    row.software.Some? && ComputerMutates(row)
  }

  predicate OwnBuild(world: World, key: string, image: Image) {
    world.owner(image.resolved).Some? && RowKeyOf(world.owner(image.resolved).value) == key
  }

  /** The unblocked plan of `planned`, the host as it was when the plan was accepted. */
  ghost predicate PlanFor(world: World, planned: Host, plan: Plan) {
    && Ready(world, planned)
    && plan == PlanOf(planned, world.catalog, false) && plan.blockers == []
  }

  lemma PlannedFacts(world: World, planned: Host, plan: Plan)
    requires PlanFor(world, planned, plan)
    ensures Plannable(planned.config, world.catalog) && ValidHost(planned, world.catalog)
    ensures plan.computers == ComputerRows(SortedComputers(planned.config), planned, world.catalog)
    ensures plan.gateway == GatewayPreview(planned, world.catalog)
            && plan.default == DefaultPreview(planned.config.defaults, world.catalog)
  {
    PlanParts(planned, world.catalog, plan);
    hide PlanOf, Faithful, TagsApart, RecordedBases, ValidHost, ComputerRows, GatewayPreview, DefaultPreview;
  }

  /** A listed row that needs a build finds its software computer, whose target it shows. */
  lemma BuildSubject(host: Host, catalog: Catalog, rows: seq<Row>, i: nat)
    requires ValidHost(host, catalog) && rows == ComputerRows(SortedComputers(host.config), host, catalog)
    requires i < |rows| && NeedsBuild(rows[i])
    ensures var c := FindComputer(host.config.computers, rows[i].key);
            && c.Some? && c.value in host.config.computers && Managed(c.value) && StillMutates(c.value, host, catalog)
            && c.value.software.Some? && RowKeyOf(c.value.id) == rows[i].key && TargetAvailable(c.value, catalog)
            && rows[i].targetImage == Some(Target(c.value, catalog).contract.image)
  {
    FindSubject(host, catalog, SortedComputers(host.config)[i]);
  }

  /** The base a listed build starts from is the acquired target of its computer. */
  lemma ListedBuild(world: World, planned: Host, plan: Plan, i: nat, evidence: Evidence, images: map<string, string>)
    requires PlanFor(world, planned, plan)
    requires i < |plan.computers| && NeedsBuild(plan.computers[i])
    requires Local(evidence, images) && AllAcquired(plan.Rows(), evidence)
    ensures var row, c := plan.computers[i], FindComputer(planned.config.computers, plan.computers[i].key);
            && c.Some? && c.value in planned.config.computers && Managed(c.value) && c.value.software.Some?
            && RowKeyOf(c.value.id) == row.key
            && TargetAvailable(c.value, world.catalog) && StillMutates(c.value, planned, world.catalog)
            && AcquiredTarget(row, Target(c.value, world.catalog).contract.image, evidence, images)
  {
    hide PlanFor, ValidHost, ComputerRows, NeedsBuild, StillMutates, Target, FindComputer, TargetAvailable, Managed,
      GatewayPreview, DefaultPreview, AcquiredTarget, Local, AllAcquired;
    PlannedFacts(world, planned, plan);
    BuildSubject(planned, world.catalog, plan.computers, i);
    AcquiredRow(plan, i, plan.computers[i].targetImage.value, evidence, images);
  }

  lemma AcquiredRow(plan: Plan, i: nat, target: Image, evidence: Evidence, images: map<string, string>)
    requires i < |plan.computers| && plan.computers[i].targetImage == Some(target)
    requires Local(evidence, images) && AllAcquired(plan.Rows(), evidence)
    ensures AcquiredTarget(plan.computers[i], target, evidence, images)
  {
    assert plan.Rows()[i + 2] == plan.computers[i];
    assert plan.computers[i] in plan.Rows();
  }

  /** The row shows this target, and what was acquired for it is what is local. */
  ghost predicate AcquiredTarget(row: Row, target: Image, evidence: Evidence, images: map<string, string>) {
    && row.targetImage == Some(target) && target.resolved in evidence && target.resolved in images
    && Bind(target, evidence) == Bind(target, images)
  }

  /** A computer to be rebuilt still is, whatever has been obtained and built for others since. */
  lemma StillToBuild(world: World, planned: Host, ids: set<string>, host: Host, c: Computer)
    requires Ready(world, planned) && Grown(world, ids, planned, host)
    requires c in planned.config.computers && StillMutates(c, planned, world.catalog) && c.id !in ids
    ensures StillMutates(c, host, world.catalog)
  {
    hide Faithful, RecordedBases, Target, RuntimeStateOf, SameManagedComputerTarget;
    assert TagApart(world, c);
    assert !OwnedBy(world, c.contract.image.resolved, ids);
  }

  lemma UsablePreparation(world: World, host: Host, journal: Journal, run: Run, c: Computer)
    requires Settled(world, host, journal, run)
    requires c in host.config.computers && c.id in journal.prepared
    ensures Managed(c) && TargetAvailable(c, world.catalog)
    ensures PreparationMatches(world, c, journal.prepared[c.id], host.images)
  {
    hide Faithful, TagsApart, RecordedBases, Unblocked, Prefix, Recordable, JournalParses, PreparationMatches;
  }

  /** Building for one computer leaves the builds of the others as they are. */
  lemma BuiltForGrows(world: World, rows: seq<Row>, software: map<string, Image>, id: string, before: Host, after: Host)
    requires BuiltFor(world, rows, software, before.images) && Grown(world, {id}, before, after)
    requires forall row :: row in rows ==> row.key != RowKeyOf(id)
    ensures BuiltFor(world, rows, software, after.images)
  {
    forall row | row in rows && NeedsBuild(row)
      ensures row.key in software && LocalBuild(software[row.key], after.images)
    {
      assert LocalBuild(software[row.key], before.images) && OwnBuild(world, row.key, software[row.key]);
    }
  }

  lemma NothingBuilt(world: World, rows: seq<Row>, images: map<string, string>)
    ensures BuiltFor(world, rows[..0], map[], images)
  {
  }

  lemma BuiltForExtends(world: World, rows: seq<Row>, i: nat, software: map<string, Image>, image: Image,
                        images: map<string, string>)
    requires i < |rows| && BuiltFor(world, rows[..i], software, images)
    requires NeedsBuild(rows[i]) ==> LocalBuild(image, images) && OwnBuild(world, rows[i].key, image)
    ensures BuiltFor(world, rows[..i + 1], if NeedsBuild(rows[i]) then software[rows[i].key := image] else software,
                     images)
  {
    assert rows[..i + 1] == rows[..i] + [rows[i]];
  }

  lemma EarlierKeysDiffer(rows: seq<Row>, i: nat)
    requires UniqueBy(rows, PreviewKey) && i < |rows|
    ensures forall row :: row in rows[..i] ==> row.key != rows[i].key
  {
    forall k | 0 <= k < i
      ensures rows[k].key != rows[i].key
    {
      assert PreviewKey(rows[k]) != PreviewKey(rows[i]);
    }
  }

  // ----- the step loop -----

  /** The loop starts on the planned host, with more images and with software tags moved. */
  ghost predicate Begun(world: World, planned: Host, start: Host, plan: Plan) {
    && PlanFor(world, planned, plan) && start == planned.(images := start.images)
    && GatewayPreview(start, world.catalog).action == plan.gateway.action
  }

  /** The gateway row decides as before: its image is no software tag, and nothing local changed for it. */
  lemma BegunAfterGrowth(world: World, planned: Host, ids: set<string>, start: Host, plan: Plan)
    requires PlanFor(world, planned, plan) && Grown(world, ids, planned, start)
    ensures Begun(world, planned, start, plan)
  {
    PlanParts(planned, world.catalog, plan);
    hide PlanOf, RecordedBases, RuntimeStateOf, SameGatewayTarget, TagApart, ComputerRows, ReadsCurrent;
    assert !OwnedBy(world, planned.config.gateway.image.resolved, ids);
  }

  /** Everything that was acquired and built before the first step. */
  ghost predicate Provisioned(world: World, plan: Plan, evidence: Evidence, software: map<string, Image>,
                              images: map<string, string>) {
    && Local(evidence, images) && AllAcquired(plan.Rows(), evidence)
    && BuiltFor(world, plan.computers, software, images)
  }

  /** Subjects of the steps still ahead are as they were when the loop started. */
  ghost predicate Ahead(start: Host, host: Host, keys: seq<string>) {
    forall c :: c in start.config.computers && RowKeyOf(c.id) in keys ==>
      c in host.config.computers && Lookup(host.runtimes, c.id) == Lookup(start.runtimes, c.id)
  }

  ghost predicate Underway(start: Host, host: Host, plan: Plan, i: nat)
    requires i <= |Steps(plan)|
  {
    && host.images == start.images
    && Ahead(start, host, Steps(plan)[i..])
    && RuntimeStateOf(Some(host.gatewayRuntime)) == RuntimeStateOf(Some(start.gatewayRuntime))
    && (i == 0 ==> host == start)
  }

  lemma DistinctSuffix(keys: seq<string>, i: nat)
    requires NoDuplicates(keys) && i < |keys|
    ensures keys[i] !in keys[i + 1..] && keys[i..] == [keys[i]] + keys[i + 1..]
  {
  }

  lemma StepKinds(world: World, planned: Host, plan: Plan, i: nat)
    requires PlanFor(world, planned, plan) && i < |Steps(plan)|
    ensures Steps(plan)[i] == GATEWAY_STEP ==> i == 0
    ensures Steps(plan)[i] != GATEWAY_STEP ==> Steps(plan)[i] in ComputerSteps(plan.computers)
    ensures Steps(plan)[i] !in Steps(plan)[i + 1..]
    ensures Steps(plan)[i..] == [Steps(plan)[i]] + Steps(plan)[i + 1..]
  {
    hide PlanOf, Faithful, TagsApart, RecordedBases, ComputerSteps, GatewayMutates, InsideAcceptedPlan, Accept;
    FreshPlanIsRecordable(planned, world.catalog, plan);
    DistinctSuffix(Steps(plan), i);
    if i == 0 { assert Steps(plan)[0] != GATEWAY_STEP ==> Steps(plan) == ComputerSteps(plan.computers); }
  }

  lemma AheadAfterComputer(start: Host, before: Host, after: Host, key: string, rest: seq<string>, next: Computer)
    requires Ahead(start, before, [key] + rest) && key !in rest && key == RowKeyOf(next.id)
    requires after.config == WithComputer(before.config, next)
    requires forall id :: id != next.id ==> Lookup(after.runtimes, id) == Lookup(before.runtimes, id)
    ensures Ahead(start, after, rest)
  {
    forall c | c in start.config.computers && RowKeyOf(c.id) in rest
      ensures c in after.config.computers && Lookup(after.runtimes, c.id) == Lookup(start.runtimes, c.id)
    {
      assert RowKeyOf(c.id) in [key] + rest;
      var i :| 0 <= i < |before.config.computers| && before.config.computers[i] == c;
      assert after.config.computers[i] == c;
    }
  }

  lemma UnderwayAfterComputer(world: World, planned: Host, start: Host, before: Host, after: Host, plan: Plan, i: nat,
                              evidence: Evidence, c: Computer, built: Image)
    requires PlanFor(world, planned, plan) && i < |Steps(plan)| && Underway(start, before, plan, i)
    requires Managed(c) && TargetAvailable(c, world.catalog)
             && Target(c, world.catalog).contract.image.resolved in evidence
    requires Steps(plan)[i] == RowKeyOf(c.id)
    requires ComputerStepped(before, after, world.catalog, evidence, c, built) && after.images == before.images
    ensures Underway(start, after, plan, i + 1) && after.gatewayRuntime == before.gatewayRuntime
  {
    hide PlanFor, Steps;
    StepKinds(world, planned, plan, i);
    var next := ComputerNext(c, Target(c, world.catalog).contract, evidence, built);
    AheadAfterComputer(start, before, after, Steps(plan)[i], Steps(plan)[i + 1..], next);
  }

  lemma UnderwayAfterGateway(world: World, planned: Host, start: Host, before: Host, after: Host, plan: Plan, i: nat)
    requires PlanFor(world, planned, plan) && i < |Steps(plan)| && Underway(start, before, plan, i)
    requires GatewayStepped(before, after)
    ensures Underway(start, after, plan, i + 1)
  {
    hide PlanFor, Steps;
    StepKinds(world, planned, plan, i);
    forall c | c in start.config.computers && RowKeyOf(c.id) in Steps(plan)[i + 1..]
      ensures c in after.config.computers && Lookup(after.runtimes, c.id) == Lookup(start.runtimes, c.id)
    {
      assert RowKeyOf(c.id) in Steps(plan)[i..];
    }
  }

  /** What the step loop looks up for a computer step, and that its inputs have been provisioned. */
  ghost predicate ComputerInputs(world: World, planned: Host, plan: Plan, key: string, evidence: Evidence,
                                 software: map<string, Image>, images: map<string, string>) {
    var c, row := FindComputer(planned.config.computers, key), FindRow(plan.computers, key);
    && c.Some? && row.Some? && c.value in planned.config.computers && RowKeyOf(c.value.id) == key
    && Managed(c.value) && TargetAvailable(c.value, world.catalog)
    && row.value.runtimeState == RuntimeStateOf(Lookup(planned.runtimes, c.value.id))
    && row.value.runtimeContainers == Containers(Lookup(planned.runtimes, c.value.id))
    && row.value.runtimeState in {Running, Stopped, Absent}
    && (row.value.runtimeState == Running ==> plan.gateway.runtimeState == Running)
    && row.value.target == Some(Target(c.value, world.catalog))
    && row.value.target.value.contract.image.resolved in evidence
    && (c.value.software.Some? ==>
          key in software && LocalBuild(software[key], images)
            && world.owner(software[key].resolved) == Some(c.value.id))
  }

  lemma ComputerStepInputs(world: World, planned: Host, plan: Plan, key: string, evidence: Evidence,
                           software: map<string, Image>, images: map<string, string>)
    requires PlanFor(world, planned, plan) && key in ComputerSteps(plan.computers)
    requires Provisioned(world, plan, evidence, software, images)
    ensures ComputerInputs(world, planned, plan, key, evidence, software, images)
  {
    hide PlanFor, PlanOf, ComputerRows, Target, LocalBuild, Local, GatewayPreview, DefaultPreview, BuiltFor,
      AllAcquired, ValidHost, ComputerPreview, RuntimeStateOf;
    PlannedFacts(world, planned, plan);
    PlannedStates(world, planned, plan);
    StepSubject(planned, world.catalog, plan.computers, key);
    FoundRowListed(plan.computers, key);
    var c, row := FindComputer(planned.config.computers, key).value, FindRow(plan.computers, key).value;
    PreviewFacts(c, Lookup(planned.runtimes, c.id), planned.images, world.catalog);
    RowAcquired(plan, row, evidence);
    if c.software.Some? { RowBuilt(world, plan.computers, row, software, images, c.id); }
  }

  lemma PreviewFacts(c: Computer, observation: Option<Observation>, images: map<string, string>, catalog: Catalog)
    requires Managed(c) && TargetAvailable(c, catalog)
    ensures var row := ComputerPreview(c, observation, images, catalog);
            && row.kind == ComputerRow && row.key == RowKeyOf(c.id) && row.software == c.software
            && row.runtimeState == RuntimeStateOf(observation) && row.runtimeContainers == Containers(observation)
            && row.runtimeState in {Blocked, Running, Stopped, Absent}
            && row.target == Some(Target(c, catalog)) && row.targetImage == Some(Target(c, catalog).contract.image)
  {
  }

  lemma PlannedStates(world: World, planned: Host, plan: Plan)
    requires PlanFor(world, planned, plan)
    ensures plan.gateway.runtimeState in {Running, Stopped, Absent}
    ensures forall row :: row in plan.computers ==>
              row.runtimeState != Blocked && (row.runtimeState == Running ==> plan.gateway.runtimeState == Running)
  {
    hide PlanOf, Faithful, TagsApart, RecordedBases, ComputerRows, GatewayPreview, DefaultPreview;
    UnblockedStates(planned, world.catalog, plan);
  }

  lemma RowAcquired(plan: Plan, row: Row, evidence: Evidence)
    requires row in plan.computers && AllAcquired(plan.Rows(), evidence) && row.targetImage.Some?
    ensures row.targetImage.value.resolved in evidence
  {
    assert row in plan.Rows();
  }

  lemma RowBuilt(world: World, rows: seq<Row>, row: Row, software: map<string, Image>, images: map<string, string>,
                 id: string)
    requires row in rows && NeedsBuild(row) && row.key == RowKeyOf(id) && BuiltFor(world, rows, software, images)
    ensures row.key in software && LocalBuild(software[row.key], images)
            && world.owner(software[row.key].resolved) == Some(id)
  {
    RowKeyInjective(world.owner(software[row.key].resolved).value, id);
  }

  lemma {:induction false} FoundRowListed(rows: seq<Row>, key: string)
    requires FindRow(rows, key).Some?
    ensures FindRow(rows, key).value in rows && FindRow(rows, key).value.key == key
  {
    if rows[0].key != key {
      FoundRowListed(rows[1..], key);
    }
  }

  lemma GatewayStepInputs(world: World, planned: Host, start: Host, plan: Plan, evidence: Evidence,
                          software: map<string, Image>, images: map<string, string>)
    requires Begun(world, planned, start, plan) && Provisioned(world, plan, evidence, software, images)
    ensures TargetsAcquired(world.catalog, plan.gateway, plan.default, evidence)
    ensures plan.gateway.runtimeState in {Running, Stopped, Absent}
    ensures Plannable(start.config, world.catalog) && SameGatewayStep(start, world.catalog, plan.gateway, plan.default)
  {
    PlannedStates(world, planned, plan);
    PlannedFacts(world, planned, plan);
    hide PlanFor, PlanOf, ComputerRows, BuiltFor, Local, RuntimeStateOf, Drift, ValidHost;
    assert plan.gateway == plan.Rows()[0] && plan.default == plan.Rows()[1];
    assert plan.gateway in plan.Rows() && plan.default in plan.Rows();
  }

  lemma UnderwayFacts(start: Host, host: Host, plan: Plan, i: nat)
    requires i <= |Steps(plan)| && Underway(start, host, plan, i)
    ensures host.images == start.images && (i == 0 ==> host == start)
  {
  }

  lemma GatewayObserved(world: World, planned: Host, plan: Plan)
    requires PlanFor(world, planned, plan)
    ensures plan.gateway.runtimeState == RuntimeStateOf(Some(planned.gatewayRuntime))
    ensures plan.gateway.runtimeContainers == planned.gatewayRuntime.containers
  {
    PlanParts(planned, world.catalog, plan);
    hide PlanOf, ComputerRows, Ready;
  }

  /** In a run without faults the subject of the next step passes every check before its first write. */
  lemma StillUnchanged(world: World, planned: Host, start: Host, host: Host, plan: Plan, i: nat, c: Computer)
    requires Begun(world, planned, start, plan) && i < |Steps(plan)| && Underway(start, host, plan, i)
    requires c in start.config.computers && RowKeyOf(c.id) == Steps(plan)[i]
    ensures c in host.config.computers && Lookup(host.runtimes, c.id) == Lookup(planned.runtimes, c.id)
    ensures RuntimeStateOf(Some(host.gatewayRuntime)) == plan.gateway.runtimeState
  {
    hide Steps, Ready, PlanOf, RuntimeStateOf, GatewayPreview;
    GatewayObserved(world, planned, plan);
    assert RowKeyOf(c.id) in Steps(plan)[i..] by { assert Steps(plan)[i..][0] == Steps(plan)[i]; }
  }

  // ----- the end of a run -----

  ghost predicate NothingLeft(world: World, host: Host) {
    Ready(world, host) && Steps(PlanOf(host, world.catalog, false)) == []
  }

  /** How many accepted steps are still ahead. */
  function Left(run: Run): int { |Steps(run.plan)| - Done(run) }

  lemma HasElement(keys: seq<string>)
    ensures keys != [] ==> exists key :: key in keys
  {
    if keys != [] { assert keys[0] in keys; }
  }

  lemma {:induction false} WithinLength(keys: seq<string>, ahead: seq<string>)
    requires NoDuplicates(keys) && Within(keys, ahead)
    ensures |keys| <= |ahead|
    decreases |ahead|
  {
    if ahead == [] {
      HasElement(keys);
    } else if ahead[0] in keys {
      WithoutFirstStep(keys, ahead);
      DistinctWithout(keys, ahead[0]);
      WithinLength(Without(keys, ahead[0]), ahead[1..]);
    } else {
      WithinTail(keys, ahead);
      WithinLength(keys, ahead[1..]);
    }
  }

  lemma {:induction false} DistinctWithout(keys: seq<string>, key: string)
    requires NoDuplicates(keys)
    ensures NoDuplicates(Without(keys, key)) && |Without(keys, key)| >= |keys| - 1
  {
    if keys != [] {
      DistinctWithout(keys[1..], key);
      if keys[0] == key {
        assert key !in keys[1..];
        WithoutAbsent(keys[1..], key);
      } else {
        WithoutKeeps(keys[1..], key, keys[0]);
        assert keys[0] !in keys[1..];
        PrependDistinct(keys[0], Without(keys[1..], key));
      }
    }
  }

  /** A fresh plan of a settled state does no more than what is left, and nothing when nothing is left. */
  lemma LeftIsReplanned(world: World, host: Host, journal: Journal, run: Run)
    requires Settled(world, host, journal, run)
    ensures Ready(world, host) && |Steps(PlanOf(host, world.catalog, false))| <= Left(run)
    ensures Left(run) == 0 ==> NothingLeft(world, host)
  {
    hide PlanOf, Faithful, TagsApart, RecordedBases, Steps, PreparedUsable, JournalParses, Admits, InsideAcceptedPlan;
    var plan := PlanOf(host, world.catalog, false);
    FreshPlanIsRecordable(host, world.catalog, plan);
    WithinLength(Steps(plan), Steps(run.plan)[Done(run)..]);
  }

  /** Recovery accepts a settled state: every check of recoverPendingUpgradeAll holds of it. */
  lemma SettledIsRecoverable(world: World, host: Host, journal: Journal, run: Run)
    requires Settled(world, host, journal, run)
    ensures Plannable(host.config, world.catalog)
    ensures JournalParses(journal) && journal.installationId == host.config.installationId
    ensures AtCheckpoint(host.config, journal)
    ensures var plan := PlanOf(host, world.catalog, false);
            && Admits(journal.accepted, Accept(plan)) && plan.blockers == []
            && PreparedUsable(world, host, journal.prepared)
  {
  }

  /**
   * Whatever crashed and however often recovery ran: a row that a settled state still wants to change
   * is one row of the first review, with the same action, target, preset, state and containers.
   */
  lemma RemainingWorkWasReviewed(world: World, host: Host, journal: Journal, run: Run, history: seq<Acceptance>,
                                 row: AcceptedRow)
    requires Settled(world, host, journal, run) && Reviewed(journal.accepted, history)
    requires row in Accept(PlanOf(host, world.catalog, false)).rows && row.action != Current
    ensures exists reviewed :: reviewed in history[0].rows
              && reviewed.(runtimeContainers := row.runtimeContainers) == row
              && (Mutates(row.action) ==> SameRuntimeContainers(reviewed.runtimeContainers, row.runtimeContainers))
  {
    hide Settled, PlanOf;
    SettledIsRecoverable(world, host, journal, run);
    var next := Accept(PlanOf(host, world.catalog, false));
    ReviewExtends(history, journal.accepted, next);
    RemainingMutationWasReviewed(history + [next], row);
  }

  lemma NothingPrepared(world: World, host: Host)
    requires Ready(world, host)
    ensures PreparedUsable(world, host, map[])
  {
  }

  lemma GrownKeepsConfig(world: World, ids: set<string>, before: Host, after: Host)
    requires Grown(world, ids, before, after)
    ensures after.config == before.config && after == before.(images := after.images)
  {
  }

  lemma PlanForSettled(world: World, host: Host, journal: Journal, run: Run, plan: Plan)
    requires Settled(world, host, journal, run)
    requires Plannable(host.config, world.catalog) && plan == PlanOf(host, world.catalog, false)
    ensures PlanFor(world, host, plan)
    ensures plan.exactTargets == ExactTargets(Consumers(plan.Rows())) && plan.config == host.config
  {
    PlanParts(host, world.catalog, plan);
    hide PlanOf, Ready, JournalParses, PreparedUsable, Recordable, Prefix;
  }

  lemma UnderwayAtStart(start: Host, plan: Plan)
    ensures Underway(start, start, plan, 0)
  {
  }

  lemma BegunParts(world: World, planned: Host, start: Host, plan: Plan)
    requires Begun(world, planned, start, plan)
    ensures PlanFor(world, planned, plan) && start == planned.(images := start.images)
    ensures Plannable(planned.config, world.catalog)
  {
    hide PlanOf, Ready, GatewayPreview;
    PlannedFacts(world, planned, plan);
  }

  lemma PlanForReady(world: World, planned: Host, plan: Plan)
    requires PlanFor(world, planned, plan)
    ensures Ready(world, planned)
  {
  }

  lemma PlannedKeys(world: World, planned: Host, plan: Plan)
    requires PlanFor(world, planned, plan)
    ensures UniqueBy(plan.computers, PreviewKey)
  {
    hide PlanFor, ValidHost;
    PlannedFacts(world, planned, plan);
    ComputerKeysUnique(planned, world.catalog);
  }

  lemma PlannedConfig(host: Host, catalog: Catalog, plan: Plan)
    requires Plannable(host.config, catalog) && plan == PlanOf(host, catalog, false)
    ensures plan.config == host.config
  {
  }

  lemma PlannedTargetUnowned(world: World, planned: Host, plan: Plan, t: AcceptedTarget)
    requires PlanFor(world, planned, plan) && t in plan.exactTargets
    ensures world.owner(t.exactTarget).None?
  {
    hide PlanOf, Ready;
    TargetUnowned(world, planned, plan, t);
  }

  /** Obtaining references does not change what any reference names. */
  lemma SameBytes(world: World, before: Host, after: Host, reference: string)
    requires Grown(world, {}, before, after)
    ensures Bytes(world, after.images, reference) == Bytes(world, before.images, reference)
  {
  }

  lemma EarlierIdsDiffer(rows: seq<Row>, i: nat, ids: set<string>)
    requires UniqueBy(rows, PreviewKey) && i < |rows|
    requires forall id :: id in ids ==> exists k :: 0 <= k < i && RowKeyOf(id) == rows[k].key
    ensures forall id :: id in ids ==> RowKeyOf(id) != rows[i].key
  {
    forall id | id in ids
      ensures RowKeyOf(id) != rows[i].key
    {
      var k :| 0 <= k < i && RowKeyOf(id) == rows[k].key;
      assert PreviewKey(rows[k]) != PreviewKey(rows[i]);
    }
  }

  lemma GrownAlso(world: World, ids: set<string>, id: string, planned: Host, before: Host, after: Host)
    requires Grown(world, ids, planned, before) && Grown(world, {id}, before, after)
    ensures Grown(world, ids + {id}, planned, after)
  {
    GrownWider(world, ids, ids + {id}, planned, before);
    GrownWider(world, {id}, ids + {id}, before, after);
    GrownTransitive(world, ids + {id}, planned, before, after);
  }

  lemma RebuildingOne(world: World, host: Host, prepared: map<string, Prepared>, c: Computer)
    requires Ready(world, host) && c in host.config.computers && c.id !in prepared
             && StillMutates(c, host, world.catalog)
    ensures Rebuilding(world, host, prepared, {c.id})
  {
    hide Faithful, TagsApart, RecordedBases, StillMutates;
    forall d | d in host.config.computers && d.id in {c.id}
      ensures d == c
    {
      UniqueElement(host.config.computers, d, c);
    }
  }

  lemma TagOwned(world: World, host: Host, c: Computer, base: Image)
    requires Ready(world, host)
    ensures world.owner(world.softwareTag(c.id, base).resolved) == Some(c.id)
  {
    hide Faithful, RecordedBases;
  }

  /** The base that was built on is still what acquisition binds. */
  lemma BuildMatches(world: World, before: Host, after: Host, c: Computer, base: Image, image: Image)
    requires Ready(world, before) && c in before.config.computers && Managed(c) && TargetAvailable(c, world.catalog)
    requires Target(c, world.catalog).contract.image.resolved in before.images
    requires base == Bind(Target(c, world.catalog).contract.image, before.images)
    requires Grown(world, {c.id}, before, after)
    requires LocalBuild(image, after.images) && world.owner(image.resolved) == Some(c.id)
    ensures PreparationMatches(world, c, Prepared(base, image), after.images)
  {
    hide Faithful, RecordedBases, Target;
    assert TagApart(world, c);
  }

  lemma GatewayNextDefined(host: Host, catalog: Catalog, gateway: Row, default: Row, evidence: Evidence)
    requires Plannable(host.config, catalog) && SameGatewayStep(host, catalog, gateway, default)
    requires TargetsAcquired(catalog, gateway, default, evidence)
    ensures gateway.action != Current ==> gateway.targetImage.Some? && gateway.targetImage.value.resolved in evidence
    ensures default.action == UpdateDefault ==>
              default.target.Some? && default.target.value.contract.image.resolved in evidence
  {
  }

  /** A fresh acceptance of a settled state extends the chain of reviews and asks for no more than was left. */
  lemma AcceptanceResumes(world: World, host: Host, journal: Journal, run: Run, history: seq<Acceptance>, plan: Plan)
    requires Settled(world, host, journal, run) && Reviewed(journal.accepted, history) && PlanFor(world, host, plan)
    ensures Plannable(host.config, world.catalog) && PreparedUsable(world, host, journal.prepared)
    ensures Reviewed(Accept(plan), history + [Accept(plan)])
    ensures Left(Start(plan)) <= Left(run)
  {
    hide PlanOf, PreparedUsable, Ready, Steps, Admits, JournalParses, Accept;
    SettledIsRecoverable(world, host, journal, run);
    LeftIsReplanned(world, host, journal, run);
    hide Settled;
    ReviewExtends(history, journal.accepted, Accept(plan));
  }

  lemma AcceptanceBegins(world: World, host: Host, plan: Plan)
    requires PlanFor(world, host, plan)
    ensures Plannable(host.config, world.catalog) && PreparedUsable(world, host, map[])
    ensures Reviewed(Accept(plan), [] + [Accept(plan)])
  {
    hide PlanOf, Accept;
    NothingPrepared(world, host);
  }

  /** The journal of the acceptance, as it is written. */
  lemma AcceptanceStarts(world: World, host: Host, plan: Plan, prepared: map<string, Prepared>)
    requires PlanFor(world, host, plan) && Plannable(host.config, world.catalog)
             && PreparedUsable(world, host, prepared)
    ensures Settled(world, host, AcceptedJournal(plan, prepared), Start(plan)) && Done(Start(plan)) == 0
    ensures var journal := AcceptedJournal(plan, prepared);
            journal.accepted == Accept(plan) && journal.checkpoint == host.config && journal.active.None?
  {
    PlannedConfig(host, world.catalog, plan);
    hide PlanOf, PreparedUsable, Ready, Settled, Accept;
    AcceptanceSettles(world, host, plan, prepared);
  }

  lemma PlanForFresh(world: World, host: Host, plan: Plan)
    requires Ready(world, host) && Plannable(host.config, world.catalog)
    requires plan == PlanOf(host, world.catalog, false) && plan.blockers == []
    ensures PlanFor(world, host, plan)
  {
  }
}
