/**
 * What one upgrade step writes, and what re-planning sees afterwards: the stepped rows read
 * `current`, every other row is untouched, and the acceptance still admits the new plan.
 * Models packages/cli/src/lifecycle-update.ts and packages/cli/src/software.ts.
 */
module UpgradeSteps {
  import opened Wrappers
  import opened ManagedRuntime
  import opened UpgradeAcceptance
  import opened Sorting
  import opened ToolPolicy
  import opened UpgradePlan

  // ----- mutations -----

  type Evidence = map<string, string>

  /** bindAcquiredImage */
  function Bind(target: Image, evidence: Evidence): Image
    requires target.resolved in evidence
  {
    target.(contentId := Some(evidence[target.resolved]))
  }

  /** Acquisition covered what the gateway step binds. */
  ghost predicate TargetsAcquired(catalog: Catalog, gateway: Row, default: Row, evidence: Evidence) {
    && gateway.targetImage == Some(catalog.gateway) && catalog.gateway.resolved in evidence
    && (default.action == UpdateDefault ==>
          default.target.Some? && default.target.value.contract.image.resolved in evidence)
  }

  /** buildGatewayMutation, as the configuration it leads to */
  function GatewayNext(gateway: Row, default: Row, config: Config, evidence: Evidence): Config
    requires gateway.action != Current ==> gateway.targetImage.Some? && gateway.targetImage.value.resolved in evidence
    requires default.action == UpdateDefault ==>
               default.target.Some? && default.target.value.contract.image.resolved in evidence
  {
    var image := if gateway.action == Current then config.gateway.image else Bind(gateway.targetImage.value, evidence);
    var defaults :=
      if default.action != UpdateDefault then config.defaults
      else
        var contract := default.target.value.contract;
        Defaults(contract.(image := Bind(contract.image, evidence)), config.defaults.resources);
    config.(gateway := config.gateway.(image := image), defaults := defaults)
  }

  /** upgradedComputer over prepareSoftwareImage: `built` is the image built for a software recipe. */
  function ComputerNext(computer: Computer, target: Contract, evidence: Evidence, built: Image): Computer
    requires target.image.resolved in evidence
  {
    var base := target.(image := Bind(target.image, evidence));
    var upgraded := computer.(contract := base, access := UpgradedAccess(computer.access, base.capabilities));
    if computer.software.None? then upgraded
    else
      var recipe := computer.software.value.(baseImage := base.image.requested, baseIdentity := Some(base.image));
      upgraded.(contract := base.(preset := Custom, image := built), software := Some(recipe))
  }

  function Replace(next: Computer): Computer -> Computer {
    (c: Computer) => if c.id == next.id then next else c
  }

  /** The configuration with one computer exchanged by identity. */
  function WithComputer(config: Config, next: Computer): Config {
    config.(computers := Map(config.computers, Replace(next)))
  }

  // ----- what a step makes of its own row -----

  /** A prepared recipe still names the catalog preset it was derived from. */
  predicate KeepsBasePreset(computer: Computer) {
    computer.software.Some? && computer.contract.preset != Custom ==> computer.software.value.basePreset.Some?
  }

  /** A recipe's base preset is a catalog preset, never `custom`. */
  predicate ValidRecipe(computer: Computer) {
    computer.software.Some? && computer.software.value.basePreset.Some? ==>
      computer.software.value.basePreset.value != Custom
  }

  predicate NonEmptyBase(computer: Computer) {
    computer.software.Some? ==>
      && computer.software.value.baseImage != ""
      && (computer.software.value.baseIdentity.Some? ==>
            computer.software.value.baseIdentity.value.requested != ""
              && computer.software.value.baseIdentity.value.resolved != "")
  }

  predicate Drifts(computer: Computer, images: map<string, string>) {
    Drift(computer.contract.image, images)
  }

  /** The row of an upgraded computer keeps everything recovery compares and has nothing left to do. */
  lemma SteppedComputerIsCurrent(computer: Computer, catalog: Catalog, evidence: Evidence, built: Image,
                                 before: Option<Observation>, after: Option<Observation>,
                                 images: map<string, string>, imagesAfter: map<string, string>)
    requires ValidCatalog(catalog) && TargetAvailable(computer, catalog) && Managed(computer)
    requires ValidRecipe(computer) && KeepsBasePreset(computer)
    requires Target(computer, catalog).contract.image.resolved in evidence
    requires RuntimeStateOf(before) == RuntimeStateOf(after) != Blocked
    requires computer.software.Some? ==> built.contentId.Some?
    requires !Drifts(ComputerNext(computer, Target(computer, catalog).contract, evidence, built), imagesAfter)
    ensures var next := ComputerNext(computer, Target(computer, catalog).contract, evidence, built);
            && TargetAvailable(next, catalog) && Managed(next) && ValidRecipe(next) && KeepsBasePreset(next)
            && next.id == computer.id && next.name == computer.name && next.resources == computer.resources
            && var row := ComputerPreview(computer, before, images, catalog);
               var stepped := ComputerPreview(next, after, imagesAfter, catalog);
               stepped.action == Current && Continues(row, stepped)
  {
    hide UpgradedAccess;
  }

  /** And its operator-managed settings: nothing the contract offers is allowed that was not allowed before. */
  lemma SteppedAccessNarrows(computer: Computer, target: Contract, evidence: Evidence, built: Image)
    requires target.image.resolved in evidence
    ensures var next := ComputerNext(computer, target, evidence, built);
            && next.settings == computer.settings && next.resources == computer.resources
            && next.contract.capabilities == target.capabilities
            && Narrowed(computer.access, target.capabilities, next.access)
  {
    UpgradeNarrows(computer.access, target.capabilities);
    hide ToolsOf, UpgradedAccess, Narrowed;
  }

  /** The parts of a row that recovery compares unconditionally. */
  predicate Continues(row: Row, later: Row) {
    && later.key == row.key && later.kind == row.kind && later.preset == row.preset
    && later.runtimeState == row.runtimeState
    && AcceptedRowOf(later).exactTarget == AcceptedRowOf(row).exactTarget
  }

  /**
   * Without a recorded base preset the step turns a curated row into a custom one, so recovery would
   * refuse the very state the step produced. The guard is exact.
   */
  lemma RecoverableStepIffBasePresetKept(computer: Computer, catalog: Catalog, evidence: Evidence, built: Image,
                                         before: Option<Observation>, after: Option<Observation>,
                                         images: map<string, string>, imagesAfter: map<string, string>)
    requires ValidCatalog(catalog) && TargetAvailable(computer, catalog) && Managed(computer) && ValidRecipe(computer)
    requires Target(computer, catalog).contract.image.resolved in evidence
    requires Mutates(ComputerPreview(computer, before, images, catalog).action)
    requires RuntimeStateOf(before) == RuntimeStateOf(after)
    requires computer.software.Some? ==> built.contentId.Some?
    requires var next := ComputerNext(computer, Target(computer, catalog).contract, evidence, built);
             TargetAvailable(next, catalog) && !Drifts(next, imagesAfter)
    ensures var next := ComputerNext(computer, Target(computer, catalog).contract, evidence, built);
            RowAdmitted(AcceptedRowOf(ComputerPreview(computer, before, images, catalog)),
                        AcceptedRowOf(ComputerPreview(next, after, imagesAfter, catalog)))
            <==> KeepsBasePreset(computer)
  {
    hide UpgradedAccess;
  }

  /** Such a computer: a recipe on the browser preset that does not record its base preset. */
  lemma DroppedPresetIsRefused() returns (computer: Computer, catalog: Catalog, evidence: Evidence, built: Image)
    ensures ValidCatalog(catalog) && TargetAvailable(computer, catalog) && Managed(computer) && ValidRecipe(computer)
    ensures Target(computer, catalog).contract.image.resolved in evidence
    ensures var next := ComputerNext(computer, Target(computer, catalog).contract, evidence, built);
            var absent := Some(Observation(IsAbsent, AbsentGroup, []));
            var row := ComputerPreview(computer, absent, map[], catalog);
            && row.action == Upgrade && TargetAvailable(next, catalog)
            && !RowAdmitted(AcceptedRowOf(row), AcceptedRowOf(ComputerPreview(next, absent, map[], catalog)))
  {
    var contract := Contract(Browser, Browser, Image("browser", "browser@2", None, None), 1, []);
    var resources := Resources(1.0, "1g");
    catalog := Catalog(CatalogIdentity("linux/amd64", "2", "2"), Image("gateway", "gateway@2", None, None),
                       map[Browser := Defaults(contract, resources)]);
    computer := Computer("a", "a", contract.(image := Image("old", "old@1", None, Some("old"))), resources,
                         Some(Recipe("browser", None, None, [])), Access(None, None, None), "");
    evidence, built := map["browser@2" := "bytes"], Image("built", "built", None, Some("built"));
  }

  // ----- plans that continue a plan -----

  predicate ValidContainers(containers: seq<Binding>) {
    UniqueBy(containers, BindingId) && UniqueBy(containers, BindingName)
  }

  ghost predicate ValidHost(host: Host, catalog: Catalog) {
    && Plannable(host.config, catalog)
    && UniqueBy(host.config.computers, ComputerId)
    && (forall c :: c in host.config.computers ==> ValidRecipe(c) && NonEmptyBase(c))
    && ValidContainers(host.gatewayRuntime.containers)
    && forall id :: id in host.runtimes ==> ValidContainers(host.runtimes[id].containers)
  }

  function PreviewKey(row: Row): string { row.key }

  /** What recovery relies on in an accepted plan: keys, targets and bindings identify uniquely. */
  ghost predicate WellFormed(plan: Plan) {
    && UniqueBy(plan.Rows(), PreviewKey)
    && (forall row :: row in plan.Rows() ==> ValidContainers(row.runtimeContainers))
    && plan.exactTargets == ExactTargets(Consumers(plan.Rows()))
  }

  /** Either the row still asks for the same action on the same containers, or it has become current. */
  predicate Progresses(row: Row, later: Row) {
    && Continues(row, later)
    && (|| (later.action == row.action && later.runtimeContainers == row.runtimeContainers)
        || (later.action == Current && RecoveryActionAllowed(row.action, Current)))
  }

  ghost predicate PlanProgresses(plan: Plan, later: Plan) {
    && later.catalog == plan.catalog
    && |later.Rows()| == |plan.Rows()|
    && forall i :: 0 <= i < |plan.Rows()| ==> Progresses(plan.Rows()[i], later.Rows()[i])
  }

  lemma {:induction false} ProgressKeepsConsumers(rows: seq<Row>, later: seq<Row>)
    requires |later| == |rows| && forall i :: 0 <= i < |rows| ==> Progresses(rows[i], later[i])
    ensures Consumers(later) == Consumers(rows)
  {
    if rows != [] {
      forall i | 0 <= i < |rows| - 1
        ensures Progresses(rows[1..][i], later[1..][i])
      {
        assert rows[1..][i] == rows[i + 1] && later[1..][i] == later[i + 1];
      }
      ProgressKeepsConsumers(rows[1..], later[1..]);
      assert Progresses(rows[0], later[0]);
    }
  }

  lemma {:induction false} DistinctTargetsDistinct(consumers: seq<Consumer>)
    ensures NoDuplicates(DistinctTargets(consumers))
  {
    if consumers != [] {
      DistinctTargetsDistinct(consumers[1..]);
    }
  }

  lemma ExactTargetsUnique(consumers: seq<Consumer>)
    ensures UniqueBy(ExactTargets(consumers), TargetKey)
  {
    DistinctTargetsDistinct(consumers);
    SortIsPermutation(DistinctTargets(consumers), TextLe);
    PermutationKeepsDistinctness(DistinctTargets(consumers), Sort(DistinctTargets(consumers), TextLe));
  }

  lemma SameContainersReflexive(containers: seq<Binding>)
    requires ValidContainers(containers)
    ensures SameRuntimeContainers(containers, containers)
  {
    forall x | x in containers
      ensures Retained(x, containers)
    {
      assert SameContainer(x, x);
    }
  }

  lemma AcceptedKeysUnique(plan: Plan)
    requires WellFormed(plan)
    ensures UniqueBy(Accept(plan).rows, RowKey)
  {
    forall i, j | 0 <= i < j < |plan.Rows()|
      ensures RowKey(AcceptedRowOf(plan.Rows()[i])) != RowKey(AcceptedRowOf(plan.Rows()[j]))
    {
      assert PreviewKey(plan.Rows()[i]) != PreviewKey(plan.Rows()[j]);
    }
  }

  lemma ProgressingRowIsAdmitted(row: Row, later: Row)
    requires Progresses(row, later) && ValidContainers(row.runtimeContainers)
    ensures RowAdmitted(AcceptedRowOf(row), AcceptedRowOf(later))
  {
    SameContainersReflexive(row.runtimeContainers);
  }

  /** An accepted plan admits every plan that only progresses from it. */
  lemma ProgressIsAdmitted(plan: Plan, later: Plan)
    requires WellFormed(plan) && WellFormed(later) && PlanProgresses(plan, later)
    ensures Admits(Accept(plan), Accept(later))
  {
    ProgressKeepsConsumers(plan.Rows(), later.Rows());
    ExactTargetsUnique(Consumers(plan.Rows()));
    AcceptedKeysUnique(plan);
    forall row | row in Accept(later).rows
      ensures AdmittedBySome(Accept(plan).rows, row)
    {
      var i :| 0 <= i < |later.Rows()| && AcceptedRowOf(later.Rows()[i]) == row;
      assert plan.Rows()[i] in plan.Rows();
      assert Progresses(plan.Rows()[i], later.Rows()[i]);
      ProgressingRowIsAdmitted(plan.Rows()[i], later.Rows()[i]);
      assert Accept(plan).rows[i] == AcceptedRowOf(plan.Rows()[i]);
    }
  }

  // ----- re-planning -----

  lemma ComputerKeysUnique(host: Host, catalog: Catalog)
    requires ValidHost(host, catalog)
    ensures UniqueBy(ComputerRows(SortedComputers(host.config), host, catalog), PreviewKey)
  {
    var sorted := SortedComputers(host.config);
    SortKeepsKeyUnique(host.config.computers, ComputerLe, ComputerId);
    var rows := ComputerRows(sorted, host, catalog);
    hide ComputerRows, ComputerPreview, SortedComputers, TargetAvailable, ValidContainers, RowKeyOf;
    forall i, j | 0 <= i < j < |rows|
      ensures PreviewKey(rows[i]) != PreviewKey(rows[j])
    {
      assert ComputerId(sorted[i]) != ComputerId(sorted[j]);
      RowKeyInjective(sorted[i].id, sorted[j].id);
      PreviewNamed(sorted[i], Lookup(host.runtimes, sorted[i].id), host.images, catalog);
      PreviewNamed(sorted[j], Lookup(host.runtimes, sorted[j].id), host.images, catalog);
    }
  }

  lemma PreviewNamed(c: Computer, observation: Option<Observation>, images: map<string, string>, catalog: Catalog)
    requires TargetAvailable(c, catalog)
    ensures ComputerPreview(c, observation, images, catalog).key == RowKeyOf(c.id)
  {
  }

  lemma RowKeyInjective(a: string, b: string)
    ensures RowKeyOf(a) == RowKeyOf(b) ==> a == b
  {
    assert RowKeyOf(a)[|"computer:"|..] == a && RowKeyOf(b)[|"computer:"|..] == b;
  }

  lemma ComputerRowsShape(computers: seq<Computer>, host: Host, catalog: Catalog, row: Row)
    requires forall c :: c in computers ==> TargetAvailable(c, catalog)
    requires forall id :: id in host.runtimes ==> ValidContainers(host.runtimes[id].containers)
    requires row in ComputerRows(computers, host, catalog)
    ensures row.key[0] == 'c' && row.kind == ComputerRow && ValidContainers(row.runtimeContainers)
  {
    var i :| 0 <= i < |computers| && row == ComputerRows(computers, host, catalog)[i];
    assert row == ComputerPreview(computers[i], Lookup(host.runtimes, computers[i].id), host.images, catalog);
  }

  lemma ComputerRowsValid(host: Host, catalog: Catalog, rows: seq<Row>)
    requires ValidHost(host, catalog) && rows == ComputerRows(SortedComputers(host.config), host, catalog)
    ensures forall row :: row in rows ==> |row.key| > 0 && row.key[0] == 'c' && ValidContainers(row.runtimeContainers)
  {
    hide ValidContainers;
    forall row | row in rows
      ensures |row.key| > 0 && row.key[0] == 'c' && ValidContainers(row.runtimeContainers)
    {
      ComputerRowsShape(SortedComputers(host.config), host, catalog, row);
    }
  }

  lemma PlansAreWellFormed(host: Host, catalog: Catalog)
    requires ValidHost(host, catalog)
    ensures WellFormed(PlanOf(host, catalog, false))
  {
    hide PlanBlockers, VerifiedPresent, ExactTargets, ComputerPreview;
    var plan := PlanOf(host, catalog, false);
    ComputerKeysUnique(host, catalog);
    ComputerRowsValid(host, catalog, plan.computers);
    RowKeysUnique(plan);
    RowContainersValid(plan);
  }

  lemma RowContainersValid(plan: Plan)
    requires ValidContainers(plan.gateway.runtimeContainers) && plan.default.runtimeContainers == []
    requires forall row :: row in plan.computers ==> ValidContainers(row.runtimeContainers)
    ensures forall row :: row in plan.Rows() ==> ValidContainers(row.runtimeContainers)
  {
    forall row | row in plan.Rows()
      ensures ValidContainers(row.runtimeContainers)
    {
      assert row == plan.gateway || row == plan.default || row in plan.computers;
    }
  }

  lemma RowKeysUnique(plan: Plan)
    requires plan.gateway.key == "gateway" && plan.default.key == "default"
    requires forall row :: row in plan.computers ==> |row.key| > 0 && row.key[0] == 'c'
    requires UniqueBy(plan.computers, PreviewKey)
    ensures UniqueBy(plan.Rows(), PreviewKey)
  {
    var rows := plan.Rows();
    forall i, j | 0 <= i < j < |rows|
      ensures PreviewKey(rows[i]) != PreviewKey(rows[j])
    {
      assert plan.gateway.key[0] == 'g' && plan.default.key[0] == 'd';
      if j >= 2 {
        assert rows[j] == plan.computers[j - 2] && rows[j].key[0] == 'c';
        if i >= 2 {
          assert rows[i] == plan.computers[i - 2];
        }
      }
    }
  }

  ghost predicate NoDriftChange(config: Config, images: map<string, string>, imagesAfter: map<string, string>) {
    forall c :: c in config.computers ==> Drifts(c, imagesAfter) == Drifts(c, images)
  }

  lemma SameDriftSameRows(computers: seq<Computer>, host: Host, later: Host, catalog: Catalog)
    requires forall c :: c in computers ==> TargetAvailable(c, catalog)
    requires later.runtimes == host.runtimes
    requires forall c :: c in computers ==> Drifts(c, later.images) == Drifts(c, host.images)
    ensures ComputerRows(computers, later, catalog) == ComputerRows(computers, host, catalog)
  {
    hide ComputerPreview, TargetAvailable, Drifts;
    var a, b := ComputerRows(computers, host, catalog), ComputerRows(computers, later, catalog);
    forall i | 0 <= i < |a|
      ensures b[i] == a[i]
    {
      SameDriftSameRow(computers[i], Lookup(host.runtimes, computers[i].id), host.images, later.images, catalog);
    }
  }

  lemma SameDriftSameRow(c: Computer, observation: Option<Observation>, images: map<string, string>,
                         later: map<string, string>, catalog: Catalog)
    requires TargetAvailable(c, catalog) && Drifts(c, later) == Drifts(c, images)
    ensures ComputerPreview(c, observation, later, catalog) == ComputerPreview(c, observation, images, catalog)
  {
    hide RuntimeStateOf, Target, SameManagedComputerTarget;
  }

  lemma PartsProgress(plan: Plan, later: Plan)
    requires later.catalog == plan.catalog
    requires Progresses(plan.gateway, later.gateway) && Progresses(plan.default, later.default)
    requires |later.computers| == |plan.computers|
    requires forall i :: 0 <= i < |plan.computers| ==> Progresses(plan.computers[i], later.computers[i])
    ensures PlanProgresses(plan, later)
  {
    forall i | 0 <= i < |plan.Rows()|
      ensures Progresses(plan.Rows()[i], later.Rows()[i])
    {
      if i >= 2 {
        assert plan.Rows()[i] == plan.computers[i - 2] && later.Rows()[i] == later.computers[i - 2];
      }
    }
  }

  lemma GatewayRowStepped(host: Host, later: Host, catalog: Catalog, default: Row, evidence: Evidence)
    requires ValidCatalog(catalog)
    requires GatewayPreview(host, catalog).runtimeState != Blocked
    requires catalog.gateway.resolved in evidence
    requires default.action == UpdateDefault ==>
               default.target.Some? && default.target.value.contract.image.resolved in evidence
    requires later.config == GatewayNext(GatewayPreview(host, catalog), default, host.config, evidence)
    requires RuntimeStateOf(Some(later.gatewayRuntime)) == RuntimeStateOf(Some(host.gatewayRuntime))
    requires !Drift(later.config.gateway.image, later.images)
    ensures Progresses(GatewayPreview(host, catalog), GatewayPreview(later, catalog))
    ensures GatewayPreview(later, catalog).action == Current
  {
  }

  lemma DefaultRowStepped(gateway: Row, config: Config, catalog: Catalog, evidence: Evidence)
    requires ValidCatalog(catalog)
    requires config.defaults.contract.preset != Custom ==> config.defaults.contract.preset in catalog.presets
    requires gateway.action != Current ==> gateway.targetImage.Some? && gateway.targetImage.value.resolved in evidence
    requires var row := DefaultPreview(config.defaults, catalog);
             row.action == UpdateDefault ==> row.target.value.contract.image.resolved in evidence
    ensures var row := DefaultPreview(config.defaults, catalog);
            var next := GatewayNext(gateway, row, config, evidence);
            && (next.defaults.contract.preset != Custom ==> next.defaults.contract.preset in catalog.presets)
            && Progresses(row, DefaultPreview(next.defaults, catalog))
            && DefaultPreview(next.defaults, catalog).action != UpdateDefault
            && next.defaults.resources == config.defaults.resources
  {
  }

  /** After the gateway step its rows are current and the computer steps are exactly what is left. */
  lemma ReplanAfterGateway(host: Host, later: Host, catalog: Catalog, evidence: Evidence)
    requires ValidCatalog(catalog) && ValidHost(host, catalog) && Plannable(later.config, catalog)
    requires PlanOf(host, catalog, false).blockers == []
    requires var plan := PlanOf(host, catalog, false);
             && TargetsAcquired(catalog, plan.gateway, plan.default, evidence)
             && later.config == GatewayNext(plan.gateway, plan.default, host.config, evidence)
    requires later.runtimes == host.runtimes && NoDriftChange(host.config, host.images, later.images)
    requires RuntimeStateOf(Some(later.gatewayRuntime)) == RuntimeStateOf(Some(host.gatewayRuntime))
    requires !Drift(later.config.gateway.image, later.images)
    ensures var plan, after := PlanOf(host, catalog, false), PlanOf(later, catalog, false);
            && PlanProgresses(plan, after)
            && Steps(after) == ComputerSteps(plan.computers)
            && after.blockers == []
  {
    var plan, after := PlanOf(host, catalog, false), PlanOf(later, catalog, false);
    PlanUnblockedIffStable(host, catalog, plan);
    PlanUnblockedIffStable(later, catalog, after);
    PlanParts(host, catalog, plan);
    PlanParts(later, catalog, after);
    hide PlanOf, ComputerRows, RuntimeStateOf, Drift, Target, TargetAvailable;
    SameDriftSameRows(SortedComputers(host.config), host, later, catalog);
    GatewayRowStepped(host, later, catalog, plan.default, evidence);
    DefaultRowStepped(plan.gateway, host.config, catalog, evidence);
    GatewayDone(plan, after);
  }

  lemma PlanParts(host: Host, catalog: Catalog, plan: Plan)
    requires Plannable(host.config, catalog) && plan == PlanOf(host, catalog, false)
    ensures plan.catalog == catalog.identity && plan.config == host.config
    ensures plan.gateway == GatewayPreview(host, catalog)
            && plan.default == DefaultPreview(host.config.defaults, catalog)
    ensures plan.computers == ComputerRows(SortedComputers(host.config), host, catalog)
    ensures plan.exactTargets == ExactTargets(Consumers(plan.Rows()))
  {
  }

  lemma GatewayDone(plan: Plan, after: Plan)
    requires after.catalog == plan.catalog && after.computers == plan.computers
    requires Progresses(plan.gateway, after.gateway) && after.gateway.action == Current
    requires Progresses(plan.default, after.default) && after.default.action != UpdateDefault
    requires Stable(plan.gateway, plan.computers)
    ensures PlanProgresses(plan, after) && Steps(after) == ComputerSteps(plan.computers)
    ensures Stable(after.gateway, after.computers)
  {
    forall i | 0 <= i < |plan.computers|
      ensures Progresses(plan.computers[i], after.computers[i])
    {
      SameRowProgresses(plan.computers[i]);
    }
    PartsProgress(plan, after);
  }

  function Without(keys: seq<string>, key: string): seq<string> {
    if keys == [] then []
    else if keys[0] == key then Without(keys[1..], key)
    else [keys[0]] + Without(keys[1..], key)
  }

  lemma {:induction false} SteppedKeyDropsOut(rows: seq<Row>, later: seq<Row>, key: string)
    requires |later| == |rows|
    requires forall i :: 0 <= i < |rows| ==>
               && later[i].key == rows[i].key && later[i].kind == rows[i].kind
               && later[i].action == if rows[i].key == key then Current else rows[i].action
    ensures ComputerSteps(later) == Without(ComputerSteps(rows), key)
  {
    if rows != [] {
      forall i | 0 <= i < |rows| - 1
        ensures && later[1..][i].key == rows[1..][i].key && later[1..][i].kind == rows[1..][i].kind
                && later[1..][i].action == if rows[1..][i].key == key then Current else rows[1..][i].action
      {
        assert rows[1..][i] == rows[i + 1] && later[1..][i] == later[i + 1];
      }
      SteppedKeyDropsOut(rows[1..], later[1..], key);
      WithoutDistributes(if ComputerMutates(rows[0]) then [rows[0].key] else [], ComputerSteps(rows[1..]), key);
    }
  }

  lemma {:induction false} WithoutDistributes(a: seq<string>, b: seq<string>, key: string)
    ensures Without(a + b, key) == Without(a, key) + Without(b, key)
  {
    var whole, rest := a + b, Without(b, key);
    if a == [] {
      assert whole == b;
      assert [] + rest == rest;
    } else {
      assert whole[0] == a[0] && whole[1..] == a[1..] + b;
      WithoutDistributes(a[1..], b, key);
      WithoutSplit(whole, key);
      WithoutSplit(a, key);
      hide Without;
      Associates(if a[0] == key then [] else [a[0]], Without(a[1..], key), rest);
    }
  }

  lemma WithoutSplit(keys: seq<string>, key: string)
    requires keys != []
    ensures Without(keys, key) == (if keys[0] == key then [] else [keys[0]]) + Without(keys[1..], key)
  {
    var rest := Without(keys[1..], key);
    assert [] + rest == rest;
  }

  /** Everything the mutation of this computer is built from is at hand. */
  ghost predicate ComputerStepEnabled(host: Host, catalog: Catalog, evidence: Evidence, computer: Computer,
                                      built: Image)
  {
    && ValidCatalog(catalog) && ValidHost(host, catalog)
    && computer in host.config.computers && Managed(computer) && KeepsBasePreset(computer)
    && Target(computer, catalog).contract.image.resolved in evidence
    && (computer.software.Some? ==> built.contentId.Some?)
    && RuntimeStateOf(Lookup(host.runtimes, computer.id)) != Blocked
  }

  /** What a computer step may change: its own configuration entry and its own runtime. */
  ghost predicate ComputerStepped(host: Host, later: Host, catalog: Catalog, evidence: Evidence, computer: Computer,
                                  built: Image)
    requires TargetAvailable(computer, catalog) && Managed(computer)
    requires Target(computer, catalog).contract.image.resolved in evidence
  {
    var next := ComputerNext(computer, Target(computer, catalog).contract, evidence, built);
    && later.config == WithComputer(host.config, next)
    && later.gatewayRuntime == host.gatewayRuntime
    && (forall id :: id != computer.id ==> Lookup(later.runtimes, id) == Lookup(host.runtimes, id))
    && RuntimeStateOf(Lookup(later.runtimes, computer.id)) == RuntimeStateOf(Lookup(host.runtimes, computer.id))
    && Drift(host.config.gateway.image, later.images) == Drift(host.config.gateway.image, host.images)
    && (forall c :: c in host.config.computers && c.id != computer.id ==>
          Drifts(c, later.images) == Drifts(c, host.images))
    && !Drifts(next, later.images)
  }

  lemma SteppedComputersSorted(config: Config, next: Computer)
    requires exists c :: c in config.computers && c.id == next.id && c.name == next.name
    requires UniqueBy(config.computers, ComputerId)
    ensures SortedComputers(WithComputer(config, next)) == Map(SortedComputers(config), Replace(next))
  {
    var c :| c in config.computers && c.id == next.id && c.name == next.name;
    forall x | x in config.computers
      ensures Replace(next)(x).name == x.name && Replace(next)(x).id == x.id
    {
      if x.id == next.id {
        UniqueElement(config.computers, x, c);
      }
    }
    SortCommutesWithMap(config.computers, Replace(next), ComputerLe);
  }

  lemma UniqueElement(computers: seq<Computer>, a: Computer, b: Computer)
    requires UniqueBy(computers, ComputerId) && a in computers && b in computers && a.id == b.id
    ensures a == b
  {
    var i :| 0 <= i < |computers| && computers[i] == a;
    var j :| 0 <= j < |computers| && computers[j] == b;
    assert ComputerId(computers[i]) == ComputerId(computers[j]);
  }

  lemma WithComputerPlannable(config: Config, catalog: Catalog, next: Computer)
    requires Plannable(config, catalog) && TargetAvailable(next, catalog)
    ensures Plannable(WithComputer(config, next), catalog)
  {
    forall c | c in WithComputer(config, next).computers
      ensures TargetAvailable(c, catalog)
    {
      var i :| 0 <= i < |config.computers| && c == Replace(next)(config.computers[i]);
      assert config.computers[i] in config.computers;
    }
  }

  lemma ComputerRowProgress(host: Host, later: Host, catalog: Catalog, evidence: Evidence, computer: Computer,
                            built: Image, x: Computer)
    requires ComputerStepEnabled(host, catalog, evidence, computer, built) && x in host.config.computers
    requires ComputerStepped(host, later, catalog, evidence, computer, built)
    ensures var next := ComputerNext(computer, Target(computer, catalog).contract, evidence, built);
            && TargetAvailable(Replace(next)(x), catalog)
            && var row := ComputerPreview(x, Lookup(host.runtimes, x.id), host.images, catalog);
               var after := ComputerPreview(Replace(next)(x), Lookup(later.runtimes, x.id), later.images, catalog);
               Progresses(row, after) && after.action == if x.id == computer.id then Current else row.action
  {
    if x.id == computer.id {
      UniqueElement(host.config.computers, x, computer);
      SteppedComputerIsCurrent(computer, catalog, evidence, built, Lookup(host.runtimes, x.id),
                               Lookup(later.runtimes, x.id), host.images, later.images);
    }
  }

  lemma ProgressKeepsStable(gateway: Row, rows: seq<Row>, gatewayAfter: Row, rowsAfter: seq<Row>)
    requires gatewayAfter.runtimeState == gateway.runtimeState && |rowsAfter| == |rows|
    requires forall i :: 0 <= i < |rows| ==> rowsAfter[i].runtimeState == rows[i].runtimeState
    requires Stable(gateway, rows)
    ensures Stable(gatewayAfter, rowsAfter)
  {
    forall row | row in rowsAfter
      ensures row.runtimeState != Blocked && (row.runtimeState == Running ==> gateway.runtimeState == Running)
    {
      var i :| 0 <= i < |rowsAfter| && rowsAfter[i] == row;
      assert rows[i] in rows;
    }
  }

  predicate RowStepped(row: Row, after: Row, key: string) {
    Progresses(row, after) && after.action == if row.key == key then Current else row.action
  }

  ghost predicate RowsStepped(rows: seq<Row>, after: seq<Row>, key: string) {
    |after| == |rows| && forall i :: 0 <= i < |rows| ==> RowStepped(rows[i], after[i], key)
  }

  ghost predicate OthersKept(plan: Plan, after: Plan) {
    && after.gateway == plan.gateway && after.default == plan.default && after.catalog == plan.catalog
  }

  lemma SteppedSorted(host: Host, catalog: Catalog, evidence: Evidence, computer: Computer, built: Image, later: Host)
    requires ComputerStepEnabled(host, catalog, evidence, computer, built)
    requires ComputerStepped(host, later, catalog, evidence, computer, built)
    ensures SortedComputers(later.config)
              == Map(SortedComputers(host.config),
                     Replace(ComputerNext(computer, Target(computer, catalog).contract, evidence, built)))
  {
    SteppedComputersSorted(host.config, ComputerNext(computer, Target(computer, catalog).contract, evidence, built));
  }

  lemma ListedRowStepped(host: Host, later: Host, catalog: Catalog, evidence: Evidence, computer: Computer,
                         built: Image, x: Computer, y: Computer, row: Row, after: Row)
    requires ComputerStepEnabled(host, catalog, evidence, computer, built) && x in host.config.computers
    requires ComputerStepped(host, later, catalog, evidence, computer, built)
    requires y == Replace(ComputerNext(computer, Target(computer, catalog).contract, evidence, built))(x)
    requires row == ComputerPreview(x, Lookup(host.runtimes, x.id), host.images, catalog)
    requires TargetAvailable(y, catalog)
             && after == ComputerPreview(y, Lookup(later.runtimes, y.id), later.images, catalog)
    ensures RowStepped(row, after, RowKeyOf(computer.id))
  {
    hide Target, RuntimeStateOf, SameManagedComputerTarget, Progresses, Drifts;
    ComputerRowProgress(host, later, catalog, evidence, computer, built, x);
    RowKeyInjective(x.id, computer.id);
  }

  lemma ComputerRowsProgress(host: Host, later: Host, catalog: Catalog, evidence: Evidence, computer: Computer,
                             built: Image, rows: seq<Row>, after: seq<Row>)
    requires ComputerStepEnabled(host, catalog, evidence, computer, built) && Plannable(later.config, catalog)
    requires ComputerStepped(host, later, catalog, evidence, computer, built)
    requires rows == ComputerRows(SortedComputers(host.config), host, catalog)
    requires after == ComputerRows(SortedComputers(later.config), later, catalog)
    ensures RowsStepped(rows, after, RowKeyOf(computer.id))
  {
    hide ComputerStepped, RowStepped, RuntimeStateOf, SameManagedComputerTarget, ComputerNext, Target, BasePreset,
      ComputerPreview;
    var sorted := SortedComputers(host.config);
    SteppedSorted(host, catalog, evidence, computer, built, later);
    forall i | 0 <= i < |sorted|
      ensures RowStepped(rows[i], after[i], RowKeyOf(computer.id))
    {
      var y := SortedComputers(later.config)[i];
      ListedRowStepped(host, later, catalog, evidence, computer, built, sorted[i], y, rows[i], after[i]);
    }
  }

  /** After a computer step its row is current and exactly that step has dropped out. */
  lemma ReplanAfterComputer(host: Host, later: Host, catalog: Catalog, evidence: Evidence, computer: Computer,
                            built: Image, plan: Plan, after: Plan)
    requires ComputerStepEnabled(host, catalog, evidence, computer, built) && Plannable(later.config, catalog)
    requires plan == PlanOf(host, catalog, false) && after == PlanOf(later, catalog, false)
    requires plan.blockers == [] && !GatewayMutates(plan)
    requires ComputerStepped(host, later, catalog, evidence, computer, built)
    ensures PlanProgresses(plan, after)
    ensures Steps(after) == Without(Steps(plan), RowKeyOf(computer.id))
    ensures after.blockers == []
  {
    OtherRowsKept(host, later, catalog);
    ComputerRowsProgress(host, later, catalog, evidence, computer, built, plan.computers, after.computers);
    PlanUnblockedIffStable(host, catalog, plan);
    PlanUnblockedIffStable(later, catalog, after);
    RowsProgressLeaves(plan, after, RowKeyOf(computer.id));
  }

  lemma RowsProgressLeaves(plan: Plan, after: Plan, key: string)
    requires OthersKept(plan, after) && RowsStepped(plan.computers, after.computers, key)
    requires !GatewayMutates(plan) && Stable(plan.gateway, plan.computers)
    ensures PlanProgresses(plan, after) && Steps(after) == Without(Steps(plan), key)
            && Stable(after.gateway, after.computers)
  {
    SteppedKeyDropsOut(plan.computers, after.computers, key);
    assert Steps(plan) == ComputerSteps(plan.computers) && Steps(after) == ComputerSteps(after.computers);
    ProgressKeepsStable(plan.gateway, plan.computers, after.gateway, after.computers);
    PartsProgress(plan, after);
  }

  lemma OtherRowsKept(host: Host, later: Host, catalog: Catalog)
    requires Plannable(host.config, catalog) && Plannable(later.config, catalog)
    requires later.config.gateway == host.config.gateway && later.config.defaults == host.config.defaults
    requires later.gatewayRuntime == host.gatewayRuntime
    requires Drift(host.config.gateway.image, later.images) == Drift(host.config.gateway.image, host.images)
    ensures OthersKept(PlanOf(host, catalog, false), PlanOf(later, catalog, false))
  {
  }

  // ----- acquisition changes no plan -----

  /** The references whose drift a plan looks at. */
  ghost predicate Configured(config: Config, image: Image) {
    image == config.gateway.image || exists c :: c in config.computers && image == c.contract.image
  }

  ghost predicate Extends(images: map<string, string>, later: map<string, string>) {
    forall r :: r in images ==> r in later && later[r] == images[r]
  }

  predicate NewlyObtained(image: Image, images: map<string, string>, later: map<string, string>) {
    image.contentId.Some? && image.resolved !in images && image.resolved in later
  }

  /**
   * Obtaining references (an existing one is never pulled again) leaves every drift verdict as it
   * was exactly when newly obtained configured references bring their recorded bytes.
   */
  lemma QuietIffRecordedBytes(config: Config, images: map<string, string>, later: map<string, string>)
    requires Extends(images, later)
    ensures (forall image :: Configured(config, image) ==> Drift(image, later) == Drift(image, images))
        <==> (forall image :: Configured(config, image) && NewlyObtained(image, images, later)
                ==> later[image.resolved] == image.contentId.value)
  {
    if forall image :: Configured(config, image) ==> Drift(image, later) == Drift(image, images) {
      forall image | Configured(config, image) && NewlyObtained(image, images, later)
        ensures later[image.resolved] == image.contentId.value
      {
        assert !Drift(image, images);
        assert Drift(image, later) == Drift(image, images);
      }
    }
  }

  /** With unchanged drift verdicts a fresh plan asks for the same steps under the same acceptance. */
  lemma ReplanAfterAcquisition(host: Host, later: Host, catalog: Catalog)
    requires Plannable(host.config, catalog) && later == host.(images := later.images)
    requires forall image :: Configured(host.config, image) ==> Drift(image, later.images) == Drift(image, host.images)
    ensures var plan, after := PlanOf(host, catalog, false), PlanOf(later, catalog, false);
            after.Rows() == plan.Rows() && after == plan.(present := after.present)
  {
    forall c | c in host.config.computers
      ensures Drifts(c, later.images) == Drifts(c, host.images)
    {
      assert Configured(host.config, c.contract.image);
    }
    assert Configured(host.config, host.config.gateway.image);
    SameDriftSameRows(SortedComputers(host.config), host, later, catalog);
    assert GatewayPreview(later, catalog) == GatewayPreview(host, catalog);
  }

  // ----- what a change of the image store does to acceptance -----

  /** No image of a row that reads current holds other bytes than were recorded for it. */
  ghost predicate CurrentStaysQuiet(host: Host, catalog: Catalog, images: map<string, string>)
    requires Plannable(host.config, catalog)
  {
    && (GatewayPreview(host, catalog).action == Current ==> !Drift(host.config.gateway.image, images))
    && forall c :: c in host.config.computers && ReadsCurrent(c, host, catalog) ==> !Drifts(c, images)
  }

  predicate ReadsCurrent(c: Computer, host: Host, catalog: Catalog)
    requires TargetAvailable(c, catalog)
  {
    ComputerPreview(c, Lookup(host.runtimes, c.id), host.images, catalog).action == Current
  }

  /** A row that is the same but for its drift verdict and what follows from it. */
  predicate Refreshes(row: Row, later: Row) {
    && later == row.(contentDrift := later.contentDrift, action := later.action)
    && (later.action == row.action
        || (row.action in {Current, RepairContentDrift} && later.action in {Current, RepairContentDrift}))
  }

  lemma RefreshedComputer(c: Computer, observation: Option<Observation>, images: map<string, string>,
                          later: map<string, string>, catalog: Catalog)
    requires TargetAvailable(c, catalog)
    ensures var row, after :=
              ComputerPreview(c, observation, images, catalog), ComputerPreview(c, observation, later, catalog);
            && Refreshes(row, after)
            && (row.action == Current && after.action != Current <==> row.action == Current && Drifts(c, later))
            && (Progresses(row, after) <==> !(row.action == Current && Drifts(c, later)))
  {
    hide Target, RuntimeStateOf, SameManagedComputerTarget;
  }

  lemma RefreshedGateway(host: Host, later: Host, catalog: Catalog)
    requires later == host.(images := later.images)
    ensures var row, after := GatewayPreview(host, catalog), GatewayPreview(later, catalog);
            && Refreshes(row, after)
            && (row.action == Current && after.action != Current <==>
                  row.action == Current && Drift(host.config.gateway.image, later.images))
            && (Progresses(row, after) <==> !(row.action == Current && Drift(host.config.gateway.image, later.images)))
  {
    hide RuntimeStateOf, SameGatewayTarget;
  }

  /** The plan over a changed image store: every row refreshed, nothing else. */
  lemma RefreshedPlan(host: Host, later: Host, catalog: Catalog, plan: Plan, after: Plan)
    requires Plannable(host.config, catalog) && later == host.(images := later.images)
    requires plan == PlanOf(host, catalog, false) && after == PlanOf(later, catalog, false)
    ensures after.default == plan.default && after.catalog == plan.catalog && after.config == plan.config
    ensures Refreshes(plan.gateway, after.gateway) && |after.computers| == |plan.computers|
    ensures forall i :: 0 <= i < |plan.computers| ==> Refreshes(plan.computers[i], after.computers[i])
    ensures plan.blockers == [] <==> after.blockers == []
  {
    hide ComputerPreview, GatewayPreview, Refreshes, ExactTargets, Consumers, VerifiedPresent, PlanBlockers, Sort;
    RefreshedGateway(host, later, catalog);
    var sorted := SortedComputers(host.config);
    forall i | 0 <= i < |sorted|
      ensures Refreshes(plan.computers[i], after.computers[i])
    {
      RefreshedComputer(sorted[i], Lookup(host.runtimes, sorted[i].id), host.images, later.images, catalog);
    }
    PlanUnblockedIffStable(host, catalog, plan);
    PlanUnblockedIffStable(later, catalog, after);
    RefreshKeepsStable(plan.gateway, plan.computers, after.gateway, after.computers);
    RefreshKeepsStable(after.gateway, after.computers, plan.gateway, plan.computers);
  }

  lemma RefreshKeepsStable(gateway: Row, rows: seq<Row>, gatewayAfter: Row, rowsAfter: seq<Row>)
    requires Refreshes(gateway, gatewayAfter) || Refreshes(gatewayAfter, gateway)
    requires |rowsAfter| == |rows|
    requires forall i :: 0 <= i < |rows| ==> Refreshes(rows[i], rowsAfter[i]) || Refreshes(rowsAfter[i], rows[i])
    ensures Stable(gateway, rows) ==> Stable(gatewayAfter, rowsAfter)
  {
    if Stable(gateway, rows) {
      ProgressKeepsStable(gateway, rows, gatewayAfter, rowsAfter);
    }
  }

  /** If nothing current drifts, every row progresses. */
  lemma QuietPlanProgresses(host: Host, later: Host, catalog: Catalog, plan: Plan, after: Plan)
    requires Plannable(host.config, catalog) && later == host.(images := later.images)
    requires plan == PlanOf(host, catalog, false) && after == PlanOf(later, catalog, false)
    requires CurrentStaysQuiet(host, catalog, later.images)
    ensures PlanProgresses(plan, after)
  {
    RefreshedPlan(host, later, catalog, plan, after);
    hide ComputerPreview, GatewayPreview, Refreshes, ExactTargets, Consumers, VerifiedPresent, PlanBlockers, Sort,
      Progresses;
    RefreshedGateway(host, later, catalog);
    var sorted := SortedComputers(host.config);
    forall i | 0 <= i < |sorted|
      ensures Progresses(plan.computers[i], after.computers[i])
    {
      assert sorted[i] in host.config.computers;
      RefreshedComputer(sorted[i], Lookup(host.runtimes, sorted[i].id), host.images, later.images, catalog);
      assert ReadsCurrent(sorted[i], host, catalog) ==> !Drifts(sorted[i], later.images);
    }
    assert Progresses(plan.default, after.default) by { SameRowProgresses(plan.default); }
    PartsProgress(plan, after);
  }

  lemma SameRowProgresses(row: Row)
    ensures Progresses(row, row)
  {
  }

  /**
   * When recovery refuses a state over its image store: the acceptance of a plan admits the plan over the
   * changed store exactly when no image of a row that read current has come to hold other bytes.
   */
  lemma AdmittedIffCurrentStaysQuiet(host: Host, later: Host, catalog: Catalog)
    requires ValidHost(host, catalog) && later == host.(images := later.images)
    ensures Admits(Accept(PlanOf(host, catalog, false)), Accept(PlanOf(later, catalog, false)))
        <==> CurrentStaysQuiet(host, catalog, later.images)
  {
    hide PlanOf, Admits, CurrentStaysQuiet, WellFormed, Accept;
    assert ValidHost(later, catalog);
    var plan, after := PlanOf(host, catalog, false), PlanOf(later, catalog, false);
    PlansAreWellFormed(host, catalog);
    PlansAreWellFormed(later, catalog);
    AdmittedIffQuietPlans(host, later, catalog, plan, after);
  }

  lemma AdmittedIffQuietPlans(host: Host, later: Host, catalog: Catalog, plan: Plan, after: Plan)
    requires Plannable(host.config, catalog) && later == host.(images := later.images)
    requires plan == PlanOf(host, catalog, false) && after == PlanOf(later, catalog, false)
    requires WellFormed(plan) && WellFormed(after)
    ensures Admits(Accept(plan), Accept(after)) <==> CurrentStaysQuiet(host, catalog, later.images)
  {
    hide PlanOf, Admits, WellFormed, Accept, PlanProgresses, ReadsCurrent, Drift, Drifts, GatewayPreview, ComputerRows;
    PlanParts(host, catalog, plan);
    PlanParts(later, catalog, after);
    if CurrentStaysQuiet(host, catalog, later.images) {
      QuietPlanProgresses(host, later, catalog, plan, after);
      ProgressIsAdmitted(plan, after);
    } else if GatewayPreview(host, catalog).action == Current && Drift(host.config.gateway.image, later.images) {
      DriftedGatewayRow(host, later, catalog, plan, after);
      DriftedRowIsRefused(plan, after, 0);
    } else {
      var c :| c in host.config.computers && ReadsCurrent(c, host, catalog) && Drifts(c, later.images);
      DriftedComputerIsRefused(host, later, catalog, plan, after, c);
    }
  }

  /** A row that read current and now wants a repair. */
  predicate DriftedAt(plan: Plan, after: Plan, i: nat) {
    && i < |plan.Rows()| && i < |after.Rows()|
    && plan.Rows()[i].action == Current && after.Rows()[i].action != Current
    && after.Rows()[i].key == plan.Rows()[i].key
  }

  lemma DriftedComputerIsRefused(host: Host, later: Host, catalog: Catalog, plan: Plan, after: Plan, c: Computer)
    requires Plannable(host.config, catalog) && later == host.(images := later.images)
    requires plan.computers == ComputerRows(SortedComputers(host.config), host, catalog)
    requires after.computers == ComputerRows(SortedComputers(host.config), later, catalog)
    requires WellFormed(plan) && c in host.config.computers && ReadsCurrent(c, host, catalog) && Drifts(c, later.images)
    ensures !Admits(Accept(plan), Accept(after))
  {
    hide WellFormed, Admits, Accept, ReadsCurrent, Drifts;
    var k := DriftedComputerRow(host, later, catalog, SortedComputers(host.config), c);
    ComputerRowDrifted(plan, after, k);
    DriftedRowIsRefused(plan, after, k + 2);
  }

  lemma DriftedGatewayRow(host: Host, later: Host, catalog: Catalog, plan: Plan, after: Plan)
    requires later == host.(images := later.images)
    requires plan.gateway == GatewayPreview(host, catalog) && after.gateway == GatewayPreview(later, catalog)
    requires plan.gateway.action == Current && Drift(host.config.gateway.image, later.images)
    ensures DriftedAt(plan, after, 0)
  {
    RefreshedGateway(host, later, catalog);
    assert plan.Rows()[0] == plan.gateway && after.Rows()[0] == after.gateway;
  }

  lemma ComputerRowDrifted(plan: Plan, after: Plan, k: nat)
    requires k < |plan.computers| && k < |after.computers|
    requires plan.computers[k].action == Current && after.computers[k].action != Current
    requires after.computers[k].key == plan.computers[k].key
    ensures DriftedAt(plan, after, k + 2)
  {
    assert plan.Rows()[k + 2] == plan.computers[k] && after.Rows()[k + 2] == after.computers[k];
  }

  lemma DriftedComputerRow(host: Host, later: Host, catalog: Catalog, computers: seq<Computer>, c: Computer)
    returns (k: nat)
    requires forall d :: d in computers ==> TargetAvailable(d, catalog)
    requires later == host.(images := later.images) && c in computers
    requires ReadsCurrent(c, host, catalog) && Drifts(c, later.images)
    ensures k < |computers|
    ensures var row, after := ComputerRows(computers, host, catalog)[k], ComputerRows(computers, later, catalog)[k];
            row.action == Current && after.action != Current && after.key == row.key
  {
    k :| 0 <= k < |computers| && computers[k] == c;
    hide Drifts;
    RefreshedComputer(c, Lookup(host.runtimes, c.id), host.images, later.images, catalog);
    PreviewNamed(c, Lookup(host.runtimes, c.id), host.images, catalog);
    PreviewNamed(c, Lookup(host.runtimes, c.id), later.images, catalog);
    hide ComputerPreview;
  }

  lemma DriftedRowIsRefused(plan: Plan, after: Plan, i: nat)
    requires WellFormed(plan) && DriftedAt(plan, after, i)
    ensures !Admits(Accept(plan), Accept(after))
  {
    AcceptedKeysUnique(plan);
    var accepted, row := Accept(plan).rows, Accept(after).rows[i];
    forall k | 0 <= k < |accepted|
      ensures !RowAdmitted(accepted[k], row)
    {
      if k != i { assert RowKey(accepted[k]) != RowKey(accepted[i]); }
    }
    assert !AdmittedBySome(accepted, row) && row in Accept(after).rows;
  }

  predicate BringsRecordedBytes(image: Image, images: map<string, string>, later: map<string, string>) {
    NewlyObtained(image, images, later) ==> later[image.resolved] == image.contentId.value
  }

  /** For obtained references that is: a newly obtained image of a current row brings its recorded bytes. */
  lemma ObtainingAdmittedIffRecordedBytes(host: Host, later: Host, catalog: Catalog)
    requires ValidHost(host, catalog) && later == host.(images := later.images) && Extends(host.images, later.images)
    ensures Admits(Accept(PlanOf(host, catalog, false)), Accept(PlanOf(later, catalog, false)))
        <==> && (GatewayPreview(host, catalog).action == Current ==>
                   BringsRecordedBytes(host.config.gateway.image, host.images, later.images))
             && (forall c :: c in host.config.computers && ReadsCurrent(c, host, catalog) ==>
                   BringsRecordedBytes(c.contract.image, host.images, later.images))
  {
    AdmittedIffCurrentStaysQuiet(host, later, catalog);
    hide PlanOf, Admits;
    CurrentHasNoDrift(host, catalog);
  }

  lemma CurrentHasNoDrift(host: Host, catalog: Catalog)
    requires Plannable(host.config, catalog)
    ensures CurrentStaysQuiet(host, catalog, host.images)
  {
    hide Target, RuntimeStateOf, SameManagedComputerTarget;
  }

  /** Over a store in which nothing current drifts, a fresh plan asks for no step that was not asked for. */
  lemma QuietStepsShrink(plan: Plan, after: Plan)
    requires PlanProgresses(plan, after)
    requires forall row :: row in plan.computers + after.computers ==> row.kind == ComputerRow
    ensures forall key :: key in Steps(after) ==> key in Steps(plan)
  {
    assert plan.Rows()[0] == plan.gateway && plan.Rows()[1] == plan.default;
    assert after.Rows()[0] == after.gateway && after.Rows()[1] == after.default;
    assert Progresses(plan.gateway, after.gateway) && Progresses(plan.default, after.default);
    forall i | 0 <= i < |plan.computers|
      ensures Progresses(plan.computers[i], after.computers[i])
    {
      assert plan.Rows()[i + 2] == plan.computers[i] && after.Rows()[i + 2] == after.computers[i];
    }
    ProgressShrinksSteps(plan.computers, after.computers);
  }

  lemma {:induction false} ProgressShrinksSteps(rows: seq<Row>, later: seq<Row>)
    requires |later| == |rows| && forall i :: 0 <= i < |rows| ==> Progresses(rows[i], later[i])
    ensures forall key :: key in ComputerSteps(later) ==> key in ComputerSteps(rows)
  {
    if rows != [] {
      forall i | 0 <= i < |rows| - 1
        ensures Progresses(rows[1..][i], later[1..][i])
      {
        assert rows[1..][i] == rows[i + 1] && later[1..][i] == later[i + 1];
      }
      ProgressShrinksSteps(rows[1..], later[1..]);
      assert Progresses(rows[0], later[0]);
    }
  }
}
