/**
 * The planner of `upgrade --all`: what a preview row says about each configured image, which steps
 * mutate it, and what each step writes. Models packages/cli/src/lifecycle-update.ts.
 */
module UpgradePlan {
  import opened Wrappers
  import opened ManagedRuntime
  import opened UpgradeAcceptance
  import opened Sorting
  import opened ToolPolicy

  // ----- configuration, catalog and observed host -----

  datatype Image = Image(requested: string, resolved: string, manifest: Option<string>, contentId: Option<string>)
  datatype Contract = Contract(preset: Preset, compatibility: Preset, image: Image, version: nat,
                               capabilities: seq<string>)
  datatype Resources = Resources(cpus: real, memory: string)
  datatype Defaults = Defaults(contract: Contract, resources: Resources)
  datatype Recipe = Recipe(baseImage: string, basePreset: Option<Preset>, baseIdentity: Option<Image>,
                           aptPackages: seq<string>)
  datatype Gateway = Gateway(image: Image, settings: string)
  datatype Computer = Computer(id: string, name: string, contract: Contract, resources: Resources,
                               software: Option<Recipe>, access: Access, settings: string)
  datatype Config = Config(installationId: string, gateway: Gateway, defaults: Defaults, computers: seq<Computer>)
  datatype Catalog = Catalog(identity: CatalogIdentity, gateway: Image, presets: map<Preset, Defaults>)

  /** Everything a plan is computed from; `images` is the local image store, reference to content. */
  datatype Host = Host(config: Config, gatewayRuntime: Observation, runtimes: map<string, Observation>,
                       images: map<string, string>)

  ghost predicate ValidCatalog(catalog: Catalog) {
    && catalog.gateway.contentId.None? && catalog.gateway.resolved != ""
    && forall p :: p in catalog.presets ==>
         && p != Custom
         && catalog.presets[p].contract.preset == p
         && catalog.presets[p].contract.image.contentId.None?
         && catalog.presets[p].contract.image.requested != "" && catalog.presets[p].contract.image.resolved != ""
  }

  function ComputerId(computer: Computer): string { computer.id }

  // ----- targets -----

  predicate Managed(computer: Computer) {
    computer.contract.preset != Custom || computer.software.Some?
  }

  /** The preset whose catalog entry an upgrade of `computer` follows. */
  function BasePreset(computer: Computer): Preset {
    if computer.software.Some? && computer.software.value.basePreset.Some?
    then computer.software.value.basePreset.value
    else computer.contract.preset
  }

  /** Planning throws for a preset that the catalog does not offer on this platform. */
  predicate Plannable(config: Config, catalog: Catalog) {
    && (config.defaults.contract.preset != Custom ==> config.defaults.contract.preset in catalog.presets)
    && forall c :: c in config.computers ==> TargetAvailable(c, catalog)
  }

  predicate TargetAvailable(computer: Computer, catalog: Catalog) {
    Managed(computer) && BasePreset(computer) != Custom ==> BasePreset(computer) in catalog.presets
  }

  /** softwareBaseDefaults */
  function Target(computer: Computer, catalog: Catalog): Defaults
    requires Managed(computer) && TargetAvailable(computer, catalog)
    requires BasePreset(computer) == Custom ==> computer.software.Some?
  {
    if BasePreset(computer) != Custom then catalog.presets[BasePreset(computer)]
    else
      var recipe := computer.software.value;
      var image := if recipe.baseIdentity.Some? then recipe.baseIdentity.value
                   else Image(recipe.baseImage, recipe.baseImage, computer.contract.image.manifest, None);
      Defaults(computer.contract.(preset := Custom, image := image), computer.resources)
  }

  predicate SameGatewayTarget(current: Image, target: Image) {
    current.contentId.Some? && current.resolved == target.resolved
  }

  predicate SameComputerTarget(current: Contract, target: Contract) {
    && current.image.contentId.Some?
    && current.preset == target.preset
    && current.compatibility == target.compatibility
    && current.image.resolved == target.image.resolved
    && current.image.manifest == target.image.manifest
    && current.version == target.version
    && current.capabilities == target.capabilities
  }

  predicate SameManagedComputerTarget(computer: Computer, target: Contract) {
    if computer.software.None? then SameComputerTarget(computer.contract, target)
    else
      var base := computer.software.value.baseIdentity;
      && computer.contract.image.contentId.Some? && base.Some? && base.value.contentId.Some?
      && base.value.resolved == target.image.resolved
      && base.value.manifest == target.image.manifest
      && computer.contract.compatibility == target.compatibility
      && computer.contract.capabilities == target.capabilities
  }

  // ----- runtime -----

  /** normalizeRuntime over requirePreservedRuntimeState; `Blocked` is the recorded blocker. */
  function RuntimeStateOf(observation: Option<Observation>): RuntimeState {
    match observation
    case None => Blocked
    case Some(o) =>
      match o.group
      case Partial => Blocked
      case Inconsistent => Blocked
      case AbsentGroup => if o.status == IsAbsent then Absent else Blocked
      case Complete => if o.status == IsRunning then Running
                       else if o.status == IsExited || o.status == IsCreated then Stopped
                       else Blocked
  }

  function Lookup(runtimes: map<string, Observation>, id: string): Option<Observation> {
    if id in runtimes then Some(runtimes[id]) else None
  }

  function Containers(observation: Option<Observation>): seq<Binding> {
    if observation.Some? then observation.value.containers else []
  }

  /** The configured reference is local but holds other bytes than were recorded. */
  predicate Drift(image: Image, images: map<string, string>) {
    image.resolved in images && image.contentId.Some? && images[image.resolved] != image.contentId.value
  }

  // ----- preview rows -----

  datatype Row = Row(key: string, kind: RowKind, name: string, preset: Option<Preset>, currentImage: Image,
                     target: Option<Defaults>, targetImage: Option<Image>, currentResources: Option<Resources>,
                     runtimeState: RuntimeState, runtimeContainers: seq<Binding>, contentDrift: bool,
                     action: Action, software: Option<Recipe>)

  function RuntimeAction(state: RuntimeState, update: bool, drift: bool): Action {
    if state == Blocked then BlockedRuntime
    else if update then Upgrade
    else if drift then RepairContentDrift
    else Current
  }

  function GatewayPreview(host: Host, catalog: Catalog): Row {
    var image := host.config.gateway.image;
    var state := RuntimeStateOf(Some(host.gatewayRuntime));
    var drift := Drift(image, host.images);
    Row("gateway", GatewayRow, "gateway", None, image, None, Some(catalog.gateway), None, state,
        host.gatewayRuntime.containers, drift,
        RuntimeAction(state, !SameGatewayTarget(image, catalog.gateway), drift), None)
  }

  function DefaultPreview(defaults: Defaults, catalog: Catalog): Row
    requires defaults.contract.preset != Custom ==> defaults.contract.preset in catalog.presets
  {
    var contract := defaults.contract;
    if contract.preset == Custom then
      Row("default", DefaultRow, "configured default", Some(Custom), contract.image, None, None,
          Some(defaults.resources), NotApplicable, [], false, ManualCustomImage, None)
    else
      var target := catalog.presets[contract.preset];
      Row("default", DefaultRow, "configured default", Some(contract.preset), contract.image, Some(target),
          Some(target.contract.image), Some(defaults.resources), NotApplicable, [], false,
          if SameComputerTarget(contract, target.contract) then Current else UpdateDefault, None)
  }

  function RowKeyOf(id: string): string { "computer:" + id }

  function ComputerPreview(computer: Computer, observation: Option<Observation>, images: map<string, string>,
                           catalog: Catalog): Row
    requires TargetAvailable(computer, catalog)
  {
    var contract := computer.contract;
    var state := RuntimeStateOf(observation);
    var drift := Drift(contract.image, images);
    if !Managed(computer) then
      Row(RowKeyOf(computer.id), ComputerRow, computer.name, Some(Custom), contract.image, None, None,
          Some(computer.resources), state, Containers(observation), drift,
          if state == Blocked then BlockedRuntime else ManualCustomImage, None)
    else
      var target := Target(computer, catalog);
      Row(RowKeyOf(computer.id), ComputerRow, computer.name, Some(target.contract.preset), contract.image, Some(target),
          Some(target.contract.image), Some(computer.resources), state, Containers(observation), drift,
          RuntimeAction(state, !SameManagedComputerTarget(computer, target.contract), drift), computer.software)
  }

  // ----- exact targets -----

  datatype Consumer = Consumer(id: string, kind: RowKind, exactTarget: string)

  function KindOrder(kind: RowKind): nat {
    match kind case GatewayRow => 0 case DefaultRow => 1 case ComputerRow => 2
  }

  predicate ConsumerLe(left: Consumer, right: Consumer) {
    || KindOrder(left.kind) < KindOrder(right.kind)
    || (left.kind == right.kind && TextLe(left.id, right.id))
  }

  function Consumers(rows: seq<Row>): seq<Consumer> {
    if rows == [] then []
    else (if rows[0].targetImage.Some? then [Consumer(rows[0].key, rows[0].kind, rows[0].targetImage.value.resolved)]
          else [])
         + Consumers(rows[1..])
  }

  function DistinctTargets(consumers: seq<Consumer>): seq<string> {
    if consumers == [] then []
    else
      var rest := DistinctTargets(consumers[1..]);
      if consumers[0].exactTarget in rest then rest else [consumers[0].exactTarget] + rest
  }

  function ConsumersOf(consumers: seq<Consumer>, target: string): seq<Consumer> {
    if consumers == [] then []
    else (if consumers[0].exactTarget == target then [consumers[0]] else []) + ConsumersOf(consumers[1..], target)
  }

  function ConsumerIdOf(consumer: Consumer): string { consumer.id }

  /** buildExactTargets: deduplicated targets in text order, consumers by kind and identity. */
  function ExactTargets(consumers: seq<Consumer>): seq<AcceptedTarget> {
    Map(Sort(DistinctTargets(consumers), TextLe),
        target => AcceptedTarget(target, Map(Sort(ConsumersOf(consumers, target), ConsumerLe), ConsumerIdOf)))
  }

  // ----- the plan -----

  datatype Blocker = Blocker(code: string, subject: string)

  const UNSTABLE := "runtime-unstable"
  const RECOVERY := "recovery-required"

  predicate BlockerLe(left: Blocker, right: Blocker) {
    if left.code == right.code then TextLe(left.subject, right.subject) else TextLe(left.code, right.code)
  }

  datatype Plan = Plan(catalog: CatalogIdentity, config: Config, gateway: Row, default: Row, computers: seq<Row>,
                       exactTargets: seq<AcceptedTarget>, present: set<string>, blockers: seq<Blocker>)
  {
    function Rows(): seq<Row> { [gateway, default] + computers }
  }

  predicate ComputerLe(left: Computer, right: Computer) {
    if left.name == right.name then TextLe(left.id, right.id) else TextLe(left.name, right.name)
  }

  function ComputerRows(computers: seq<Computer>, host: Host, catalog: Catalog): (rows: seq<Row>)
    requires forall c :: c in computers ==> TargetAvailable(c, catalog)
    ensures |rows| == |computers|
    ensures forall i :: 0 <= i < |rows| ==>
              rows[i] == ComputerPreview(computers[i], Lookup(host.runtimes, computers[i].id), host.images, catalog)
  {
    if computers == [] then []
    else [ComputerPreview(computers[0], Lookup(host.runtimes, computers[0].id), host.images, catalog)]
         + ComputerRows(computers[1..], host, catalog)
  }

  /** normalizeRuntime records a blocker for every runtime whose state cannot be preserved. */
  function RowBlockers(rows: seq<Row>): seq<Blocker> {
    if rows == [] then []
    else
      var last := rows[|rows| - 1];
      RowBlockers(rows[..|rows| - 1]) + if last.runtimeState == Blocked then [Blocker(UNSTABLE, last.name)] else []
  }

  predicate RunsWithoutGateway(gateway: Row, computers: seq<Row>) {
    gateway.runtimeState != Running && exists row :: row in computers && row.runtimeState == Running
  }

  /** The blockers in the order in which they are pushed. */
  function PlanBlockers(gateway: Row, default: Row, computers: seq<Row>, recoveryRequired: bool): seq<Blocker> {
    RowBlockers([gateway, default] + computers)
    + (if RunsWithoutGateway(gateway, computers) then [Blocker(UNSTABLE, "gateway")] else [])
    + (if recoveryRequired then [Blocker(RECOVERY, "lifecycle")] else [])
  }

  /** Every runtime can be preserved, and the gateway of a running computer runs. */
  predicate Stable(gateway: Row, computers: seq<Row>) {
    && gateway.runtimeState != Blocked
    && forall row :: row in computers ==>
         row.runtimeState != Blocked && (row.runtimeState == Running ==> gateway.runtimeState == Running)
  }

  lemma {:induction false} NoRowBlocks(rows: seq<Row>)
    ensures RowBlockers(rows) == [] <==> forall row :: row in rows ==> row.runtimeState != Blocked
  {
    if rows != [] {
      var last := rows[|rows| - 1];
      NoRowBlocks(rows[..|rows| - 1]);
      assert rows == rows[..|rows| - 1] + [last];
      assert last in rows;
    }
  }

  /** A plan is unblocked exactly when everything it would touch is stable and no recovery is due. */
  lemma UnblockedIffStable(gateway: Row, default: Row, computers: seq<Row>, recoveryRequired: bool)
    requires default.runtimeState != Blocked
    ensures Sort(PlanBlockers(gateway, default, computers, recoveryRequired), BlockerLe) == []
        <==> Stable(gateway, computers) && !recoveryRequired
  {
    var rows, blockers := [gateway, default] + computers, PlanBlockers(gateway, default, computers, recoveryRequired);
    SortIsPermutation(blockers, BlockerLe);
    NoRowBlocks(rows);
    assert rows[0] == gateway && rows[1] == default && rows[2..] == computers;
    assert forall row :: row in rows <==> row == gateway || row == default || row in computers;
    assert |blockers| >= |RowBlockers(rows)|;
  }

  function SortedComputers(config: Config): (computers: seq<Computer>)
    ensures |computers| == |config.computers|
    ensures forall c :: c in computers <==> c in config.computers
  {
    SortKeepsElements(config.computers, ComputerLe);
    Sort(config.computers, ComputerLe)
  }

  /** A reference whose configured consumer has drifted does not count as present. */
  function VerifiedPresent(rows: seq<Row>, images: map<string, string>): set<string> {
    images.Keys - set row <- rows | row.contentDrift && row.targetImage.Some?
                                    && row.targetImage.value.resolved == row.currentImage.resolved
                                  :: row.currentImage.resolved
  }

  /** buildUpgradeAllPlan on inputs for which planning does not throw. */
  function PlanOf(host: Host, catalog: Catalog, recoveryRequired: bool): Plan
    requires Plannable(host.config, catalog)
  {
    var gateway := GatewayPreview(host, catalog);
    var default := DefaultPreview(host.config.defaults, catalog);
    var computers := ComputerRows(SortedComputers(host.config), host, catalog);
    var rows := [gateway, default] + computers;
    Plan(catalog.identity, host.config, gateway, default, computers, ExactTargets(Consumers(rows)),
         VerifiedPresent(rows, host.images),
         Sort(PlanBlockers(gateway, default, computers, recoveryRequired), BlockerLe))
  }

  /** A fresh plan is unblocked exactly when what it would touch is stable. */
  lemma PlanUnblockedIffStable(host: Host, catalog: Catalog, plan: Plan)
    requires Plannable(host.config, catalog) && plan == PlanOf(host, catalog, false)
    ensures plan.blockers == [] <==> Stable(plan.gateway, plan.computers)
  {
    hide Sort, PlanBlockers, Stable, ExactTargets, Consumers, VerifiedPresent, GatewayPreview, ComputerRows;
    UnblockedIffStable(plan.gateway, plan.default, plan.computers, false);
  }

  function ConsumerOf(row: Row): seq<Consumer> {
    if row.targetImage.Some? then [Consumer(row.key, row.kind, row.targetImage.value.resolved)] else []
  }

  lemma {:induction false} ConsumersPushed(rows: seq<Row>, row: Row)
    ensures Consumers(rows + [row]) == Consumers(rows) + ConsumerOf(row)
  {
    var longer := rows + [row];
    if rows == [] {
      assert longer[1..] == [];
      ConsumersSplit(longer);
    } else {
      assert longer[1..] == rows[1..] + [row];
      ConsumersSplit(longer);
      ConsumersSplit(rows);
      ConsumersPushed(rows[1..], row);
      hide Consumers, ConsumerOf;
      assert Consumers(longer) == ConsumerOf(rows[0]) + (Consumers(rows[1..]) + ConsumerOf(row));
    }
  }

  lemma ConsumersSplit(rows: seq<Row>)
    requires rows != []
    ensures Consumers(rows) == ConsumerOf(rows[0]) + Consumers(rows[1..])
  {
  }

  lemma BlockersPushed(rows: seq<Row>, row: Row)
    ensures RowBlockers(rows + [row])
              == RowBlockers(rows) + if row.runtimeState == Blocked then [Blocker(UNSTABLE, row.name)] else []
  {
    assert (rows + [row])[..|rows|] == rows;
  }

  lemma {:induction false} RowsPushed(computers: seq<Computer>, computer: Computer, host: Host, catalog: Catalog)
    requires forall c :: c in computers ==> TargetAvailable(c, catalog)
    requires TargetAvailable(computer, catalog)
    ensures ComputerRows(computers + [computer], host, catalog)
              == ComputerRows(computers, host, catalog)
                 + [ComputerPreview(computer, Lookup(host.runtimes, computer.id), host.images, catalog)]
  {
    hide ComputerPreview, TargetAvailable;
  }

  /** What pushing a row adds to the three lists the planner grows. */
  lemma RowPushed(rows: seq<Row>, row: Row)
    ensures Consumers(rows + [row]) == Consumers(rows) + ConsumerOf(row)
    ensures RowBlockers(rows + [row])
              == RowBlockers(rows) + if row.runtimeState == Blocked then [Blocker(UNSTABLE, row.name)] else []
  {
    ConsumersPushed(rows, row);
    BlockersPushed(rows, row);
  }

  /** The two rows in front: the gateway may be blocked, the default has no runtime. */
  lemma FrontRows(gateway: Row, default: Row)
    requires default.runtimeState != Blocked
    ensures Consumers([gateway, default]) == ConsumerOf(gateway) + ConsumerOf(default)
    ensures RowBlockers([gateway, default])
              == if gateway.runtimeState == Blocked then [Blocker(UNSTABLE, gateway.name)] else []
  {
    RowPushed([], gateway);
    RowPushed([gateway], default);
    assert [] + [gateway] == [gateway] && [gateway] + [default] == [gateway, default];
  }

  /**
   * The planner as it runs: rows, consumers and blockers are pushed computer by computer in name order.
   * It fails exactly when the catalog lacks a preset that is followed, and blocks exactly what is not stable.
   */
  method BuildUpgradeAllPlan(host: Host, catalog: Catalog, recoveryRequired: bool) returns (r: Result<Plan, string>)
    ensures r.Success? <==> Plannable(host.config, catalog)
    ensures r.Success? ==> r.value == PlanOf(host, catalog, recoveryRequired)
    ensures r.Success? ==> (r.value.blockers == [] <==> Stable(r.value.gateway, r.value.computers) && !recoveryRequired)
  {
    hide Target, RuntimeStateOf, ExactTargets, VerifiedPresent, ComputerPreview, GatewayPreview, TargetAvailable,
      Consumers, RowBlockers, Sort, ComputerRows;
    if host.config.defaults.contract.preset != Custom && host.config.defaults.contract.preset !in catalog.presets {
      return Failure("default image is unavailable");
    }
    var gateway := GatewayPreview(host, catalog);
    var default := DefaultPreview(host.config.defaults, catalog);
    FrontRows(gateway, default);
    assert gateway.name == "gateway" by { GatewayNamed(host, catalog); }
    var rows := [gateway, default];
    var consumers := ConsumerOf(gateway) + ConsumerOf(default);
    var blockers := if gateway.runtimeState == Blocked then [Blocker(UNSTABLE, "gateway")] else [];
    var sorted := SortedComputers(host.config);
    NoRows(host, catalog);
    var i := 0;
    while i < |sorted|
      invariant 0 <= i <= |sorted|
      invariant forall c :: c in sorted[..i] ==> TargetAvailable(c, catalog)
      invariant rows == [gateway, default] + ComputerRows(sorted[..i], host, catalog)
      invariant consumers == Consumers(rows) && blockers == RowBlockers(rows)
    {
      if !TargetAvailable(sorted[i], catalog) {
        assert sorted[i] in host.config.computers;
        return Failure("computer image is unavailable");
      }
      var row := ComputerPreview(sorted[i], Lookup(host.runtimes, sorted[i].id), host.images, catalog);
      RowPushed(rows, row);
      RowsPushed(sorted[..i], sorted[i], host, catalog);
      rows := rows + [row];
      consumers := consumers + ConsumerOf(row);
      if row.runtimeState == Blocked {
        blockers := blockers + [Blocker(UNSTABLE, row.name)];
      }
      assert sorted[..i + 1] == sorted[..i] + [sorted[i]];
      i := i + 1;
    }
    assert sorted[..i] == sorted;
    var computers := rows[2..];
    if RunsWithoutGateway(gateway, computers) {
      blockers := blockers + [Blocker(UNSTABLE, "gateway")];
    }
    if recoveryRequired {
      blockers := blockers + [Blocker(RECOVERY, "lifecycle")];
    }
    assert blockers == PlanBlockers(gateway, default, computers, recoveryRequired);
    UnblockedIffStable(gateway, default, computers, recoveryRequired);
    Assembled(host, catalog, recoveryRequired, rows, consumers, blockers);
    r := Success(Plan(catalog.identity, host.config, rows[0], rows[1], computers, ExactTargets(consumers),
                      VerifiedPresent(rows, host.images), Sort(blockers, BlockerLe)));
  }

  /** The lists, once everything is pushed, make the plan. */
  lemma Assembled(host: Host, catalog: Catalog, recoveryRequired: bool, rows: seq<Row>, consumers: seq<Consumer>,
                  blockers: seq<Blocker>)
    requires Plannable(host.config, catalog)
    requires rows == [GatewayPreview(host, catalog), DefaultPreview(host.config.defaults, catalog)]
                     + ComputerRows(SortedComputers(host.config), host, catalog)
    requires consumers == Consumers(rows) && blockers == PlanBlockers(rows[0], rows[1], rows[2..], recoveryRequired)
    ensures Plan(catalog.identity, host.config, rows[0], rows[1], rows[2..], ExactTargets(consumers),
                 VerifiedPresent(rows, host.images), Sort(blockers, BlockerLe))
            == PlanOf(host, catalog, recoveryRequired)
  {
    hide GatewayPreview, DefaultPreview, ComputerRows, SortedComputers, Consumers, ExactTargets, VerifiedPresent,
      PlanBlockers, Sort;
    assert rows[2..] == ComputerRows(SortedComputers(host.config), host, catalog);
  }

  lemma GatewayNamed(host: Host, catalog: Catalog)
    ensures GatewayPreview(host, catalog).name == "gateway"
  {
  }

  lemma NoRows(host: Host, catalog: Catalog)
    ensures ComputerRows([], host, catalog) == []
  {
  }

  function AcceptedRowOf(row: Row): AcceptedRow {
    AcceptedRow(row.key, row.kind, row.action, row.preset, row.runtimeState,
                if row.targetImage.Some? then Some(row.targetImage.value.resolved) else None, row.runtimeContainers)
  }

  /** acceptedUpgradeAllPlan */
  function Accept(plan: Plan): Acceptance {
    Acceptance(plan.catalog, Map(plan.Rows(), AcceptedRowOf), plan.exactTargets)
  }

  // ----- mutation steps -----

  const GATEWAY_STEP := "gateway-and-defaults"

  predicate ComputerMutates(row: Row) {
    row.kind == ComputerRow && Mutates(row.action)
  }

  function ComputerSteps(rows: seq<Row>): seq<string> {
    if rows == [] then []
    else (if ComputerMutates(rows[0]) then [rows[0].key] else []) + ComputerSteps(rows[1..])
  }

  predicate GatewayMutates(plan: Plan) {
    plan.gateway.action != Current || plan.default.action == UpdateDefault
  }

  /** mutationSteps, by step key */
  function Steps(plan: Plan): seq<string> {
    (if GatewayMutates(plan) then [GATEWAY_STEP] else []) + ComputerSteps(plan.computers)
  }
}
