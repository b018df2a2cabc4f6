/**
 * A host with an upgrade to make: an old gateway that is not started, and a stopped computer of an old
 * browser image. The recoverable states that the protocol is proved about are not empty.
 */
module UpgradeExample {
  import opened Wrappers
  import opened ManagedRuntime
  import opened UpgradeAcceptance
  import opened Sorting
  import opened ToolPolicy
  import opened UpgradePlan
  import opened UpgradeSteps
  import opened UpgradeProtocol
  import opened UpgradeSettling
  import opened UpgradeResumption

  const RESOURCES := Resources(1.0, "1g")
  const CURRENT := Contract(Browser, Browser, Image("browser", "browser@2", None, None), 1, [])
  const OUTDATED := CURRENT.(image := Image("browser", "browser@1", None, Some("old")))
  const CATALOG := Catalog(CatalogIdentity("linux/amd64", "2", "2"), Image("gateway", "gateway@2", None, None),
                           map[Browser := Defaults(CURRENT, RESOURCES)])
  const COMPUTER := Computer("a", "a", OUTDATED, RESOURCES, None, Access(None, None, None), "")
  const STOPPED := Observation(IsExited, Complete, [Binding("a", "1", IsExited, "old", "computer", None)])
  const CONFIG :=
    Config("i", Gateway(Image("gateway", "gateway@1", None, Some("old")), ""), Defaults(OUTDATED, RESOURCES),
           [COMPUTER])
  const HOST := Host(CONFIG, Observation(IsAbsent, AbsentGroup, []), map["a" := STOPPED], map[])

  ghost function TheWorld(): World {
    World(CATALOG, r => "old", (id: string, base: Image) => base.(resolved := "~" + id),
          (r: string) => if r != "" && r[0] == '~' then Some(r[1..]) else None, true)
  }

  lemma HostIsReady()
    ensures Ready(TheWorld(), HOST)
  {
    hide ComputerPreview, PlanOf, Target, Faithful, TagsApart;
    TagsAreApart();
    NothingReadsCurrent();
    assert HOST.config.computers == [COMPUTER] && forall c :: c in HOST.config.computers ==> c == COMPUTER;
  }

  lemma TagsAreApart()
    ensures Plannable(CONFIG, CATALOG) && TagsApart(TheWorld(), CONFIG)
  {
    forall id: string, base: Image
      ensures TheWorld().owner(TheWorld().softwareTag(id, base).resolved) == Some(id)
    {
      assert ("~" + id)[0] == '~' && ("~" + id)[1..] == id;
    }
    assert CONFIG.computers == [COMPUTER] && forall c :: c in CONFIG.computers ==> c == COMPUTER;
    assert "gateway@1"[0] == 'g' && "gateway@2"[0] == 'g' && "browser@1"[0] == 'b' && "browser@2"[0] == 'b';
  }

  lemma NothingReadsCurrent()
    ensures Plannable(HOST.config, CATALOG) && Faithful(TheWorld(), HOST)
  {
    assert HOST.config.computers == [COMPUTER] && forall c :: c in HOST.config.computers ==> c == COMPUTER;
  }

  lemma OnlyComputer(config: Config, c: Computer)
    requires config.computers == [c]
    ensures SortedComputers(config) == [c]
  {
    var sorted := SortedComputers(config);
    assert sorted[0] in sorted;
  }

  lemma OneRow(computers: seq<Computer>, c: Computer, host: Host, catalog: Catalog)
    requires computers == [c] && TargetAvailable(c, catalog)
    ensures ComputerRows(computers, host, catalog)
              == [ComputerPreview(c, Lookup(host.runtimes, c.id), host.images, catalog)]
  {
  }

  lemma OneStep(rows: seq<Row>, row: Row)
    requires rows == [row] && ComputerMutates(row)
    ensures ComputerSteps(rows) == [row.key]
  {
    assert ComputerSteps(rows[1..]) == [];
  }

  /** The three rows of the host. */
  lemma RowsOfHost()
    ensures Plannable(HOST.config, CATALOG) && TargetAvailable(COMPUTER, CATALOG)
    ensures var row := GatewayPreview(HOST, CATALOG); row.action == Upgrade && row.runtimeState == Absent
    ensures var row := ComputerPreview(COMPUTER, Some(STOPPED), map[], CATALOG);
            row.action == Upgrade && row.runtimeState == Stopped && row.kind == ComputerRow && row.key == RowKeyOf("a")
  {
    assert HOST.config.computers == [COMPUTER] && forall c :: c in HOST.config.computers ==> c == COMPUTER;
  }

  lemma OneComputer(host: Host, c: Computer, plan: Plan)
    requires host.config.computers == [c] && Plannable(host.config, CATALOG) && plan == PlanOf(host, CATALOG, false)
    requires TargetAvailable(c, CATALOG)
    ensures plan.gateway == GatewayPreview(host, CATALOG)
    ensures plan.computers == [ComputerPreview(c, Lookup(host.runtimes, c.id), host.images, CATALOG)]
    ensures plan.blockers == [] <==> Stable(plan.gateway, plan.computers)
    ensures plan.exactTargets == ExactTargets(Consumers(plan.Rows()))
  {
    PlanUnblockedIffStable(host, CATALOG, plan);
    PlanParts(host, CATALOG, plan);
    hide PlanOf, ComputerRows, ComputerPreview, GatewayPreview, DefaultPreview, Stable, TargetAvailable, Plannable;
    OnlyComputer(host.config, c);
    OneRow(SortedComputers(host.config), c, host, CATALOG);
  }

  lemma BothStepsAhead(plan: Plan, row: Row)
    requires plan.gateway.action == Upgrade && plan.gateway.runtimeState == Absent && plan.computers == [row]
    requires row.action == Upgrade && row.runtimeState == Stopped && row.kind == ComputerRow
    ensures Stable(plan.gateway, plan.computers) && Steps(plan) == [GATEWAY_STEP, row.key]
  {
    OneStep(plan.computers, row);
    hide ComputerSteps;
  }

  lemma TwoSteps(plan: Plan)
    requires Plannable(HOST.config, CATALOG) && plan == PlanOf(HOST, CATALOG, false)
    ensures plan.blockers == [] && Steps(plan) == [GATEWAY_STEP, RowKeyOf("a")]
  {
    hide PlanOf, ComputerPreview, GatewayPreview, DefaultPreview, Plannable, TargetAvailable, Steps, Stable, RowKeyOf,
      ExactTargets, Consumers;
    RowsOfHost();
    OneComputer(HOST, COMPUTER, plan);
    BothStepsAhead(plan, ComputerPreview(COMPUTER, Some(STOPPED), map[], CATALOG));
  }

  /** Its accepted upgrade has a gateway step and a computer step ahead, in a state recovery accepts. */
  lemma UpgradeToRunExists()
    ensures Ready(TheWorld(), HOST) && TheWorld().intact
    ensures var plan := PlanOf(HOST, CATALOG, false);
            && plan.blockers == [] && Steps(plan) == [GATEWAY_STEP, RowKeyOf("a")]
            && Settled(TheWorld(), HOST, AcceptedJournal(plan, map[]), Start(plan))
  {
    HostIsReady();
    hide PlanOf, Steps, Settled, PreparedUsable, Ready;
    assert Plannable(HOST.config, CATALOG) by { NothingReadsCurrent(); }
    TwoSteps(PlanOf(HOST, CATALOG, false));
    NothingPrepared(TheWorld(), HOST);
    AcceptanceSettles(TheWorld(), HOST, PlanOf(HOST, CATALOG, false), map[]);
  }

  // ----- a host whose own acquisition makes recovery refuse it -----

  const UPGRADED := COMPUTER.(contract := CURRENT.(image := CURRENT.image.(contentId := Some("new"))))
  /** The computer is current, its image is not local, and the gateway is still to be upgraded. */
  const PRUNED := HOST.(config := CONFIG.(computers := [UPGRADED]))
  const LATER := PRUNED.(images := map["browser@2" := "other"])

  /**
   * Acquiring every exact target obtains the absent image of the current computer too. If the reference has
   * come to name other bytes, the row turns to a repair nobody accepted, and recovery refuses the state.
   */
  lemma OtherBytesAreRefused()
    ensures Plannable(PRUNED.config, CATALOG) && Plannable(LATER.config, CATALOG)
    ensures var plan := PlanOf(PRUNED, CATALOG, false);
            && plan.blockers == [] && GatewayMutates(plan)
            && (exists t :: t in plan.exactTargets && t.exactTarget == "browser@2")
            && !Admits(Accept(plan), Accept(PlanOf(LATER, CATALOG, false)))
  {
    hide PlanOf, ComputerPreview, GatewayPreview, DefaultPreview, Admits, Accept, ExactTargets, Consumers, ValidHost;
    RowsOfPruned();
    var plan := PlanOf(PRUNED, CATALOG, false);
    OneComputer(PRUNED, UPGRADED, plan);
    AdmittedIffCurrentStaysQuiet(PRUNED, LATER, CATALOG);
    assert UPGRADED in PRUNED.config.computers;
    assert plan.Rows()[2] == plan.computers[0] && plan.computers[0] in plan.Rows();
    TargetListed(plan.Rows(), plan.computers[0]);
  }

  lemma RowsOfPruned()
    ensures ValidHost(PRUNED, CATALOG) && Plannable(PRUNED.config, CATALOG)
    ensures var row := GatewayPreview(PRUNED, CATALOG); row.action == Upgrade && row.runtimeState == Absent
    ensures ReadsCurrent(UPGRADED, PRUNED, CATALOG) && Drifts(UPGRADED, LATER.images)
    ensures var row := ComputerPreview(UPGRADED, Some(STOPPED), map[], CATALOG);
            row.runtimeState == Stopped && row.targetImage.Some? && row.targetImage.value.resolved == "browser@2"
  {
    PrunedIsValid();
    hide ValidHost;
  }

  lemma PrunedIsValid()
    ensures ValidHost(PRUNED, CATALOG) && Plannable(PRUNED.config, CATALOG)
  {
    hide ComputerPreview, GatewayPreview;
    assert PRUNED.config.computers == [UPGRADED] && forall c :: c in PRUNED.config.computers ==> c == UPGRADED;
  }
}
