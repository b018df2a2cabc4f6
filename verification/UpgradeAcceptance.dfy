/**
 * What an operator accepts for `upgrade --all`, and what recovery may continue.
 * Models the acceptance part of packages/cli/src/lifecycle-update.ts.
 */
module UpgradeAcceptance {
  import opened Wrappers
  import opened Sorting
  import opened ManagedRuntime

  datatype Preset = FileSystem | Browser | Desktop | Workstation | Custom
  datatype RowKind = GatewayRow | DefaultRow | ComputerRow
  datatype RuntimeState = Running | Stopped | Absent | NotApplicable | Blocked
  datatype Action = Current | Upgrade | RepairContentDrift | UpdateDefault | ManualCustomImage | BlockedRuntime

  datatype AcceptedRow = AcceptedRow(key: string, kind: RowKind, action: Action, preset: Option<Preset>,
                                     runtimeState: RuntimeState, exactTarget: Option<string>,
                                     runtimeContainers: seq<Binding>)
  datatype AcceptedTarget = AcceptedTarget(exactTarget: string, consumerIds: seq<string>)

  /** The catalog and host a plan was computed for. */
  datatype CatalogIdentity = CatalogIdentity(platform: string, revision: string, releaseVersion: string)

  /**
   * An acceptance, and at the same time everything recovery reads of a fresh plan: a plan is
   * compared only through the fields that `acceptedUpgradeAllPlan` copies.
   */
  datatype Acceptance = Acceptance(catalog: CatalogIdentity, rows: seq<AcceptedRow>, exactTargets: seq<AcceptedTarget>)

  // ----- the keys of `new Map(entries.map((entry) => [key(entry), entry]))` -----

  function RowKey(row: AcceptedRow): string { row.key }
  function TargetKey(target: AcceptedTarget): string { target.exactTarget }

  // ----- sameRuntimeContainers -----

  predicate Retained(expected: Binding, current: seq<Binding>) {
    exists actual :: actual in current && SameContainer(expected, actual)
  }

  predicate SameRuntimeContainers(left: seq<Binding>, right: seq<Binding>) {
    && |left| == |right|
    && UniqueBy(left, BindingId) && UniqueBy(right, BindingId)
    && UniqueBy(left, BindingName) && UniqueBy(right, BindingName)
    && forall expected :: expected in left ==> Retained(expected, right)
  }

  lemma SameRuntimeContainersTransitive(a: seq<Binding>, b: seq<Binding>, c: seq<Binding>)
    requires SameRuntimeContainers(a, b) && SameRuntimeContainers(b, c)
    ensures SameRuntimeContainers(a, c)
  {
    forall x | x in a
      ensures Retained(x, c)
    {
      assert Retained(x, b);
      var y :| y in b && SameContainer(x, y);
      assert Retained(y, c);
      var z :| z in c && SameContainer(y, z);
      assert SameContainer(x, z);
    }
  }

  // ----- assertAcceptedUpgradeAllRecovery -----

  predicate Mutates(action: Action) {
    action == Upgrade || action == RepairContentDrift
  }

  predicate RecoveryActionAllowed(accepted: Action, current: Action) {
    || accepted == current
    || (current == Current && (accepted == Upgrade || accepted == RepairContentDrift || accepted == UpdateDefault))
  }

  predicate RowAdmitted(prior: AcceptedRow, row: AcceptedRow) {
    && prior.key == row.key
    && prior.kind == row.kind
    && prior.preset == row.preset
    && prior.runtimeState == row.runtimeState
    && prior.exactTarget == row.exactTarget
    && (Mutates(row.action) ==> SameRuntimeContainers(prior.runtimeContainers, row.runtimeContainers))
    && RecoveryActionAllowed(prior.action, row.action)
  }

  predicate AdmittedBySome(accepted: seq<AcceptedRow>, row: AcceptedRow) {
    exists prior :: prior in accepted && RowAdmitted(prior, row)
  }

  predicate RowsAdmitted(accepted: seq<AcceptedRow>, current: seq<AcceptedRow>) {
    && UniqueBy(accepted, RowKey)
    && |current| == |accepted|
    && forall row :: row in current ==> AdmittedBySome(accepted, row)
  }

  predicate TargetsAdmitted(accepted: seq<AcceptedTarget>, current: seq<AcceptedTarget>) {
    && UniqueBy(accepted, TargetKey)
    && |current| == |accepted|
    && forall target :: target in current ==> target in accepted
  }

  /** Recovery of `accepted` does not throw when the fresh plan reads as `current`. */
  predicate Admits(accepted: Acceptance, current: Acceptance) {
    && accepted.catalog == current.catalog
    && RowsAdmitted(accepted.rows, current.rows)
    && TargetsAdmitted(accepted.exactTargets, current.exactTargets)
  }

  // ----- composition -----

  lemma RowAdmittedTransitive(a: AcceptedRow, b: AcceptedRow, c: AcceptedRow)
    requires RowAdmitted(a, b) && RowAdmitted(b, c)
    ensures RowAdmitted(a, c)
  {
    if Mutates(c.action) {
      // only an unchanged action can still mutate, so the middle row mutates too
      SameRuntimeContainersTransitive(a.runtimeContainers, b.runtimeContainers, c.runtimeContainers);
    }
  }

  /** An acceptance rebuilt from an admitted plan never widens what the first acceptance allowed. */
  lemma AdmissionComposes(a: Acceptance, b: Acceptance, c: Acceptance)
    requires Admits(a, b) && Admits(b, c)
    ensures Admits(a, c)
  {
    forall row | row in c.rows
      ensures AdmittedBySome(a.rows, row)
    {
      assert AdmittedBySome(b.rows, row);
      var middle :| middle in b.rows && RowAdmitted(middle, row);
      assert AdmittedBySome(a.rows, middle);
      var first :| first in a.rows && RowAdmitted(first, middle);
      RowAdmittedTransitive(first, middle, row);
    }
  }

  /** Recoveries in sequence: each admits the plan from which the next acceptance is rebuilt. */
  ghost predicate RecoveryChain(chain: seq<Acceptance>) {
    forall i :: 0 <= i < |chain| - 1 ==> Admits(chain[i], chain[i + 1])
  }

  lemma {:induction false} ChainAdmitsLast(chain: seq<Acceptance>)
    requires |chain| >= 2 && RecoveryChain(chain)
    ensures Admits(chain[0], chain[|chain| - 1])
  {
    var last := |chain| - 1;
    if last > 1 {
      var shorter := chain[..last];
      forall i | 0 <= i < |shorter| - 1
        ensures Admits(shorter[i], shorter[i + 1])
      {
        assert Admits(chain[i], chain[i + 1]);
      }
      ChainAdmitsLast(shorter);
      AdmissionComposes(chain[0], chain[last - 1], chain[last]);
    }
  }

  /**
   * After any number of recoveries, a row that is still to be mutated is one row of the first
   * review: same action, target, preset, runtime state and immutable containers.
   */
  lemma RemainingMutationWasReviewed(chain: seq<Acceptance>, row: AcceptedRow)
    requires |chain| >= 2 && RecoveryChain(chain)
    requires row in chain[|chain| - 1].rows && row.action != Current
    ensures exists reviewed :: reviewed in chain[0].rows
              && reviewed.(runtimeContainers := row.runtimeContainers) == row
              && (Mutates(row.action) ==> SameRuntimeContainers(reviewed.runtimeContainers, row.runtimeContainers))
  {
    ChainAdmitsLast(chain);
    assert AdmittedBySome(chain[0].rows, row);
    var reviewed :| reviewed in chain[0].rows && RowAdmitted(reviewed, row);
    assert reviewed.(runtimeContainers := row.runtimeContainers) == row;
  }
}
