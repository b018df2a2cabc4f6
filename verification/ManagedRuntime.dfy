/**
 * The managed containers of one computer (or the gateway) as Docker reports them, and what an
 * observation makes of them. Models `managedComputerRuntimeObservation` of packages/cli/src/docker.ts.
 */
module ManagedRuntime {
  import opened Wrappers
  import opened Sorting

  datatype Status = IsRunning | IsRestarting | IsPaused | IsExited | IsCreated | IsAbsent | Unlisted(text: string)

  datatype Binding = Binding(name: string, id: string, status: Status, imageId: string, role: string,
                             topologyVersion: Option<string>)

  function BindingId(binding: Binding): string { binding.id }
  function BindingName(binding: Binding): string { binding.name }

  /** Same immutable container; the status is free to change. */
  predicate SameContainer(left: Binding, right: Binding) {
    && left.id == right.id
    && left.name == right.name
    && left.imageId == right.imageId
    && left.role == right.role
    && left.topologyVersion == right.topologyVersion
  }

  datatype Group = Complete | AbsentGroup | Partial | Inconsistent
  datatype Observation = Observation(status: Status, group: Group, containers: seq<Binding>)

  predicate Uniform(containers: seq<Binding>) {
    forall i, j :: 0 <= i < j < |containers| ==> containers[i].status == containers[j].status
  }

  /** What is observed of an inventory whose members are listed in the order of the expected names. */
  function Observe(expected: seq<string>, inventory: seq<Binding>): Observation {
    if exists b :: b in inventory && b.name !in expected then Observation(Unlisted("inconsistent"), Inconsistent, [])
    else if inventory == [] then Observation(IsAbsent, AbsentGroup, [])
    else if |inventory| != |expected| then Observation(inventory[0].status, Partial, inventory)
    else if !Uniform(inventory) then Observation(inventory[0].status, Inconsistent, inventory)
    else Observation(inventory[0].status, Complete, inventory)
  }
}
